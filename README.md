# Payment reconciliation for the FTI and GS1 e-payment sites

This project models the payment core of a two-tenant web application. One
tenant is the FTI e-payment site and the other is the GS1 payment site. Both
take payments through a hosted card gateway (2C2P). It is written in Dafny, and
its main properties are proved.

One payment goes through these steps:

1. The site stores a *pending* transaction row and upserts the customer row,
   keyed by tax id.
2. It asks the gateway for a payment token. The signed request names the
   invoice.
3. The gateway calls the site back with a signed notification (the callback).
   The callback settles every pending row that matches the invoice: completed
   on response code `0000`, failed otherwise. It then appends one payment-detail
   row, linked to the matching row with the latest `updated_at`.
4. The inquiry route reports the stored state in the gateway's vocabulary.
5. The GS1 result page turns that report into the status it shows.

The two callbacks differ in how they match invoices:

- FTI uses exact equality.
- GS1 uses `invoice_number LIKE '<invoiceNo>-%'`.

Modules:

| module | what it holds |
|---|---|
| `Common` | optional JSON text, JavaScript truthiness, parsed numbers, `startsWith`/`includes` |
| `Store` | the tables and their key invariant, the two match rules, the guarded UPDATE, the latest-row pick |
| `Reconcile` | both callback handlers as one function over a `Handler` record, and their lemmas |
| `Creation` | both create routes: required fields, amount check, customer upsert, transaction insert |
| `Database` | class `PaymentDb`, whose handlers change the tables in place with BEGIN/COMMIT/ROLLBACK. Each method is proved equal to the spec function |
| `Inquiry` | the inquiry of both systems: exact match, LEFT JOIN to the newest detail, code mapping |
| `Token` | both token routes: configuration, payload, production guards, endpoint, reply classification |
| `Gs1Page` | the GS1 payment page: input change, customer-type switch, `validateForm`, and the two request bodies |
| `Gs1Result` | the GS1 result page: class `ResultView` and the status it derives |
| `InvoiceChain` | the whole chain from page to inquiry, across routes, as written and corrected |

Some inputs come from outside the model and are passed in as parameters:

- The JWT verifier: `verified: Option<...>`, where `None` means verification threw.
- The gateway's HTTP reply.
- `Number.parseFloat`: a `Num`.
- The clock: `now`, `nowText`, `Draws.nowMs`.
- The random generator: `stamp`, `random`, `Draws`.
- Database failures: `fault: Option<nat>`, the index of the statement that raises.

## Model

| member | source | states |
|---|---|---|
| Store.TargetStatus | app/api/payment/backend-return/route.ts:72 | the status asked for is completed exactly on code "0000"; it is never pending |
| Store.SettleAll | app/api/payment/backend-return/route.ts:114-119 | the UPDATE changes exactly the matching pending rows (new status, new `updated_at`); every other row is untouched, and ids, invoices and customer foreign keys are kept |
| Store.LatestMatch | app/api/payment/backend-return/route.ts:135-141 | `ORDER BY updated_at DESC LIMIT 1`: none iff no row matches; otherwise a matching row with no later matching row, and the first of any tie |
| Reconcile.SnapshotOf | app/api/payment/backend-return/route.ts:170-179 | the stored gateway JSON holds each of `respCode`, `respDesc`, `approvalCode`, `referenceNo`, `accountNo`, `eci`, `merchantID` and `currencyCode` iff the callback carried it, with its value. It holds no other member, so never `tranRef` |
| Reconcile.Applied | app/api/payment/backend-return/route.ts:113-185 | a committed callback: transactions become the settled table, and exactly one detail row is appended, linked to the latest matching row. Customers and the audit log are kept |
| Reconcile.Callback | app/api/payment/backend-return/route.ts:11-227 | both handlers. Guards in order, each stated iff: 400 no payload, 500 no secret configured, 400 bad signature, 400 wrong merchant. 404 iff nothing matches. A database fault rolls back and still acks. Otherwise the writes of `Applied` commit. A status changes only from pending to the target. Details are append-only, at most one per delivery. Audit and customer tables never change |
| Reconcile.SettleTwiceIsSettleOnce | app/api/payment/backend-return/route.ts:114-130 | a second guarded UPDATE over the same match changes nothing, whatever status it asks for |
| Reconcile.RedeliveryChangesNoStatus | app/api/payment/backend-return/route.ts:113-185 | after one committed callback, a redelivery for the same invoice is acked, changes no transaction, and appends one more detail row |
| Reconcile.SettleKeepsMatches | app/api/payment/backend-return/route.ts:114-141 | the UPDATE keeps invoices, so a row that matched before it still matches for the latest-row SELECT |
| Reconcile.RolledBackDelivery | app/api/payment/backend-return/route.ts:188-198 | when a statement of the database phase raises, the callback leaves the tables as they were and still acks |
| Reconcile.CommittedDelivery | app/api/payment/backend-return/route.ts:113-185 | a committed delivery leaves exactly the settled transactions plus one detail row linked to the latest matching row, and acks |
| Reconcile.FaultFreeDeliveryCommits | app/api/payment/backend-return/route.ts:77-185 | with no database fault, a delivery that passes the guards and matches a row commits the writes of `Applied` |
| Reconcile.DetailLinksLatestMatch | app/api/payment/backend-return/route.ts:134-181 | the new detail row has the next id and the target status. It records the callback's fields and links to a matching row with the greatest `updated_at` |
| Reconcile.DetailLinksSettledRow | app/api/payment/backend-return/route.ts:113-164 | when a matching row was pending and the clock is past every stored `updated_at`, the detail links to a row this delivery settled |
| Reconcile.CallbackPreservesWellFormed | app/api/payment/backend-return/route.ts:156-181 | keys stay sequential and every foreign key names an existing row, whatever the callback does |
| Reconcile.AppliedPreservesWellFormed | app/api/payment/backend-return/route.ts:113-181 | the committed writes keep keys sequential and tax ids unique, and the new detail's foreign key names an existing transaction |
| Reconcile.AppliedKeepsDetailKeys | app/api/payment/backend-return/route.ts:156-181 | the appended detail row takes the next key and names an existing transaction; earlier detail rows keep theirs |
| Reconcile.PrefixMatchesSuffixedOnly | app/api/gs1payment/backend-return/route.ts:72-77 | the GS1 rule matches `<invoice>-<anything>` but never the bare invoice itself |
| Creation.RequiredFields | app/api/payments/route.ts:10 | each route's list starts with `invoice_number` and contains `total_amount` |
| Creation.FirstMissing | app/api/payments/route.ts:11-18 | none iff every listed field is truthy; otherwise the first falsy field in list order |
| Creation.FindMissingField | app/api/payments/route.ts:11-18 | the check loop with its early return reports exactly `FirstMissing` |
| Creation.FindByTaxId | app/api/payments/route.ts:69-78 | none iff no row holds the tax id; otherwise a row that does |
| Creation.Upsert | app/api/payments/route.ts:45-115 | an existing tax id is updated in place: the row overwritten is the one that held the key, only its written columns change, its id is reused and no other row changes. Otherwise (a new or null key) exactly one row is appended. The returned id names a row holding the key and the written columns |
| Creation.UpsertKeepsTaxIdsUnique | app/api/payments/route.ts:45-115 | the upsert keeps the UNIQUE key on `tax_id`: no two rows share a non-null tax id, and the returned row is the only one holding the request's |
| Store.InsertKeepsWellFormed | app/api/payments/route.ts:117-137 | one transaction inserted with the next id and valid customer keys, after an upsert that kept customer keys sequential and tax ids unique, keeps the tables well formed |
| Creation.NewTx | app/api/payments/route.ts:117-134 | the inserted row is pending, carries the request's invoice and the given id, and its reference starts with `TXN-`/`GS1-TXN-`. The foreign key of the customer's type names the upserted customer and the other is null. Only GS1 keeps the original invoice number |
| Creation.RaisedCreateRollsBack | app/api/payments/route.ts:139-152 | a statement that raises in the database phase leaves the tables unchanged and answers 500 |
| Creation.AcceptedWrites | app/api/payments/route.ts:41-137 | an accepted request without fault commits the upsert into the table its type selects and one transaction row linked to the upserted id |
| Creation.Inserted | app/api/payments/route.ts:117-137 | one pending row is appended, with the request's invoice and amount and a `TXN-`/`GS1-TXN-` reference. `corporate_customer_id` is the returned customer id iff the type is "corporate", `personal_customer_id` iff it is "personal", else null. GS1 stores `original_invoice_number`. Details and audit are kept |
| Creation.InsertedKeepsWellFormed | app/api/payments/route.ts:41-137 | the committed writes of a create request keep every key sequential, tax ids unique and every foreign key valid |
| Creation.Create | app/api/payments/route.ts:9-153 | 400 missing field iff a required field is falsy, naming the first falsy field in list order; 400 invalid amount iff the fields pass and the amount is NaN, infinite or negative; 500 iff a statement raises; created iff none of these. Only a created request changes the tables |
| Creation.ZeroAmountReportedMissing | app/api/payments/route.ts:10-27 | a numeric amount of 0 is reported as a missing field, not as an invalid amount, and nothing is written |
| Creation.Gs1NeedsOnlyInvoiceAndAmount | app/api/gs1payments/route.ts:9-18 | the GS1 required check passes iff invoice and amount are truthy |
| Database.PaymentDb.constructor | lib/db.ts:4-14 | a fresh database holds empty tables, which are well formed |
| Database.PaymentDb.Rollback | app/api/payment/backend-return/route.ts:188-190 | every table is restored to the state saved at BEGIN |
| Database.PaymentDb.ReceiveCallback | app/api/payment/backend-return/route.ts:6-227 | the imperative handler leaves the tables and returns the reply that `Callback` specifies, and keeps the key invariant |
| Database.PaymentDb.ApplyDelivery | app/api/payment/backend-return/route.ts:63-198 | the database phase after the guards: BEGIN, the candidate SELECT, then the miss or hit branch, as `Callback` specifies, keeping the key invariant |
| Database.PaymentDb.RecordMiss | app/api/payment/backend-return/route.ts:84-111 | with no matching row: the FTI audit INSERT, then ROLLBACK and 404, or an ack with nothing written when the INSERT raises, as `Callback` specifies |
| Database.PaymentDb.SettleMatches | app/api/payment/backend-return/route.ts:113-119 | with a matching row: the guarded UPDATE, which may raise and roll back, then the detail row, as `Callback` specifies |
| Database.PaymentDb.AppendDetail | app/api/payment/backend-return/route.ts:134-198 | after the UPDATE: latest-row SELECT, detail INSERT and COMMIT, each of which may raise and roll back to the tables at BEGIN, as `Callback` specifies |
| Database.PaymentDb.CreatePayment | app/api/payments/route.ts:5-165 | the imperative creator leaves the tables and returns the reply that `Create` specifies, and keeps the key invariant |
| Database.PaymentDb.InsertPayment | app/api/payments/route.ts:38-153 | BEGIN, the customer upsert, the transaction INSERT and COMMIT, each of which may raise and roll back, as `Create` specifies |
| Database.PaymentDb.InsertTransaction | app/api/payments/route.ts:116-153 | after the upsert: the transaction INSERT (a pending row with a fresh id and a `TXN-` reference) and COMMIT, either of which may raise and roll back to the tables at BEGIN, as `Create` specifies |
| Inquiry.RespCode | app/api/payment/inquiry/route.ts:92-93 | "0000" iff completed, "2001" iff pending |
| Inquiry.RespDesc | app/api/payment/inquiry/route.ts:94-95 | "Success" iff completed, "Transaction in progress" iff pending, "Payment Failed" iff failed |
| Inquiry.RespCodeRoundTrip | app/api/payment/inquiry/route.ts:92-96 | every status is recovered from its code, and a code read back maps to itself |
| Inquiry.JoinedTx | app/api/payment/inquiry/route.ts:27-29 | none iff the detail joins no row with that invoice; otherwise a row it joins |
| Inquiry.FirstExact | app/api/payment/inquiry/route.ts:24-33 | none iff no row has exactly that invoice; otherwise such a row |
| Inquiry.LatestDetail | app/api/payment/inquiry/route.ts:24-33 | `ORDER BY pd.created_at DESC LIMIT 1`: none iff no detail joins; otherwise a joined detail with no later joined one |
| Inquiry.Report | app/api/payment/inquiry/route.ts:70-97 | invoice, status, code and description come from the row. The amount is the paid amount unless missing or zero. `tranRef` is the detail's, then the stored JSON's, then "" (also when the parsed JSON lacks it). A missing or unparsable JSON reads as `{}`. The date is the payment date, else `updated_at` |
| Inquiry.Inquire | app/api/payment/inquiry/route.ts:9-104 | both inquiry routes: 400 iff the invoice is falsy; 404 iff no row has exactly that invoice; otherwise a report of such a row's status, with the matching code and description |
| Inquiry.ReportsNewestDetail | app/api/payment/inquiry/route.ts:24-33 | when any detail joins, the reply reports the newest joined detail and the row it joins |
| Inquiry.InquireReportsJoin | app/api/payment/inquiry/route.ts:24-35 | once the newest joined detail and its row are known, the reply is the report built from that row and that detail |
| Token.GetErrorCauses | app/api/payment/token/route.ts:5-28 | at least one hint; "Unknown error" alone iff the code is none of 9042, 9015, 9001, 4001 |
| Token.ErrorDetail | app/api/payment/token/route.ts:190-195 | a short explanation exists iff the code is one of the four known codes |
| Token.GatewayErrorDetails | app/api/payment/token/route.ts:200 | the reply's own description, then the table's explanation, then "Unknown error"; never empty |
| Token.Endpoint | app/api/payment/token/route.ts:157-159 | the production URL iff the environment is "production", else the sandbox URL; both are HTTPS |
| Token.FtiInvoice | app/api/payment/token/route.ts:35 | a supplied invoice is forwarded unchanged; otherwise an `INV-` name is generated |
| Token.Gs1Invoice | app/api/gs1payment/token/route.ts:9 | a supplied invoice becomes `GS1-<invoice>-<ms>`; otherwise a `GS1-INV-` name; always starts with `GS1-` |
| Token.FtiPayload | app/api/payment/token/route.ts:61-103 | FTI merchant (FTI variable first), the FTI invoice, description default "item 1", the parsed amount, currency default "THB", empty prefix, `userDefined1`-`5` each as sent or "", the fixed frontend URL, the backend URL or "", and the drawn nonce and `iat` |
| Token.Gs1Payload | app/api/gs1payment/token/route.ts:26-68 | shared merchant, the GS1 invoice, the parsed amount, currency default "THB", prefix "GS1", five empty user fields, the configured frontend and backend URLs or "", and the drawn nonce and `iat` |
| Token.ProductionCheck | app/api/payment/token/route.ts:116-146 | no guard outside production. In production, a missing or "JT04" merchant is rejected first; then a missing backend URL or one without `https://` is rejected; a configuration passing both is accepted |
| Token.FtiFrontendUrlIsHttps | app/api/payment/token/route.ts:42 | the fixed frontend URL contains `https://`, so its production guard can never fire |
| Token.FtiClassify | app/api/payment/token/route.ts:182-258 | gateway error iff the body has no payload. Decode failure iff verification threw (code falls back to "JWT_ERROR"). Bad format iff the claims are not an object with `respCode`. Token issued iff the verified code is "0000" |
| Token.FtiToken | app/api/payment/token/route.ts:30-266 | 500 iff merchant or secret missing. The production guards stop the route before any call, with the reply `ProductionCheck` gives (merchant before HTTPS). The frontend guard never fires. The one call goes to `Endpoint` with `FtiPayload`. Success only on a verified "0000" |
| Token.Gs1Decoded | app/api/gs1payment/token/route.ts:104-112 | the verified claims, or the raw body when the payload is absent or verification throws |
| Token.Gs1Classify | app/api/gs1payment/token/route.ts:114-132 | issued iff the decoded code is "0000", handing back the gateway's token, payment URL, code and description; otherwise refused with that code and description |
| Token.Gs1Token | app/api/gs1payment/token/route.ts:4-140 | 500 iff merchant or secret missing; the call goes to `Endpoint` with `Gs1Payload`; every reply is issued or refused |
| Token.InvoiceForwarding | app/api/payment/token/route.ts:34-35 | the FTI route sends a supplied invoice unchanged; the GS1 route never does |
| Token.Gs1AcceptsUnsignedReply | app/api/gs1payment/token/route.ts:104-132 | an unsigned body whose own code is "0000" yields a token on GS1 and a gateway error on FTI |
| Gs1Page.SetValue | app/gs1payment/page.tsx:135 | the edited field holds the new value and every other field is kept |
| Gs1Page.StripPhone | app/gs1payment/page.tsx:253 | the result holds no `-` and no white space, and keeps every other character |
| Gs1Page.StripPhoneCounts | app/gs1payment/page.tsx:253-255 | every character other than `-` and white space is kept as often as it occurs, so the length the phone pattern tests is the number of kept characters |
| Gs1Page.StripPhoneConcat | app/gs1payment/page.tsx:253 | stripping a concatenation strips each part, so the kept characters stay in order |
| Gs1Page.StripPhoneChar | app/gs1payment/page.tsx:253 | a single character is deleted exactly when it is `-` or white space |
| Gs1Page.RequiredCase | app/gs1payment/page.tsx:219-246 | the five checks of the four sections together cover exactly the fields required for the customer type |
| Gs1Page.CheckIdentifiers | app/gs1payment/page.tsx:219-222 | section 1 adds `required` for exactly the blank ones of invoice, member id and tax id |
| Gs1Page.CheckCustomerNames | app/gs1payment/page.tsx:224-230 | section 2 adds `required` for a blank company name (corporate) or blank first and last names (personal), and nothing else |
| Gs1Page.CheckContact | app/gs1payment/page.tsx:232-234 | section 3 adds `required` for exactly the blank ones of phone and email |
| Gs1Page.CheckContactNames | app/gs1payment/page.tsx:236-243 | the conditional part of section 3 adds `required` for blank first and last names (corporate) or blank contact names (personal) |
| Gs1Page.CheckAmount | app/gs1payment/page.tsx:245-246 | section 4 adds `required` exactly when the amount is blank |
| Gs1Page.RequiredChecks | app/gs1payment/page.tsx:217-246 | a field is flagged "required" iff it is required for the customer type and blank after trimming |
| Gs1Page.ValidateForm | app/gs1payment/page.tsx:216-259 | the error map holds exactly the fields that fail, each with its message (a bad email or phone overrides "required"); the form is valid iff no field fails |
| Gs1Page.SwitchCustomerType | app/gs1payment/page.tsx:151-173 | the five name fields and their errors are cleared, everything else is kept, and the member-search error is emptied |
| Gs1Page.SwitchTwice | app/gs1payment/page.tsx:151-173 | two switches equal one switch to the second type |
| Gs1Page.InputChange | app/gs1payment/page.tsx:134-149 | the field is set and a shown error for it is emptied. For a personal customer, a first or last name is copied into an empty contact name. No other field or error changes |
| Gs1Page.AutofillOnlyIntoEmptyContact | app/gs1payment/page.tsx:140-148 | a typed first name fills an empty contact name, never overwrites a filled one, and is not copied for a corporate customer |
| Gs1Page.SubmittedInvoice | app/gs1payment/page.tsx:269-270 | the stored invoice is `<invoice>-<timestamp>`: it starts with the invoice and a `-`, and the rest is exactly the timestamp |
| Gs1Page.PostedAmount | app/gs1payment/page.tsx:288-298 | a `parseFloat` result sent through `JSON.stringify` arrives as the same number iff it is finite, and as null iff it is NaN or an infinity |
| Gs1Page.PaymentBody | app/gs1payment/page.tsx:272-298 | the create body carries the timestamped invoice and the original one; company name iff corporate; personal and contact names iff personal; address null; the amount as posted, truthy iff finite and non-zero |
| Gs1Page.TokenBody | app/gs1payment/page.tsx:311-323 | the token body carries the same timestamped invoice, the description default "Payment" and the customer type; the route reads a finite amount back unchanged and the null written for a non-finite one as NaN |
| Gs1Page.PaymentBodyPassesRequiredCheck | app/gs1payment/page.tsx:272-298 | the page's create body passes the GS1 create route's required check iff `parseFloat` gave a finite, non-zero amount, whatever the form holds |
| InvoiceChain.InfiniteAmountReportedMissing | app/api/gs1payments/route.ts:9-18 | an amount that `parseFloat` reads as Infinity reaches the GS1 create route as null; the route answers 400 missing `total_amount` and writes nothing |
| Gs1Result.ChooseStatus | app/gs1payment/result/PaymentResultContent.tsx:20-59 | no status without an invoice. A successful inquiry decides by its code. Otherwise "pending" iff the URL code is "2000". A thrown fetch shows "failed" |
| Gs1Result.ResultView.constructor | app/gs1payment/result/PaymentResultContent.tsx:7-9 | the page starts processing, with no status and no details |
| Gs1Result.ResultView.ProcessPaymentResult | app/gs1payment/result/PaymentResultContent.tsx:20-59 | processing ends in every case; the status and the details are set as `ChooseStatus` and a successful inquiry say, and are otherwise kept |
| Gs1Result.StatusOfStoredRow | app/gs1payment/result/PaymentResultContent.tsx:34-52 | a found row shows success iff it is completed and never "pending"; with no row, the URL code decides |
| InvoiceChain.NewestLinkedDetailIsLatest | app/api/payment/inquiry/route.ts:24-33 | a joined detail newer than every other is the one the inquiry picks |
| InvoiceChain.JoinedTxIsKeyedRow | app/api/payment/inquiry/route.ts:27-29 | with sequential keys, a detail joins the row its key names |
| InvoiceChain.InquiryReportsNewestDetail | app/api/payment/inquiry/route.ts:24-33 | when the last detail row is newer than all others and joins its keyed row, the inquiry reports that row with that detail |
| InvoiceChain.ReportOfCallbackDetail | app/api/payment/inquiry/route.ts:70-97 | a report built from a callback's detail row carries the row's status and the callback's `tranRef`, `referenceNo` and `approvalCode`, read back from the stored JSON |
| InvoiceChain.InquiryReportsCallbackDetail | app/api/payment/inquiry/route.ts:24-97 | when the newest detail row is a callback's, linked to a row with that invoice holding the callback's target status, the inquiry reports that status, code "0000" iff the callback's code was "0000", and the callback's references |
| InvoiceChain.AppliedDetailIsCallbacks | app/api/payment/backend-return/route.ts:113-181 | after an exact-match callback that found a pending row, the appended detail is the newest, is the callback's, and links the settled row with the callback's invoice and target status |
| InvoiceChain.AppliedKeepsHistory | app/api/payment/backend-return/route.ts:113-181 | the committed writes keep the transaction keys and every earlier detail row, all older than the clock |
| InvoiceChain.InquiryReportsSettledRow | app/api/payment/backend-return/route.ts:113-185 | after the committed writes of an exact-match callback that found a pending row, the inquiry for that invoice reports the new status and the callback's `tranRef`, `referenceNo` and `approvalCode` |
| InvoiceChain.ExactCallbackSettles | app/api/payment/backend-return/route.ts:63-185 | an exact-match callback for a pending row's own invoice acks, settles that row, and the inquiry then reports the new status ("0000" iff the gateway said "0000") |
| InvoiceChain.Gs1SentInvoiceNeverMatchesStored | app/api/gs1payment/token/route.ts:9 | the invoice the GS1 token route sends matches the page's stored invoice under neither the prefix rule nor equality |
| InvoiceChain.Gs1ChainLeavesSubmissionPending | app/gs1payment/page.tsx:269-312 | as written: after the page's create and token requests, a callback echoing the sent invoice leaves the created pending row unchanged, and the inquiry for that invoice never reports it |
| InvoiceChain.CorrectedGs1Invoice | app/api/gs1payment/token/route.ts:9 | corrected: a supplied invoice is forwarded unchanged |
| InvoiceChain.CorrectedChainSettlesSubmission | app/api/gs1payment/backend-return/route.ts:72-149 | corrected: the callback settles the submission's own pending row, and the inquiry reports the new status ("0000" iff the gateway said "0000") |
| InvoiceChain.PrefixCorrectionSettlesSubmission | app/api/gs1payment/backend-return/route.ts:72-77 | the correction the callback's comment describes: with the original invoice sent and the prefix rule kept, the callback settles the submission's row, but the exact-match inquiry for that invoice never reports the row |

## Left out

- JWT signing and verification, `fetch`, `response.json()` and `Number.parseFloat` are not modelled. Each becomes a parameter, and a failed HTTP call is `reply: None`.
- The clock and the random generator (`Date.now()`, `Math.random()`, `CURRENT_TIMESTAMP`) are parameters.
- A request body that is not valid JSON, and the outer `catch` that answers 500 in every route, are not modelled; request bodies arrive already parsed.
- A database error during an inquiry (500) is not modelled: the inquiry reads the tables as given.
- Concurrency is not modelled: each request runs alone and atomically. Connection pooling and the double `connection.release()` on both callbacks' 404 paths are left out too.
- Logging-only branches are left out: the "already processed" warning and the fraud/test-card classification of the FTI callback, and the low-amount production warning of the FTI token route.
- Store.LatestMatch: SQL leaves ties in `updated_at` unordered; the model picks the earliest such row.
- Inquiry.LatestDetail: the same holds for ties in `created_at`.
- Reconcile.Callback: the FTI 500 "Could not retrieve transaction ID" branch is not modelled. It is unreachable inside the transaction once the candidate SELECT found a row.
- Reconcile.Callback: GS1's `rows[0]?.id` is always defined for the same reason.
- Reconcile.Callback: the prefix rule is literal and case-sensitive. The model does not capture `%`/`_` inside an invoice number acting as LIKE wildcards, or a case-insensitive collation.
- Reconcile.Callback: the audit-log INSERT on an FTI miss is always rolled back, so the model shows only its net effect, an unchanged audit table. A fault in that INSERT is covered.
- Reconcile.CallbackPayload: the claims are typed as strings and an integer amount. Members of other JSON types are not modelled.
- Reconcile.SnapshotOf: `Option` does not tell JSON `null` from an absent member. `JSON.stringify` keeps a `null` member, which the model drops. The inquiry reads both as "", so its reply is the same.
- Store.TxIds: auto-increment keys are modelled as position + 1. InnoDB leaves gaps after a rolled-back insert (the create route's 500 path) and after `ON DUPLICATE KEY UPDATE`. The returned `transactionId` and `customerId` values and the key-based joins rely on this.
- Reconcile.Callback: the exact `invoice_number = ?` of the FTI callback and of both inquiries is modelled as string equality, without the column's collation (case and trailing-space rules).
- Creation.Create: amounts are integers in an abstract unit. `toFixed(2)` rounding and `DECIMAL` storage are not modelled.
- Creation.Upsert: the model returns the id of the row that holds the tax id. It does not model `insertId` being 0 on an update, or the follow-up SELECT that then reads the id.
- Creation.Inserted: the GS1 route's customer columns are taken as sent. A non-"corporate" type always goes to the personal table, and `personal_customer_id` is set only for "personal". This matches the source.
- Inquiry.Report: `amount_paid` is read as a number, so 0 falls back to `total_amount`. Nothing in the model shows that the MySQL driver may hand `DECIMAL` back as text, which would make "0.00" truthy.
- Inquiry.GatewayData: gateway JSON that parses to `null` or to a non-object is treated like text that does not parse.
- Token.FtiClassify: `Option` does not tell JSON `null` from an absent member. A verified reply `{respCode: null}` passes the route's `'respCode' in` test and is refused (400 with the code null), but the model reports it as a bad format.
- Token.GetErrorCauses: keys inherited from the JavaScript object prototype (such as "constructor") are not modelled.
- Token.FtiToken: the diagnostic echoes in error replies (`fullResponse`, `troubleshooting.environment`, `merchantId`) are not modelled, and neither are the fixed payload members (`paymentChannel`, `locale`, recurring settings).
- Gs1Page: `searchFtiMember` (member lookup in another service), translations, rendering, loading flags and the final redirect are not modelled.
- Gs1Page: an emptied error message is shown as `NoError`.
- Gs1Result: the URL's `channelCode` and `respDesc` are read but never used by the status logic, so they are not modelled.
- The remaining routes are not part of this model: debug configuration, member search, connection tests, mail tracking, the 2C2P test route, layout and the MSSQL helper.

## Findings

| source | as written | input that shows it | evidently intended | confidence | as-written member | corrected member |
|---|---|---|---|---|---|---|
| app/api/gs1payment/token/route.ts:9 | The page stores `<invoice>-<ts>` (page.tsx:270) and passes it as `invoiceNo`. The token route sends the gateway `GS1-<invoice>-<ts>-<ms>`. The GS1 callback (backend-return/route.ts:74-77) then looks for rows `LIKE '<echoed>-%'`, which are longer than any stored invoice of that payment | Invoice "A", ts "1" and ms "2": the row stored is "A-1", the gateway is sent "GS1-A-1-2", and the callback looks for "GS1-A-1-2-%", so the row stays pending (404) and an inquiry for "GS1-A-1-2" finds nothing | Two fixes close the chain. (1) Forward the stored invoice unchanged, as the FTI route does, and match it exactly: the callback settles the submission's row and the inquiry reports it (the corrected member). (2) The fix the callback's comment at backend-return/route.ts:72-73 describes: send the page's original invoice and keep the prefix rule. The callback then settles the row (InvoiceChain.PrefixCorrectionSettlesSubmission), but the result page's exact-match inquiry for that invoice never reports it | medium; not executed; assumes the gateway echoes the `invoiceNo` it was sent | InvoiceChain.Gs1ChainLeavesSubmissionPending | InvoiceChain.CorrectedChainSettlesSubmission |
