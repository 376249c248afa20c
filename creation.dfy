/** The transaction creator of both systems: required-field and amount checks,
    a customer upsert keyed by `tax_id`, and one pending transaction row, all in
    one database transaction. */
module Creation {
  import opened Common
  import opened Store

  /** Which route (and which set of tables) a request goes to. */
  datatype System = Fti | Gs1

  /** `total_amount` as it arrives in the JSON body; `AmountMissing` is an
      absent or `null` member. */
  datatype AmountField = AmountMissing | AmountText(text: string) | AmountNumber(n: Num)

  /** The JSON body of a create request. `memberId` is the route's own member
      field (`fti_member_id` or `gs1_member_id`). */
  datatype PaymentRequest = PaymentRequest(
    invoiceNumber: Option<string>,
    originalInvoiceNumber: Option<string>,
    customerType: Option<string>,
    companyName: Option<string>,
    firstName: Option<string>,
    lastName: Option<string>,
    contactPersonName: Option<string>,
    contactFirstName: Option<string>,
    contactLastName: Option<string>,
    taxId: Option<string>,
    memberId: Option<string>,
    phone: Option<string>,
    email: Option<string>,
    address: Option<string>,
    serviceOrProduct: Option<string>,
    othersReference: Option<string>,
    totalAmount: AmountField)

  datatype RequiredField = InvoiceNumber | Address | ServiceOrProduct | TotalAmount

  /** The `requiredFields` list of each route, in order. */
  function RequiredFields(sys: System): (fs: seq<RequiredField>)
    ensures |fs| > 0 && fs[0] == InvoiceNumber && TotalAmount in fs
  {
    match sys
    case Fti => [InvoiceNumber, Address, ServiceOrProduct, TotalAmount]
    case Gs1 => [InvoiceNumber, TotalAmount]
  }

  predicate AmountTruthy(a: AmountField) {
    match a
    case AmountMissing => false
    case AmountText(text) => text != ""
    case AmountNumber(n) => NumTruthy(n)
  }

  /** `paymentData[field]` is truthy. */
  predicate Supplied(req: PaymentRequest, f: RequiredField) {
    match f
    case InvoiceNumber => Filled(req.invoiceNumber)
    case Address => Filled(req.address)
    case ServiceOrProduct => Filled(req.serviceOrProduct)
    case TotalAmount => AmountTruthy(req.totalAmount)
  }

  /** The field the check loop reports: the first one in list order that is falsy. */
  function FirstMissing(fields: seq<RequiredField>, req: PaymentRequest): (r: Option<RequiredField>)
    ensures r.None? <==> forall i :: 0 <= i < |fields| ==> Supplied(req, fields[i])
    ensures r.Some? ==> exists i :: 0 <= i < |fields| && fields[i] == r.value && !Supplied(req, r.value)
                                    && forall j :: 0 <= j < i ==> Supplied(req, fields[j])
    decreases |fields|
  {
    if fields == [] then None
    else if !Supplied(req, fields[0]) then Some(fields[0])
    else
      var rest := FirstMissing(fields[1..], req);
      if rest.Some? then
        ghost var i :| 0 <= i < |fields[1..]| && fields[1..][i] == rest.value && !Supplied(req, rest.value)
                       && forall j :: 0 <= j < i ==> Supplied(req, fields[1..][j]);
        assert fields[i + 1] == rest.value;
        rest
      else rest
  }

  /** The `for (const field of requiredFields)` loop with its early return. */
  method FindMissingField(fields: seq<RequiredField>, req: PaymentRequest) returns (missing: Option<RequiredField>)
    ensures missing == FirstMissing(fields, req)
  {
    for i := 0 to |fields|
      invariant FirstMissing(fields, req) == FirstMissing(fields[i..], req)
    {
      assert fields[i..][1..] == fields[i + 1..];
      if !Supplied(req, fields[i]) {
        return Some(fields[i]);
      }
    }
    assert fields[|fields|..] == [];
    return None;
  }

  /** `!Number.isFinite(amountNum) || amountNum < 0` rejects the amount. */
  predicate AmountAccepted(parsed: Num) {
    parsed.Finite? && parsed.v >= 0
  }

  datatype CreateReply =
    | MissingField(field: RequiredField)   // 400
    | InvalidAmount                        // 400
    | DbError                              // 500
    | Created(transactionId: nat, reference: string, customerId: nat)   // 200

  function HttpStatus(r: CreateReply): nat {
    match r
    case MissingField(_) => 400
    case InvalidAmount => 400
    case DbError => 500
    case Created(_, _, _) => 200
  }

  datatype CreateOutcome = CreateOutcome(tables: Tables, reply: CreateReply)

  /** The statements of the database phase are numbered 0 (customer upsert,
      with its id lookup), 1 (transaction INSERT) and 2 (COMMIT). */
  predicate CreateRaises(fault: Option<nat>) {
    fault == Some(0) || fault == Some(1) || fault == Some(2)
  }

  predicate IsCorporate(req: PaymentRequest) {
    req.customerType == Some("corporate")
  }

  /** The columns each route writes to its corporate table. */
  function CorporateInfo(sys: System, req: PaymentRequest): CustomerInfo {
    match sys
    case Fti => CustomerInfo(req.companyName, None, None, req.memberId, req.phone, req.email, req.address, None, None, None)
    case Gs1 => CustomerInfo(req.companyName, req.firstName, req.lastName, req.memberId, req.phone, req.email,
                             req.address, req.contactPersonName, None, None)
  }

  /** The columns each route writes to its personal table. */
  function PersonalInfo(sys: System, req: PaymentRequest): CustomerInfo {
    match sys
    case Fti => CustomerInfo(None, req.firstName, req.lastName, req.memberId, req.phone, req.email, req.address, None, None, None)
    case Gs1 => CustomerInfo(None, req.firstName, req.lastName, req.memberId, req.phone, req.email,
                             req.address, None, req.contactFirstName, req.contactLastName)
  }

  /** The first customer row holding `tax_id`. */
  function FindByTaxId(rows: seq<Customer>, taxId: string): (r: Option<nat>)
    ensures r.None? <==> forall i :: 0 <= i < |rows| ==> rows[i].taxId != Some(taxId)
    ensures r.Some? ==> r.value < |rows| && rows[r.value].taxId == Some(taxId)
    decreases |rows|
  {
    if rows == [] then None
    else if rows[0].taxId == Some(taxId) then Some(0)
    else
      var rest := FindByTaxId(rows[1..], taxId);
      if rest.Some? then Some(rest.value + 1) else None
  }

  datatype Upserted = Upserted(rows: seq<Customer>, id: nat)

  /** `INSERT ... ON DUPLICATE KEY UPDATE` keyed by `tax_id` (a null key never
      collides), followed by the id lookup when the row already existed. */
  function Upsert(rows: seq<Customer>, taxId: Option<string>, info: CustomerInfo): (u: Upserted)
    requires CustomerIds(rows)
    ensures CustomerIds(u.rows) && |rows| <= |u.rows|
    ensures 1 <= u.id <= |u.rows|
    ensures u.rows[u.id - 1].taxId == taxId && u.rows[u.id - 1].info == info
    // an existing row with this key is updated in place and its id reused
    ensures taxId.Some? && (exists i :: 0 <= i < |rows| && rows[i].taxId == taxId) ==>
      && |u.rows| == |rows|
      && rows[u.id - 1].taxId == taxId
      && u.rows[u.id - 1] == rows[u.id - 1].(info := info)
      && forall i :: 0 <= i < |rows| && i != u.id - 1 ==> u.rows[i] == rows[i]
    // otherwise exactly one row is appended
    ensures taxId.None? || (forall i :: 0 <= i < |rows| ==> rows[i].taxId != taxId) ==>
      u.rows == rows + [Customer(|rows| + 1, taxId, info)]
  {
    var found := if taxId.Some? then FindByTaxId(rows, taxId.value) else None;
    if found.Some? then
      var k := found.value;
      Upserted(rows[k := rows[k].(info := info)], k + 1)
    else
      Upserted(rows + [Customer(|rows| + 1, taxId, info)], |rows| + 1)
  }

  /** The upsert keeps the UNIQUE key: afterwards the returned row is the only
      one holding a non-null tax id. */
  lemma UpsertKeepsTaxIdsUnique(rows: seq<Customer>, taxId: Option<string>, info: CustomerInfo)
    requires CustomerIds(rows) && TaxIdsUnique(rows)
    ensures var u := Upsert(rows, taxId, info);
      && TaxIdsUnique(u.rows)
      && (taxId.Some? ==> forall i :: 0 <= i < |u.rows| && u.rows[i].taxId == taxId ==> i == u.id - 1)
  {
    var u := Upsert(rows, taxId, info);
    assert forall i :: 0 <= i < |rows| ==> u.rows[i].taxId == rows[i].taxId;
  }

  /** `TXN-<Date.now()>-<random>` or `GS1-TXN-<Date.now()>-<random>`. */
  function ReferencePrefix(sys: System): string {
    match sys
    case Fti => "TXN-"
    case Gs1 => "GS1-TXN-"
  }

  /** The transaction row an accepted request inserts, pending and linked to
      the customer row `customerId` of the table its type selects. */
  function NewTx(sys: System, id: nat, req: PaymentRequest, amount: int, stamp: string, random: string,
                 now: int, customerId: nat): (tx: TxRow)
    requires Filled(req.invoiceNumber)
    ensures tx.id == id && tx.status == Pending && Some(tx.invoice) == req.invoiceNumber
    ensures StartsWith(tx.reference, ReferencePrefix(sys))
    // the foreign key of the customer's type names `customerId`; the other is null
    ensures tx.corporateId == (if IsCorporate(req) then Some(customerId) else None)
    ensures tx.personalId == (if req.customerType == Some("personal") then Some(customerId) else None)
    // only the GS1 table keeps the page's original invoice number
    ensures tx.originalInvoice == (if sys == Gs1 then req.originalInvoiceNumber else None)
  {
    var reference := ReferencePrefix(sys) + stamp + "-" + random;
    assert reference[..|ReferencePrefix(sys)|] == ReferencePrefix(sys);
    TxRow(
      id,
      reference,
      req.invoiceNumber.value,
      if sys == Gs1 then req.originalInvoiceNumber else None,
      req.customerType,
      if IsCorporate(req) then Some(customerId) else None,
      if req.customerType == Some("personal") then Some(customerId) else None,
      req.othersReference,
      req.serviceOrProduct,
      amount,
      None,
      Pending,
      now,
      now)
  }

  /** A failing statement of the database phase rolls everything back. */
  lemma RaisedCreateRollsBack(sys: System, t: Tables, req: PaymentRequest, parsed: Num, stamp: string,
                              random: string, now: int, fault: Option<nat>)
    requires WellFormed(t)
    requires FirstMissing(RequiredFields(sys), req).None? && AmountAccepted(parsed) && CreateRaises(fault)
    ensures Create(sys, t, req, parsed, stamp, random, now, fault) == CreateOutcome(t, DbError)
  {
  }

  /** An accepted request without fault commits one upsert into the table its
      customer type selects and one transaction row linked to the upserted id. */
  lemma AcceptedWrites(sys: System, t: Tables, req: PaymentRequest, parsed: Num, stamp: string, random: string,
                       now: int, fault: Option<nat>)
    requires WellFormed(t)
    requires FirstMissing(RequiredFields(sys), req).None? && AmountAccepted(parsed) && !CreateRaises(fault)
    ensures Filled(req.invoiceNumber)
    ensures var u := if IsCorporate(req) then Upsert(t.corporate, req.taxId, CorporateInfo(sys, req))
                     else Upsert(t.personal, req.taxId, PersonalInfo(sys, req));
      var tx := NewTx(sys, |t.transactions| + 1, req, parsed.v, stamp, random, now, u.id);
      Create(sys, t, req, parsed, stamp, random, now, fault) ==
        CreateOutcome(Tables(if IsCorporate(req) then u.rows else t.corporate,
                             if IsCorporate(req) then t.personal else u.rows,
                             t.transactions + [tx], t.details, t.audit),
                      Created(tx.id, tx.reference, u.id))
  {
    assert Supplied(req, RequiredFields(sys)[0]);
  }

  /** The committed writes of an accepted request. */
  function Inserted(sys: System, t: Tables, req: PaymentRequest, amount: int, stamp: string, random: string, now: int): (o: CreateOutcome)
    requires CustomerIds(t.corporate) && CustomerIds(t.personal)
    requires Filled(req.invoiceNumber)
    ensures o.reply.Created?
    // a created request adds exactly one pending transaction and touches no detail or audit row
    ensures
      && o.tables.details == t.details && o.tables.audit == t.audit
      && |o.tables.transactions| == |t.transactions| + 1
      && o.tables.transactions[..|t.transactions|] == t.transactions
      && var tx := o.tables.transactions[|t.transactions|];
         && tx.status == Pending
         && tx.id == o.reply.transactionId
         && tx.reference == o.reply.reference
         && StartsWith(tx.reference, ReferencePrefix(sys))
         && Some(tx.invoice) == req.invoiceNumber
         && tx.totalAmount == amount
         && tx.corporateId == (if IsCorporate(req) then Some(o.reply.customerId) else None)
         && tx.personalId == (if req.customerType == Some("personal") then Some(o.reply.customerId) else None)
         && tx.originalInvoice == (if sys == Gs1 then req.originalInvoiceNumber else None)
    // the customer goes to the corporate table exactly for "corporate", else to the personal one,
    // and the returned id names the row keyed by the request's tax id
    ensures IsCorporate(req) ==>
      && o.tables.personal == t.personal
      && 1 <= o.reply.customerId <= |o.tables.corporate|
      && o.tables.corporate[o.reply.customerId - 1].taxId == req.taxId
      && o.tables.corporate[o.reply.customerId - 1].info == CorporateInfo(sys, req)
    ensures !IsCorporate(req) ==>
      && o.tables.corporate == t.corporate
      && 1 <= o.reply.customerId <= |o.tables.personal|
      && o.tables.personal[o.reply.customerId - 1].taxId == req.taxId
      && o.tables.personal[o.reply.customerId - 1].info == PersonalInfo(sys, req)
  {
    var corporate := IsCorporate(req);
    var u := if corporate then Upsert(t.corporate, req.taxId, CorporateInfo(sys, req))
             else Upsert(t.personal, req.taxId, PersonalInfo(sys, req));
    var tx := NewTx(sys, |t.transactions| + 1, req, amount, stamp, random, now, u.id);
    var corporateRows := if corporate then u.rows else t.corporate;
    var personalRows := if corporate then t.personal else u.rows;
    CreateOutcome(t.(corporate := corporateRows, personal := personalRows, transactions := t.transactions + [tx]),
                  Created(tx.id, tx.reference, u.id))
  }

  /** The committed writes keep every key sequential and every foreign key valid. */
  lemma InsertedKeepsWellFormed(sys: System, t: Tables, req: PaymentRequest, amount: int, stamp: string,
                                random: string, now: int)
    requires WellFormed(t) && Filled(req.invoiceNumber)
    ensures WellFormed(Inserted(sys, t, req, amount, stamp, random, now).tables)
  {
    var u := if IsCorporate(req) then Upsert(t.corporate, req.taxId, CorporateInfo(sys, req))
             else Upsert(t.personal, req.taxId, PersonalInfo(sys, req));
    var tx := NewTx(sys, |t.transactions| + 1, req, amount, stamp, random, now, u.id);
    if IsCorporate(req) {
      UpsertKeepsTaxIdsUnique(t.corporate, req.taxId, CorporateInfo(sys, req));
    } else {
      UpsertKeepsTaxIdsUnique(t.personal, req.taxId, PersonalInfo(sys, req));
    }
    InsertKeepsWellFormed(t, if IsCorporate(req) then u.rows else t.corporate,
                          if IsCorporate(req) then t.personal else u.rows, tx);
  }

  /** One create request: what the tables hold after commit or rollback, and the reply. */
  function Create(sys: System, t: Tables, req: PaymentRequest, parsed: Num, stamp: string, random: string,
                  now: int, fault: Option<nat>): (o: CreateOutcome)
    requires WellFormed(t)
    // only an accepted, committed request changes anything
    ensures !o.reply.Created? ==> o.tables == t
    ensures o.reply == InvalidAmount <==> FirstMissing(RequiredFields(sys), req).None? && !AmountAccepted(parsed)
    ensures o.reply.MissingField? <==> FirstMissing(RequiredFields(sys), req).Some?
    // the 400 names the first falsy field in the route's list
    ensures o.reply.MissingField? ==> FirstMissing(RequiredFields(sys), req) == Some(o.reply.field)
    ensures o.reply == DbError <==>
      FirstMissing(RequiredFields(sys), req).None? && AmountAccepted(parsed) && CreateRaises(fault)
    // an accepted request without fault commits exactly the writes of `Inserted`
    ensures o.reply.Created? <==>
      FirstMissing(RequiredFields(sys), req).None? && AmountAccepted(parsed) && !CreateRaises(fault)
    ensures o.reply.Created? ==> Filled(req.invoiceNumber) && o == Inserted(sys, t, req, parsed.v, stamp, random, now)
    ensures WellFormed(o.tables)
  {
    var missing := FirstMissing(RequiredFields(sys), req);
    if missing.Some? then CreateOutcome(t, MissingField(missing.value))
    else if !AmountAccepted(parsed) then CreateOutcome(t, InvalidAmount)
    else if CreateRaises(fault) then CreateOutcome(t, DbError)
    else
      assert Supplied(req, RequiredFields(sys)[0]);
      InsertedKeepsWellFormed(sys, t, req, parsed.v, stamp, random, now);
      Inserted(sys, t, req, parsed.v, stamp, random, now)
  }

  /** A numeric `total_amount` of 0 is falsy, so it is reported as a missing field
      rather than accepted as a zero amount. */
  lemma ZeroAmountReportedMissing(sys: System, t: Tables, req: PaymentRequest, parsed: Num, stamp: string,
                                  random: string, now: int, fault: Option<nat>)
    requires WellFormed(t)
    requires Filled(req.invoiceNumber) && Filled(req.address) && Filled(req.serviceOrProduct)
    requires req.totalAmount == AmountNumber(Finite(0))
    ensures Create(sys, t, req, parsed, stamp, random, now, fault) == CreateOutcome(t, MissingField(TotalAmount))
  {
    var fs := RequiredFields(sys);
    var m := FirstMissing(fs, req);
    assert !Supplied(req, TotalAmount);
    assert m.Some?;
    var i :| 0 <= i < |fs| && fs[i] == m.value && !Supplied(req, m.value)
             && forall j :: 0 <= j < i ==> Supplied(req, fs[j]);
  }

  /** The GS1 route needs only the invoice number and the amount: address and
      service may be absent. */
  lemma Gs1NeedsOnlyInvoiceAndAmount(req: PaymentRequest)
    ensures FirstMissing(RequiredFields(Gs1), req).None? <==>
      Filled(req.invoiceNumber) && AmountTruthy(req.totalAmount)
  {
    var fs := RequiredFields(Gs1);
    assert fs[0] == InvoiceNumber && fs[1] == TotalAmount;
  }
}
