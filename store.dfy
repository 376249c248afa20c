/** The payment record store: customer, transaction, payment-detail and audit
    tables of one database (the FTI tables or the GS1 tables), the invoice
    matching rules, and the guarded status UPDATE. */
module Store {
  import opened Common

  /** `payment_status` of a transaction row. */
  datatype Status = Pending | Completed | Failed

  /** The columns of a customer row other than `id` and `tax_id`. A column the
      table does not have, or that the request left null, is `None`. */
  datatype CustomerInfo = CustomerInfo(
    companyName: Option<string>,
    firstName: Option<string>,
    lastName: Option<string>,
    memberId: Option<string>,
    phone: Option<string>,
    email: Option<string>,
    address: Option<string>,
    contactPersonName: Option<string>,
    contactFirstName: Option<string>,
    contactLastName: Option<string>)

  /** A corporate or personal customer row; `tax_id` is the unique key. */
  datatype Customer = Customer(id: nat, taxId: Option<string>, info: CustomerInfo)

  /** A transaction row. `totalAmount` is the validated amount, kept abstract. */
  datatype TxRow = TxRow(
    id: nat,
    reference: string,
    invoice: string,
    originalInvoice: Option<string>,
    customerType: Option<string>,
    corporateId: Option<nat>,
    personalId: Option<nat>,
    othersReference: Option<string>,
    serviceOrProduct: Option<string>,
    totalAmount: int,
    currency: Option<string>,
    status: Status,
    createdAt: int,
    updatedAt: int)

  /** The `gateway_response` column as the inquiry reads it back: empty, text
      that `JSON.parse` rejects, or a JSON object of text fields. */
  datatype GatewayColumn = NoResponse | Unparsable | Parsed(fields: map<string, string>)

  /** A payment-detail row: one per reconciliation event. */
  datatype DetailRow = DetailRow(
    id: nat,
    txId: nat,
    paymentMethod: string,
    reference: Option<string>,
    paymentDate: string,
    amount: Option<int>,
    status: Status,
    gateway: GatewayColumn,
    createdAt: int)

  /** An audit-log row. */
  datatype AuditRow = AuditRow(
    action: string,
    invoiceNo: string,
    respCode: Option<string>,
    respDesc: Option<string>,
    userId: string)

  /** The whole database state of one system. */
  datatype Tables = Tables(
    corporate: seq<Customer>,
    personal: seq<Customer>,
    transactions: seq<TxRow>,
    details: seq<DetailRow>,
    audit: seq<AuditRow>)

  const Empty := Tables([], [], [], [], [])

  /** Auto-increment keys: no row is ever deleted, so the row at position i has id i + 1. */
  ghost predicate CustomerIds(rows: seq<Customer>) {
    forall i :: 0 <= i < |rows| ==> rows[i].id == i + 1
  }

  ghost predicate TxIds(rows: seq<TxRow>) {
    forall i :: 0 <= i < |rows| ==> rows[i].id == i + 1
  }

  ghost predicate DetailIds(rows: seq<DetailRow>) {
    forall i :: 0 <= i < |rows| ==> rows[i].id == i + 1
  }

  /** The UNIQUE key on `tax_id`: two rows never share a non-null tax id. */
  ghost predicate TaxIdsUnique(rows: seq<Customer>) {
    forall i, j :: 0 <= i < j < |rows| && rows[i].taxId.Some? ==> rows[i].taxId != rows[j].taxId
  }

  /** A customer table: sequential keys and a unique tax id. */
  ghost predicate CustomerTable(rows: seq<Customer>) {
    CustomerIds(rows) && TaxIdsUnique(rows)
  }

  /** Keys are sequential, tax ids are unique and every foreign key names an existing row. */
  ghost predicate WellFormed(t: Tables) {
    && CustomerTable(t.corporate)
    && CustomerTable(t.personal)
    && TxIds(t.transactions)
    && DetailIds(t.details)
    && (forall i :: 0 <= i < |t.details| ==> 1 <= t.details[i].txId <= |t.transactions|)
    && (forall i :: 0 <= i < |t.transactions| && t.transactions[i].corporateId.Some? ==>
          1 <= t.transactions[i].corporateId.value <= |t.corporate|)
    && (forall i :: 0 <= i < |t.transactions| && t.transactions[i].personalId.Some? ==>
          1 <= t.transactions[i].personalId.value <= |t.personal|)
  }

  /** Inserting one transaction, after the customer tables grew or were updated
      in place, keeps the keys sequential and the foreign keys valid. */
  lemma {:induction false} InsertKeepsWellFormed(t: Tables, corporate: seq<Customer>, personal: seq<Customer>, tx: TxRow)
    requires WellFormed(t) && CustomerTable(corporate) && CustomerTable(personal)
    requires |t.corporate| <= |corporate| && |t.personal| <= |personal|
    requires tx.id == |t.transactions| + 1
    requires tx.corporateId.Some? ==> 1 <= tx.corporateId.value <= |corporate|
    requires tx.personalId.Some? ==> 1 <= tx.personalId.value <= |personal|
    ensures WellFormed(t.(corporate := corporate, personal := personal, transactions := t.transactions + [tx]))
  {
    var rows := t.transactions + [tx];
    assert forall i :: 0 <= i < |t.transactions| ==> rows[i] == t.transactions[i];
  }

  /** How a callback's `invoiceNo` selects transaction rows: `invoice_number = ?`
      or `invoice_number LIKE '<invoiceNo>-%'`. */
  datatype MatchPolicy = Exact | Prefix

  predicate Matches(policy: MatchPolicy, invoice: string, invoiceNo: string) {
    match policy
    case Exact => invoice == invoiceNo
    case Prefix => StartsWith(invoice, invoiceNo + "-")
  }

  predicate AnyMatch(rows: seq<TxRow>, policy: MatchPolicy, invoiceNo: string) {
    exists i :: 0 <= i < |rows| && Matches(policy, rows[i].invoice, invoiceNo)
  }

  /** The status a callback asks for: completed exactly on gateway code "0000". */
  function TargetStatus(respCode: Option<string>): (s: Status)
    ensures s == Completed <==> respCode == Some("0000")
    ensures s != Pending
  {
    if respCode == Some("0000") then Completed else Failed
  }

  /** One row under `SET payment_status = ?, updated_at = now
      WHERE <match> AND payment_status = 'pending'`. */
  function Settle(row: TxRow, policy: MatchPolicy, invoiceNo: string, target: Status, now: int): TxRow {
    if Matches(policy, row.invoice, invoiceNo) && row.status == Pending
    then row.(status := target, updatedAt := now)
    else row
  }

  /** The guarded UPDATE over the whole transaction table. */
  function SettleAll(rows: seq<TxRow>, policy: MatchPolicy, invoiceNo: string, target: Status, now: int): (r: seq<TxRow>)
    ensures |r| == |rows|
    ensures forall i :: 0 <= i < |r| ==>
      r[i].id == rows[i].id && r[i].invoice == rows[i].invoice
      && r[i].corporateId == rows[i].corporateId && r[i].personalId == rows[i].personalId
    ensures forall i :: 0 <= i < |r| && Matches(policy, rows[i].invoice, invoiceNo) && rows[i].status == Pending ==>
      r[i] == rows[i].(status := target, updatedAt := now)
    ensures forall i :: 0 <= i < |r| && !(Matches(policy, rows[i].invoice, invoiceNo) && rows[i].status == Pending) ==>
      r[i] == rows[i]
  {
    seq(|rows|, i requires 0 <= i < |rows| => Settle(rows[i], policy, invoiceNo, target, now))
  }

  /** `SELECT id ... WHERE <match> ORDER BY updated_at DESC LIMIT 1`, as a row
      position. SQL leaves ties unordered; the model picks the earliest such row. */
  function LatestMatch(rows: seq<TxRow>, policy: MatchPolicy, invoiceNo: string): (r: Option<nat>)
    ensures r.None? <==> !AnyMatch(rows, policy, invoiceNo)
    ensures r.Some? ==> r.value < |rows| && Matches(policy, rows[r.value].invoice, invoiceNo)
    ensures r.Some? ==> forall j :: 0 <= j < |rows| && Matches(policy, rows[j].invoice, invoiceNo) ==>
      rows[j].updatedAt <= rows[r.value].updatedAt
    ensures r.Some? ==> forall j :: 0 <= j < r.value && Matches(policy, rows[j].invoice, invoiceNo) ==>
      rows[j].updatedAt < rows[r.value].updatedAt
    decreases |rows|
  {
    if rows == [] then None
    else
      var k := |rows| - 1;
      var earlier := LatestMatch(rows[..k], policy, invoiceNo);
      if Matches(policy, rows[k].invoice, invoiceNo)
         && (earlier.None? || rows[earlier.value].updatedAt < rows[k].updatedAt)
      then Some(k)
      else earlier
  }
}
