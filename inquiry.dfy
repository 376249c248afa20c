/** The read-only status inquiry of both systems: one transaction row chosen by
    exact invoice number, joined to its most recent payment-detail row, and
    reported in the gateway's own vocabulary. */
module Inquiry {
  import opened Common
  import opened Store

  /** The gateway-style code for a stored status. */
  function RespCode(s: Status): (c: string)
    ensures c == "0000" <==> s == Completed
    ensures c == "2001" <==> s == Pending
  {
    match s
    case Completed => "0000"
    case Pending => "2001"
    case Failed => "2003"
  }

  /** The description that goes with `RespCode(s)`. */
  function RespDesc(s: Status): (d: string)
    ensures d == "Success" <==> s == Completed
    ensures d == "Transaction in progress" <==> s == Pending
    ensures d == "Payment Failed" <==> s == Failed
  {
    match s
    case Completed => "Success"
    case Pending => "Transaction in progress"
    case Failed => "Payment Failed"
  }

  /** Reading a reported code back: an independent inverse of `RespCode`. */
  function StatusOfRespCode(c: string): Option<Status> {
    if c == "0000" then Some(Completed)
    else if c == "2001" then Some(Pending)
    else if c == "2003" then Some(Failed)
    else None
  }

  /** The code mapping loses nothing: every status is recovered from its code,
      and only the three codes are ever reported. */
  lemma RespCodeRoundTrip(s: Status, c: string)
    ensures StatusOfRespCode(RespCode(s)) == Some(s)
    ensures StatusOfRespCode(c).Some? ==> RespCode(StatusOfRespCode(c).value) == c
  {
  }

  /** `t.id = pd.transaction_id AND t.invoice_number = ?` */
  predicate Joins(tx: TxRow, d: DetailRow, invoiceNo: string) {
    tx.invoice == invoiceNo && d.txId == tx.id
  }

  predicate Linked(txs: seq<TxRow>, d: DetailRow, invoiceNo: string) {
    exists i :: 0 <= i < |txs| && Joins(txs[i], d, invoiceNo)
  }

  /** The first transaction a detail row joins to. */
  function JoinedTx(txs: seq<TxRow>, d: DetailRow, invoiceNo: string): (r: Option<nat>)
    ensures r.None? <==> !Linked(txs, d, invoiceNo)
    ensures r.Some? ==> r.value < |txs| && Joins(txs[r.value], d, invoiceNo)
    decreases |txs|
  {
    if txs == [] then None
    else if Joins(txs[0], d, invoiceNo) then Some(0)
    else
      var r := JoinedTx(txs[1..], d, invoiceNo);
      assert forall i :: 1 <= i < |txs| ==> txs[i] == txs[1..][i - 1];
      if r.None? then None else Some(r.value + 1)
  }

  predicate AnyExact(txs: seq<TxRow>, invoiceNo: string) {
    exists i :: 0 <= i < |txs| && txs[i].invoice == invoiceNo
  }

  /** The first transaction with exactly this invoice number. */
  function FirstExact(txs: seq<TxRow>, invoiceNo: string): (r: Option<nat>)
    ensures r.None? <==> !AnyExact(txs, invoiceNo)
    ensures r.Some? ==> r.value < |txs| && txs[r.value].invoice == invoiceNo
    decreases |txs|
  {
    if txs == [] then None
    else if txs[0].invoice == invoiceNo then Some(0)
    else
      var r := FirstExact(txs[1..], invoiceNo);
      assert forall i :: 1 <= i < |txs| ==> txs[i] == txs[1..][i - 1];
      if r.None? then None else Some(r.value + 1)
  }

  /** `ORDER BY pd.created_at DESC LIMIT 1` over the joined detail rows, as a
      position in the detail table. SQL leaves ties unordered; the model picks
      the earliest such row. */
  function LatestDetail(txs: seq<TxRow>, details: seq<DetailRow>, invoiceNo: string): (r: Option<nat>)
    ensures r.None? <==> forall j :: 0 <= j < |details| ==> !Linked(txs, details[j], invoiceNo)
    ensures r.Some? ==> r.value < |details| && Linked(txs, details[r.value], invoiceNo)
    ensures r.Some? ==> forall j :: 0 <= j < |details| && Linked(txs, details[j], invoiceNo) ==>
      details[j].createdAt <= details[r.value].createdAt
    decreases |details|
  {
    if details == [] then None
    else
      var k := |details| - 1;
      var earlier := LatestDetail(txs, details[..k], invoiceNo);
      assert forall j :: 0 <= j < k ==> details[..k][j] == details[j];
      if Linked(txs, details[k], invoiceNo)
         && (earlier.None? || details[earlier.value].createdAt < details[k].createdAt)
      then Some(k)
      else earlier
  }

  /** `transaction.transactionDateTime || transaction.updated_at`: the detail's
      payment date as text, or the row's own timestamp. */
  datatype ReportedTime = PaymentDate(text: string) | LastUpdate(at: int)

  /** The `data` object of a 200 reply. */
  datatype InquiryData = InquiryData(
    invoiceNo: string,
    amount: int,
    currencyCode: string,
    tranRef: string,
    referenceNo: string,
    approvalCode: string,
    transactionDateTime: ReportedTime,
    respCode: string,
    respDesc: string,
    paymentStatus: Status)

  datatype InquiryReply =
    | InquiryBadRequest          // 400 "Invoice number is required"
    | InquiryNotFound            // 404 "Transaction not found"
    | InquiryOk(data: InquiryData)

  function InquiryHttpStatus(r: InquiryReply): nat {
    match r
    case InquiryBadRequest => 400
    case InquiryNotFound => 404
    case InquiryOk(_) => 200
  }

  /** `gatewayData`: the parsed `gateway_response` of the joined detail, or `{}`
      when there is no detail, the column is empty or the text does not parse. */
  function GatewayData(d: Option<DetailRow>): map<string, string> {
    if d.None? then map[]
    else match d.value.gateway
      case Parsed(m) => m
      case NoResponse => map[]
      case Unparsable => map[]
  }

  /** `gatewayData.key || ''` */
  function FieldOr(m: map<string, string>, key: string): string {
    if key in m then m[key] else ""
  }

  /** `pd.payment_reference`, null when no detail row joined. */
  function DetailReference(d: Option<DetailRow>): Option<string> {
    if d.Some? then d.value.reference else None
  }

  /** The reply body built from the chosen join row. */
  function Report(tx: TxRow, d: Option<DetailRow>): (r: InquiryData)
    ensures r.invoiceNo == tx.invoice && r.paymentStatus == tx.status
    ensures r.respCode == RespCode(tx.status) && r.respDesc == RespDesc(tx.status)
    ensures r.currencyCode == TextOr(tx.currency, "THB")
    // the paid amount, unless missing or zero
    ensures d.Some? && d.value.amount.Some? && d.value.amount.value != 0 ==> r.amount == d.value.amount.value
    ensures d.None? || d.value.amount.None? || d.value.amount.value == 0 ==> r.amount == tx.totalAmount
    // the detail's reference first, then the stored gateway JSON, then ""
    ensures Filled(DetailReference(d)) ==> r.tranRef == DetailReference(d).value
    ensures !Filled(DetailReference(d)) && d.Some? && d.value.gateway.Parsed? && "tranRef" in d.value.gateway.fields ==>
      r.tranRef == d.value.gateway.fields["tranRef"]
    ensures !Filled(DetailReference(d)) && d.Some? && d.value.gateway.Parsed? && "tranRef" !in d.value.gateway.fields ==>
      r.tranRef == ""
    // no detail, an empty column and text that does not parse all read as {}
    ensures d.None? || !d.value.gateway.Parsed? ==>
      r.referenceNo == "" && r.approvalCode == "" && r.tranRef == TextOr(DetailReference(d), "")
    ensures d.Some? && d.value.gateway.Parsed? ==>
      && ("referenceNo" in d.value.gateway.fields ==> r.referenceNo == d.value.gateway.fields["referenceNo"])
      && ("approvalCode" in d.value.gateway.fields ==> r.approvalCode == d.value.gateway.fields["approvalCode"])
      && ("referenceNo" !in d.value.gateway.fields ==> r.referenceNo == "")
      && ("approvalCode" !in d.value.gateway.fields ==> r.approvalCode == "")
    // the payment date, else the row's own timestamp
    ensures r.transactionDateTime.LastUpdate? <==> d.None? || d.value.paymentDate == ""
    ensures r.transactionDateTime.LastUpdate? ==> r.transactionDateTime.at == tx.updatedAt
    ensures r.transactionDateTime.PaymentDate? ==> r.transactionDateTime.text == d.value.paymentDate
  {
    var gw := GatewayData(d);
    var amount := if d.Some? && d.value.amount.Some? && d.value.amount.value != 0
                  then d.value.amount.value else tx.totalAmount;
    var when := if d.Some? && d.value.paymentDate != "" then PaymentDate(d.value.paymentDate)
                else LastUpdate(tx.updatedAt);
    InquiryData(tx.invoice, amount, TextOr(tx.currency, "THB"),
                if Filled(DetailReference(d)) then DetailReference(d).value else FieldOr(gw, "tranRef"),
                FieldOr(gw, "referenceNo"), FieldOr(gw, "approvalCode"),
                when, RespCode(tx.status), RespDesc(tx.status), tx.status)
  }

  /** One inquiry against one system's tables. */
  function Inquire(t: Tables, invoiceNo: Option<string>): (r: InquiryReply)
    ensures r == InquiryBadRequest <==> !Filled(invoiceNo)
    ensures r == InquiryNotFound <==> Filled(invoiceNo) && !AnyExact(t.transactions, invoiceNo.value)
    ensures r.InquiryOk? ==>
      exists i :: 0 <= i < |t.transactions| && t.transactions[i].invoice == invoiceNo.value
        && r.data.paymentStatus == t.transactions[i].status
    ensures r.InquiryOk? ==>
      && r.data.invoiceNo == invoiceNo.value
      && r.data.respCode == RespCode(r.data.paymentStatus)
      && r.data.respDesc == RespDesc(r.data.paymentStatus)
  {
    if !Filled(invoiceNo) then InquiryBadRequest
    else
      var inv := invoiceNo.value;
      var latest := LatestDetail(t.transactions, t.details, inv);
      if latest.Some? then
        var d := t.details[latest.value];
        var i := JoinedTx(t.transactions, d, inv).value;
        InquiryOk(Report(t.transactions[i], Some(d)))
      else
        var first := FirstExact(t.transactions, inv);
        if first.None? then InquiryNotFound
        else InquiryOk(Report(t.transactions[first.value], None))
  }

  /** Once the newest joined detail and its row are known, the reply is the
      report built from them. */
  lemma InquireReportsJoin(t: Tables, invoiceNo: string, k: nat, i: nat)
    requires invoiceNo != ""
    requires LatestDetail(t.transactions, t.details, invoiceNo) == Some(k)
    requires JoinedTx(t.transactions, t.details[k], invoiceNo) == Some(i)
    ensures Inquire(t, Some(invoiceNo)) == InquiryOk(Report(t.transactions[i], Some(t.details[k])))
  {
  }

  /** The reported row is the one whose payment detail is the most recent: when
      any detail joins, the report carries the newest one's date and reference. */
  lemma ReportsNewestDetail(t: Tables, invoiceNo: string, j: nat)
    requires invoiceNo != ""
    requires j < |t.details| && Linked(t.transactions, t.details[j], invoiceNo)
    ensures var r := Inquire(t, Some(invoiceNo));
      var k := LatestDetail(t.transactions, t.details, invoiceNo);
      && r.InquiryOk?
      && k.Some?
      && t.details[j].createdAt <= t.details[k.value].createdAt
      && r.data == Report(t.transactions[JoinedTx(t.transactions, t.details[k.value], invoiceNo).value],
                          Some(t.details[k.value]))
  {
    var i :| 0 <= i < |t.transactions| && Joins(t.transactions[i], t.details[j], invoiceNo);
    assert t.transactions[i].invoice == invoiceNo;
  }
}
