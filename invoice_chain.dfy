/** The life of one payment across the routes: the page stores a transaction,
    the token route names the invoice the gateway will echo, the callback
    settles the matching row and the inquiry reports it. */
module InvoiceChain {
  import opened Common
  import opened Store
  import opened Reconcile
  import Creation
  import Token
  import Inquiry
  import Gs1Page

  /** The clock has moved past every stored timestamp. */
  predicate ClockPast(t: Tables, now: int) {
    && (forall i :: 0 <= i < |t.transactions| ==> t.transactions[i].updatedAt < now)
    && (forall j :: 0 <= j < |t.details| ==> t.details[j].createdAt < now)
  }

  /** A detail row newer than every other is the one the inquiry joins. */
  lemma NewestLinkedDetailIsLatest(txs: seq<TxRow>, details: seq<DetailRow>, invoiceNo: string)
    requires |details| > 0 && Inquiry.Linked(txs, details[|details| - 1], invoiceNo)
    requires forall j :: 0 <= j < |details| - 1 ==> details[j].createdAt < details[|details| - 1].createdAt
    ensures Inquiry.LatestDetail(txs, details, invoiceNo) == Some(|details| - 1)
  {
    var k := |details| - 1;
    var earlier := Inquiry.LatestDetail(txs, details[..k], invoiceNo);
    if earlier.Some? {
      assert details[..k][earlier.value] == details[earlier.value];
    }
  }

  /** With sequential keys, a detail joins the row its key names. */
  lemma JoinedTxIsKeyedRow(txs: seq<TxRow>, d: DetailRow, invoiceNo: string)
    requires TxIds(txs) && 1 <= d.txId <= |txs| && txs[d.txId - 1].invoice == invoiceNo
    ensures Inquiry.JoinedTx(txs, d, invoiceNo) == Some(d.txId - 1)
  {
    assert Inquiry.Joins(txs[d.txId - 1], d, invoiceNo);
    var i := Inquiry.JoinedTx(txs, d, invoiceNo).value;
    assert txs[i].id == i + 1;
  }

  /** An inquiry reports the keyed row of a detail row newer than all others. */
  lemma InquiryReportsNewestDetail(t: Tables, invoiceNo: string)
    requires TxIds(t.transactions) && |t.details| > 0 && invoiceNo != ""
    requires var d := t.details[|t.details| - 1];
      1 <= d.txId <= |t.transactions| && t.transactions[d.txId - 1].invoice == invoiceNo
    requires forall j :: 0 <= j < |t.details| - 1 ==> t.details[j].createdAt < t.details[|t.details| - 1].createdAt
    ensures var d := t.details[|t.details| - 1];
      Inquiry.Inquire(t, Some(invoiceNo)) == Inquiry.InquiryOk(Inquiry.Report(t.transactions[d.txId - 1], Some(d)))
  {
    var d := t.details[|t.details| - 1];
    assert Inquiry.Joins(t.transactions[d.txId - 1], d, invoiceNo);
    NewestLinkedDetailIsLatest(t.transactions, t.details, invoiceNo);
    JoinedTxIsKeyedRow(t.transactions, d, invoiceNo);
    Inquiry.InquireReportsJoin(t, invoiceNo, |t.details| - 1, d.txId - 1);
  }

  /** What the inquiry reports from a callback's detail row: the row's status,
      and the callback's `tranRef`, `referenceNo` and `approvalCode` read back
      from the stored snapshot. */
  lemma ReportOfCallbackDetail(tx: TxRow, id: nat, p: CallbackPayload, now: int, nowText: string)
    ensures var r := Inquiry.Report(tx, Some(NewDetail(id, tx.id, p, tx.status, now, nowText)));
      && r.paymentStatus == tx.status
      && r.tranRef == TextOr(p.tranRef, "")
      && r.referenceNo == TextOr(p.referenceNo, "")
      && r.approvalCode == TextOr(p.approvalCode, "")
  {
  }

  /** After the committed writes of an exact-match delivery that found a
      pending row, the inquiry for the same invoice reports the settled status
      and the delivery's transaction reference. */
  lemma InquiryReportsSettledRow(t: Tables, p: CallbackPayload, now: int, nowText: string)
    requires TxIds(t.transactions) && ClockPast(t, now) && p.invoiceNo != ""
    requires exists i :: 0 <= i < |t.transactions| && PendingMatch(Exact, t.transactions[i], p.invoiceNo)
    ensures AnyMatch(t.transactions, Exact, p.invoiceNo)
    ensures var r := Inquiry.Inquire(Applied(t, Exact, p, now, nowText), Some(p.invoiceNo));
      && r.InquiryOk?
      && r.data.paymentStatus == TargetStatus(p.respCode)
      && (r.data.respCode == "0000" <==> p.respCode == Some("0000"))
      && r.data.tranRef == TextOr(p.tranRef, "")
      && r.data.referenceNo == TextOr(p.referenceNo, "")
      && r.data.approvalCode == TextOr(p.approvalCode, "")
  {
    var i :| 0 <= i < |t.transactions| && PendingMatch(Exact, t.transactions[i], p.invoiceNo);
    var a := Applied(t, Exact, p, now, nowText);
    var k := AppliedDetailIsCallbacks(t, p, now, nowText, i, a);
    InquiryReportsCallbackDetail(a, |t.details|, k, p, now, nowText);
  }

  /** The newest of `n + 1` detail rows is the callback's, linked to the row
      at position `k`, which holds the callback's invoice; every earlier
      detail is older than the clock. */
  ghost predicate NewestDetailIsCallbacks(a: Tables, n: nat, k: nat, p: CallbackPayload, now: int, nowText: string) {
    && TxIds(a.transactions) && |a.details| == n + 1 && k < |a.transactions|
    && a.transactions[k].invoice == p.invoiceNo
    && a.details[n] == NewDetail(n + 1, k + 1, p, a.transactions[k].status, now, nowText)
    && (forall j :: 0 <= j < n ==> a.details[j].createdAt < now)
  }

  /** The committed writes of an exact-match delivery that found a pending row
      append the callback's detail as the newest, linked to the settled row
      with the callback's invoice. */
  lemma AppliedDetailIsCallbacks(t: Tables, p: CallbackPayload, now: int, nowText: string, i: nat, a: Tables)
    returns (k: nat)
    requires TxIds(t.transactions) && ClockPast(t, now)
    requires i < |t.transactions| && PendingMatch(Exact, t.transactions[i], p.invoiceNo)
    requires a == Applied(t, Exact, p, now, nowText)
    ensures NewestDetailIsCallbacks(a, |t.details|, k, p, now, nowText)
    ensures a.transactions[k].status == TargetStatus(p.respCode)
  {
    DetailLinksSettledRow(t, Exact, p, now, nowText);
    DetailLinksLatestMatch(t, Exact, p, now, nowText);
    AppliedKeepsHistory(t, Exact, p, now, nowText);
    k := a.details[|t.details|].txId - 1;
  }

  /** When the newest detail row is a callback's, linked to a row with the
      callback's invoice that holds the callback's target status, the inquiry
      reports that status and the callback's references. */
  lemma InquiryReportsCallbackDetail(a: Tables, n: nat, k: nat, p: CallbackPayload, now: int, nowText: string)
    requires NewestDetailIsCallbacks(a, n, k, p, now, nowText) && p.invoiceNo != ""
    requires a.transactions[k].status == TargetStatus(p.respCode)
    ensures var r := Inquiry.Inquire(a, Some(p.invoiceNo));
      && r.InquiryOk?
      && r.data.paymentStatus == TargetStatus(p.respCode)
      && (r.data.respCode == "0000" <==> p.respCode == Some("0000"))
      && r.data.tranRef == TextOr(p.tranRef, "")
      && r.data.referenceNo == TextOr(p.referenceNo, "")
      && r.data.approvalCode == TextOr(p.approvalCode, "")
  {
    var d := a.details[n];
    var row := a.transactions[k];
    assert row.id == d.txId;
    InquiryReportsNewestDetail(a, p.invoiceNo);
    ReportOfCallbackDetail(row, n + 1, p, now, nowText);
    assert Inquiry.Inquire(a, Some(p.invoiceNo)) == Inquiry.InquiryOk(Inquiry.Report(row, Some(d)));
  }

  /** The committed writes keep the transaction keys and leave every earlier
      detail row older than the clock. */
  lemma AppliedKeepsHistory(t: Tables, policy: MatchPolicy, p: CallbackPayload, now: int, nowText: string)
    requires TxIds(t.transactions) && ClockPast(t, now) && AnyMatch(t.transactions, policy, p.invoiceNo)
    ensures var a := Applied(t, policy, p, now, nowText);
      && TxIds(a.transactions)
      && forall j :: 0 <= j < |t.details| ==> a.details[j].createdAt < now
  {
    var a := Applied(t, policy, p, now, nowText);
    forall j | 0 <= j < |t.details|
      ensures a.details[j].createdAt < now
    {
      assert a.details[j] == a.details[..|t.details|][j] == t.details[j];
    }
  }

  /** As written, the GS1 token route sends the gateway `GS1-<stored>-<ms>` for
      the invoice `<stored>` the page saved. Echoed back, that name matches
      the saved row under neither the callback's prefix rule nor exact
      equality: it is longer than the saved invoice. */
  lemma Gs1SentInvoiceNeverMatchesStored(form: Gs1Page.FormData, timestamp: string, d: Token.Draws)
    ensures var stored := Gs1Page.SubmittedInvoice(form, timestamp);
      var sent := Token.Gs1Invoice(Some(stored), d);
      && !Matches(Prefix, stored, sent)
      && !Matches(Exact, stored, sent)
  {
    var stored := Gs1Page.SubmittedInvoice(form, timestamp);
    var sent := Token.Gs1Invoice(Some(stored), d);
    assert |sent| > |stored|;
  }

  /** The whole GS1 chain as written: the page's create request stores a pending
      row; the token request for the same submission names the gateway's
      invoice; a callback echoing that invoice, whatever it reports and however
      the database behaves, leaves the stored row exactly as it was, and an
      inquiry for the echoed invoice never reports it. */
  lemma Gs1ChainLeavesSubmissionPending(
    t0: Tables, ct: Gs1Page.CustomerType, form: Gs1Page.FormData, timestamp: string, amount: Num,
    stamp: string, random: string, now0: int,
    env: Token.TokenEnv, d: Token.Draws, reply: Option<Token.RawReply>, verify: Option<Token.Claims>,
    payload: string, cbEnv: CallbackEnv, p: CallbackPayload, now1: int, nowText: string, fault: Option<nat>)
    requires WellFormed(t0)
    requires Creation.Create(Creation.Gs1, t0, Gs1Page.PaymentBody(ct, form, timestamp, amount), amount,
                             stamp, random, now0, None).reply.Created?
    requires Token.Gs1Token(env, Gs1Page.TokenBody(ct, form, timestamp, amount), d, reply, verify).call.Some?
    requires p.invoiceNo ==
      Token.Gs1Token(env, Gs1Page.TokenBody(ct, form, timestamp, amount), d, reply, verify).call.value.payload.invoiceNo
    ensures var c := Creation.Create(Creation.Gs1, t0, Gs1Page.PaymentBody(ct, form, timestamp, amount), amount,
                                     stamp, random, now0, None);
      var k := |t0.transactions|;
      var o := Callback(Gs1Handler, c.tables, payload, cbEnv, Some(p), now1, nowText, fault);
      && k < |o.tables.transactions|
      && c.tables.transactions[k].status == Pending
      && c.tables.transactions[k].invoice == Gs1Page.SubmittedInvoice(form, timestamp)
      && o.tables.transactions[k] == c.tables.transactions[k]
      && (Inquiry.Inquire(o.tables, Some(p.invoiceNo)).InquiryOk? ==>
            Inquiry.Inquire(o.tables, Some(p.invoiceNo)).data.invoiceNo != c.tables.transactions[k].invoice)
  {
    var req := Gs1Page.PaymentBody(ct, form, timestamp, amount);
    var c := Creation.Create(Creation.Gs1, t0, req, amount, stamp, random, now0, None);
    var k := |t0.transactions|;
    var stored := Gs1Page.SubmittedInvoice(form, timestamp);
    assert c.tables.transactions[k].invoice == stored;
    Gs1SentInvoiceNeverMatchesStored(form, timestamp, d);
    assert p.invoiceNo == Token.Gs1Invoice(Some(stored), d);
    var o := Callback(Gs1Handler, c.tables, payload, cbEnv, Some(p), now1, nowText, fault);
    if Commits(Gs1Handler, c.tables, payload, cbEnv, Some(p), fault) {
      assert o.tables.transactions ==
        SettleAll(c.tables.transactions, Prefix, p.invoiceNo, TargetStatus(p.respCode), now1);
    }
  }

  /** The evidently intended GS1 token invoice: the page's invoice forwarded
      unchanged, as the FTI route does; a name is generated only when none is given. */
  function CorrectedGs1Invoice(invoiceNo: Option<string>, d: Token.Draws): (inv: string)
    ensures Filled(invoiceNo) ==> inv == invoiceNo.value
    ensures !Filled(invoiceNo) ==> StartsWith(inv, "GS1-INV-")
  {
    if Filled(invoiceNo) then invoiceNo.value
    else
      var inv := "GS1-INV-" + d.nowMs + "-" + d.suffix;
      assert inv[..|"GS1-INV-"|] == "GS1-INV-";
      inv
  }

  /** The evidently intended GS1 callback: exact invoice match, as the FTI
      handler and both inquiry routes use; still no audit row. */
  const CorrectedGs1Handler := Handler(Exact, false)

  /** With both corrections, the chain closes: a verified callback echoing the
      forwarded invoice settles the submission's own row, pending before, to
      completed exactly on "0000", and the inquiry for that invoice reports
      the new status. */
  lemma CorrectedChainSettlesSubmission(
    t0: Tables, ct: Gs1Page.CustomerType, form: Gs1Page.FormData, timestamp: string, amount: Num,
    stamp: string, random: string, now0: int, d: Token.Draws,
    payload: string, cbEnv: CallbackEnv, p: CallbackPayload, now1: int, nowText: string)
    requires WellFormed(t0)
    requires Creation.Create(Creation.Gs1, t0, Gs1Page.PaymentBody(ct, form, timestamp, amount), amount,
                             stamp, random, now0, None).reply.Created?
    requires p.invoiceNo == CorrectedGs1Invoice(Some(Gs1Page.SubmittedInvoice(form, timestamp)), d)
    requires GuardsPass(payload, cbEnv, Some(p))
    requires ClockPast(Creation.Create(Creation.Gs1, t0, Gs1Page.PaymentBody(ct, form, timestamp, amount), amount,
                                       stamp, random, now0, None).tables, now1)
    ensures var c := Creation.Create(Creation.Gs1, t0, Gs1Page.PaymentBody(ct, form, timestamp, amount), amount,
                                     stamp, random, now0, None);
      var k := |t0.transactions|;
      var o := Callback(CorrectedGs1Handler, c.tables, payload, cbEnv, Some(p), now1, nowText, None);
      var r := Inquiry.Inquire(o.tables, Some(p.invoiceNo));
      && o.reply == Ack
      && c.tables.transactions[k].status == Pending
      && o.tables.transactions[k].status == TargetStatus(p.respCode)
      && r.InquiryOk?
      && r.data.paymentStatus == TargetStatus(p.respCode)
      && (r.data.respCode == "0000" <==> p.respCode == Some("0000"))
  {
    var req := Gs1Page.PaymentBody(ct, form, timestamp, amount);
    var c := Creation.Create(Creation.Gs1, t0, req, amount, stamp, random, now0, None);
    var k := |t0.transactions|;
    var stored := Gs1Page.SubmittedInvoice(form, timestamp);
    assert c.tables.transactions[k].invoice == stored == p.invoiceNo;
    ExactCallbackSettles(c.tables, k, payload, cbEnv, p, now1, nowText);
  }

  /** The other correction, the one the GS1 callback's own comment describes:
      the gateway is sent the page's original invoice, and the callback keeps
      its prefix rule. The callback then settles the submission's row, but the
      result page's inquiry, which matches exactly, never reports that row for
      the echoed invoice. */
  lemma PrefixCorrectionSettlesSubmission(
    t0: Tables, ct: Gs1Page.CustomerType, form: Gs1Page.FormData, timestamp: string, amount: Num,
    stamp: string, random: string, now0: int,
    payload: string, cbEnv: CallbackEnv, p: CallbackPayload, now1: int, nowText: string)
    requires WellFormed(t0)
    requires Creation.Create(Creation.Gs1, t0, Gs1Page.PaymentBody(ct, form, timestamp, amount), amount,
                             stamp, random, now0, None).reply.Created?
    requires p.invoiceNo == form.invoiceNumber
    requires GuardsPass(payload, cbEnv, Some(p))
    ensures var c := Creation.Create(Creation.Gs1, t0, Gs1Page.PaymentBody(ct, form, timestamp, amount), amount,
                                     stamp, random, now0, None);
      var k := |t0.transactions|;
      var o := Callback(Gs1Handler, c.tables, payload, cbEnv, Some(p), now1, nowText, None);
      var r := Inquiry.Inquire(o.tables, Some(p.invoiceNo));
      && o.reply == Ack
      && c.tables.transactions[k].status == Pending
      && o.tables.transactions[k].status == TargetStatus(p.respCode)
      && (r.InquiryOk? ==> r.data.invoiceNo != o.tables.transactions[k].invoice)
  {
    var req := Gs1Page.PaymentBody(ct, form, timestamp, amount);
    var c := Creation.Create(Creation.Gs1, t0, req, amount, stamp, random, now0, None);
    var k := |t0.transactions|;
    var stored := Gs1Page.SubmittedInvoice(form, timestamp);
    assert c.tables.transactions[k].invoice == stored;
    assert Matches(Prefix, c.tables.transactions[k].invoice, p.invoiceNo);
    FaultFreeDeliveryCommits(Gs1Handler, c.tables, payload, cbEnv, Some(p), now1, nowText);
  }

  /** An exact-match callback for a pending row's own invoice settles that row
      and the inquiry for the invoice then reports the new status. */
  lemma ExactCallbackSettles(t: Tables, k: nat, payload: string, env: CallbackEnv, p: CallbackPayload,
                             now: int, nowText: string)
    requires TxIds(t.transactions) && ClockPast(t, now) && GuardsPass(payload, env, Some(p))
    requires k < |t.transactions| && t.transactions[k].status == Pending
    requires t.transactions[k].invoice == p.invoiceNo != ""
    ensures var o := Callback(CorrectedGs1Handler, t, payload, env, Some(p), now, nowText, None);
      var r := Inquiry.Inquire(o.tables, Some(p.invoiceNo));
      && o.reply == Ack
      && o.tables.transactions[k].status == TargetStatus(p.respCode)
      && r.InquiryOk?
      && r.data.paymentStatus == TargetStatus(p.respCode)
      && (r.data.respCode == "0000" <==> p.respCode == Some("0000"))
  {
    assert PendingMatch(Exact, t.transactions[k], p.invoiceNo);
    InquiryReportsSettledRow(t, p, now, nowText);
    FaultFreeDeliveryCommits(CorrectedGs1Handler, t, payload, env, Some(p), now, nowText);
  }

  /** An amount field such as "1e999", which `parseFloat` reads as Infinity,
      reaches the GS1 create route as `null` and is reported as a missing
      `total_amount`; nothing is written. */
  lemma InfiniteAmountReportedMissing(ct: Gs1Page.CustomerType, form: Gs1Page.FormData, timestamp: string, t: Tables,
                                      parsed: Num, stamp: string, random: string, now: int, fault: Option<nat>)
    requires WellFormed(t)
    ensures Creation.Create(Creation.Gs1, t, Gs1Page.PaymentBody(ct, form, timestamp, PosInf), parsed, stamp, random, now, fault)
      == Creation.CreateOutcome(t, Creation.MissingField(Creation.TotalAmount))
  {
    var req := Gs1Page.PaymentBody(ct, form, timestamp, PosInf);
    var fs := Creation.RequiredFields(Creation.Gs1);
    assert fs == [Creation.InvoiceNumber, Creation.TotalAmount];
    assert Creation.Supplied(req, Creation.InvoiceNumber);
  }
}
