/** The callback reconciler of both systems: the gateway's signed notification
    is checked, matched to stored transactions, pending matches are settled and
    one payment-detail row is appended, all in one database transaction. */
module Reconcile {
  import opened Common
  import opened Store

  /** What differs between the two callback handlers: how the invoice is
      matched, and whether an unmatched callback writes an audit-log row
      (which the rollback then discards). */
  datatype Handler = Handler(policy: MatchPolicy, audit: bool)

  /** The FTI handler: exact invoice match, audit row on a miss. */
  const FtiHandler := Handler(Exact, true)

  /** The GS1 handler: `invoiceNo-%` prefix match, no audit row. */
  const Gs1Handler := Handler(Prefix, false)

  /** Configuration the handler reads: the signing secret and the expected merchant ID. */
  datatype CallbackEnv = CallbackEnv(secret: Option<string>, merchantID: Option<string>)

  /** The claims of a callback envelope whose signature verified. */
  datatype CallbackPayload = CallbackPayload(
    merchantID: Option<string>,
    invoiceNo: string,
    accountNo: Option<string>,
    amount: Option<int>,
    currencyCode: Option<string>,
    tranRef: Option<string>,
    referenceNo: Option<string>,
    approvalCode: Option<string>,
    eci: Option<string>,
    transactionDateTime: Option<string>,
    respCode: Option<string>,
    respDesc: Option<string>)

  datatype CallbackReply =
    | MissingPayload    // 400
    | MissingSecret     // 500
    | BadSignature      // 400
    | BadMerchant       // 400
    | NotFound          // 404
    | Ack               // 200 {respCode: "0000", respDesc: "Success"}

  function HttpStatus(r: CallbackReply): nat {
    match r
    case MissingPayload => 400
    case MissingSecret => 500
    case BadSignature => 400
    case BadMerchant => 400
    case NotFound => 404
    case Ack => 200
  }

  /** Net result of one callback: the committed tables and the reply. */
  datatype Outcome = Outcome(tables: Tables, reply: CallbackReply)

  /** The database statements of a delivery are numbered 0 (the candidate
      SELECT) to 4 (COMMIT); `fault == Some(k)` makes statement k raise. */
  predicate Raises(fault: Option<nat>, step: nat) {
    fault == Some(step)
  }

  /** One of the statements of a matched delivery raises: candidate SELECT (0),
      UPDATE (1), latest-row SELECT (2), detail INSERT (3) or COMMIT (4). */
  predicate RaisesAny(fault: Option<nat>) {
    Raises(fault, 0) || Raises(fault, 1) || Raises(fault, 2) || Raises(fault, 3) || Raises(fault, 4)
  }

  /** The member `key` of a stored snapshot is present exactly when the claim
      `v` was, and holds its value. */
  predicate Carries(m: map<string, string>, key: string, v: Option<string>) {
    (key in m <==> v.Some?) && (v.Some? ==> m[key] == v.value)
  }

  /** The members `gateway_response` may hold. */
  const SnapshotKeys := {"respCode", "respDesc", "approvalCode", "referenceNo", "accountNo", "eci",
                         "merchantID", "currencyCode"}

  /** The claim a snapshot member copies. */
  function SnapshotMember(p: CallbackPayload, key: string): Option<string> {
    if key == "respCode" then p.respCode
    else if key == "respDesc" then p.respDesc
    else if key == "approvalCode" then p.approvalCode
    else if key == "referenceNo" then p.referenceNo
    else if key == "accountNo" then p.accountNo
    else if key == "eci" then p.eci
    else if key == "merchantID" then p.merchantID
    else if key == "currencyCode" then p.currencyCode
    else None
  }

  /** The JSON snapshot stored in `gateway_response`: `JSON.stringify` drops
      the members that are undefined. */
  function SnapshotOf(p: CallbackPayload): (m: map<string, string>)
    ensures m.Keys <= SnapshotKeys && "tranRef" !in m
    ensures Carries(m, "respCode", p.respCode) && Carries(m, "respDesc", p.respDesc)
    ensures Carries(m, "approvalCode", p.approvalCode) && Carries(m, "referenceNo", p.referenceNo)
    ensures Carries(m, "accountNo", p.accountNo) && Carries(m, "eci", p.eci)
    ensures Carries(m, "merchantID", p.merchantID) && Carries(m, "currencyCode", p.currencyCode)
  {
    map key | key in SnapshotKeys && SnapshotMember(p, key).Some? :: SnapshotMember(p, key).value
  }

  /** The audit-log row the FTI handler writes when no transaction matches. */
  function AuditEntry(p: CallbackPayload): AuditRow {
    AuditRow("callback_no_transaction", p.invoiceNo, p.respCode, p.respDesc, "2C2P_CALLBACK")
  }

  /** The payment-detail row appended for transaction `txId`. */
  function NewDetail(id: nat, txId: nat, p: CallbackPayload, target: Status, now: int, nowText: string): DetailRow {
    DetailRow(id, txId, "credit_card", p.tranRef, TextOr(p.transactionDateTime, nowText),
              p.amount, target, Parsed(SnapshotOf(p)), now)
  }

  /** The committed effect of a matched callback: the guarded UPDATE, then one
      detail row linked to the matching row with the latest `updated_at`. */
  function Applied(t: Tables, policy: MatchPolicy, p: CallbackPayload, now: int, nowText: string): (r: Tables)
    requires AnyMatch(t.transactions, policy, p.invoiceNo)
    ensures r.transactions == SettleAll(t.transactions, policy, p.invoiceNo, TargetStatus(p.respCode), now)
    ensures r.corporate == t.corporate && r.personal == t.personal && r.audit == t.audit
    ensures |r.details| == |t.details| + 1 && r.details[..|t.details|] == t.details
    // the one new detail row is linked to the latest matching row
    ensures LatestMatch(r.transactions, policy, p.invoiceNo).Some?
    ensures r.details[|t.details|] ==
      NewDetail(|t.details| + 1, r.transactions[LatestMatch(r.transactions, policy, p.invoiceNo).value].id,
                p, TargetStatus(p.respCode), now, nowText)
  {
    var target := TargetStatus(p.respCode);
    var settled := SettleAll(t.transactions, policy, p.invoiceNo, target, now);
    var w :| 0 <= w < |t.transactions| && Matches(policy, t.transactions[w].invoice, p.invoiceNo);
    assert Matches(policy, settled[w].invoice, p.invoiceNo);
    var k := LatestMatch(settled, policy, p.invoiceNo).value;
    t.(transactions := settled,
       details := t.details + [NewDetail(|t.details| + 1, settled[k].id, p, target, now, nowText)])
  }

  /** One callback delivery: what the tables hold after commit or rollback,
      and what the gateway is told. */
  function Callback(h: Handler, t: Tables, payload: string, env: CallbackEnv,
                    verified: Option<CallbackPayload>, now: int, nowText: string,
                    fault: Option<nat>): (o: Outcome)
    // every rejection leaves the database as it was
    ensures o.reply != Ack ==> o.tables == t
    // nothing is ever written to the audit log or the customer tables
    ensures o.tables.audit == t.audit && o.tables.corporate == t.corporate && o.tables.personal == t.personal
    // the guards, in order
    ensures payload == "" <==> o.reply == MissingPayload
    ensures o.reply == MissingSecret <==> payload != "" && !Filled(env.secret)
    ensures o.reply == BadSignature <==> payload != "" && Filled(env.secret) && verified.None?
    ensures o.reply == BadMerchant <==>
      payload != "" && Filled(env.secret) && verified.Some? && verified.value.merchantID != env.merchantID
    // a database fault is rolled back and still acknowledged
    ensures GuardsPass(payload, env, verified) && DbRaises(h, t, verified.value, fault) ==> o == Outcome(t, Ack)
    // 404 exactly when nothing matches (and the DB did not raise)
    ensures o.reply == NotFound <==>
      GuardsPass(payload, env, verified) && !DbRaises(h, t, verified.value, fault)
      && !AnyMatch(t.transactions, h.policy, verified.value.invoiceNo)
    // otherwise the update and the detail insert are committed
    ensures Commits(h, t, payload, env, verified, fault) ==>
      o == Outcome(Applied(t, h.policy, verified.value, now, nowText), Ack)
    // transactions keep their number and order; a status moves only from pending
    ensures |o.tables.transactions| == |t.transactions|
    ensures forall i :: 0 <= i < |t.transactions| && o.tables.transactions[i].status != t.transactions[i].status ==>
      verified.Some? && t.transactions[i].status == Pending
      && o.tables.transactions[i].status == TargetStatus(verified.value.respCode)
    // details are append-only, at most one per delivery
    ensures |t.details| <= |o.tables.details| <= |t.details| + 1
    ensures o.tables.details[..|t.details|] == t.details
  {
    if payload == "" then Outcome(t, MissingPayload)
    else if !Filled(env.secret) then Outcome(t, MissingSecret)
    else if verified.None? then Outcome(t, BadSignature)
    else
      var p := verified.value;
      if p.merchantID != env.merchantID then Outcome(t, BadMerchant)
      else if Raises(fault, 0) then Outcome(t, Ack)
      else if !AnyMatch(t.transactions, h.policy, p.invoiceNo) then
        // FTI writes an audit row (statement 1) and then rolls back
        if h.audit && Raises(fault, 1) then Outcome(t, Ack) else Outcome(t, NotFound)
      else if RaisesAny(fault) then Outcome(t, Ack)
      else Outcome(Applied(t, h.policy, p, now, nowText), Ack)
  }

  /** The UPDATE keeps every row's invoice, so what matched still matches. */
  lemma SettleKeepsMatches(rows: seq<TxRow>, policy: MatchPolicy, invoiceNo: string, target: Status, now: int)
    requires AnyMatch(rows, policy, invoiceNo)
    ensures AnyMatch(SettleAll(rows, policy, invoiceNo, target, now), policy, invoiceNo)
  {
    var w :| 0 <= w < |rows| && Matches(policy, rows[w].invoice, invoiceNo);
    assert Matches(policy, SettleAll(rows, policy, invoiceNo, target, now)[w].invoice, invoiceNo);
  }

  /** A delivery that passes the guards and meets a database fault is rolled back and acknowledged. */
  lemma RolledBackDelivery(h: Handler, t: Tables, payload: string, env: CallbackEnv,
                           verified: Option<CallbackPayload>, now: int, nowText: string, fault: Option<nat>)
    requires GuardsPass(payload, env, verified) && DbRaises(h, t, verified.value, fault)
    ensures Callback(h, t, payload, env, verified, now, nowText, fault) == Outcome(t, Ack)
  {
  }

  /** The committed writes of a matched delivery: the UPDATE, then one detail row
      for the latest matching row of the updated table. */
  lemma CommittedDelivery(h: Handler, t: Tables, payload: string, env: CallbackEnv,
                          verified: Option<CallbackPayload>, now: int, nowText: string, fault: Option<nat>)
    requires Commits(h, t, payload, env, verified, fault)
    ensures var p := verified.value;
      var settled := SettleAll(t.transactions, h.policy, p.invoiceNo, TargetStatus(p.respCode), now);
      && LatestMatch(settled, h.policy, p.invoiceNo).Some?
      && Callback(h, t, payload, env, verified, now, nowText, fault) ==
         Outcome(Tables(t.corporate, t.personal, settled,
                        t.details + [NewDetail(|t.details| + 1, settled[LatestMatch(settled, h.policy, p.invoiceNo).value].id,
                                               p, TargetStatus(p.respCode), now, nowText)],
                        t.audit),
                 Ack)
  {
    var p := verified.value;
    var settled := SettleAll(t.transactions, h.policy, p.invoiceNo, TargetStatus(p.respCode), now);
    var w :| 0 <= w < |t.transactions| && Matches(h.policy, t.transactions[w].invoice, p.invoiceNo);
    assert Matches(h.policy, settled[w].invoice, p.invoiceNo);
  }

  /** Without a database fault, a delivery that passes the guards and matches
      a row commits the writes of `Applied`. */
  lemma FaultFreeDeliveryCommits(h: Handler, t: Tables, payload: string, env: CallbackEnv,
                                 verified: Option<CallbackPayload>, now: int, nowText: string)
    requires GuardsPass(payload, env, verified) && AnyMatch(t.transactions, h.policy, verified.value.invoiceNo)
    ensures Commits(h, t, payload, env, verified, None)
    ensures Callback(h, t, payload, env, verified, now, nowText, None) ==
      Outcome(Applied(t, h.policy, verified.value, now, nowText), Ack)
  {
  }

  /** The delivery passes the guards, matches a row and meets no database fault. */
  predicate Commits(h: Handler, t: Tables, payload: string, env: CallbackEnv,
                    verified: Option<CallbackPayload>, fault: Option<nat>) {
    && GuardsPass(payload, env, verified)
    && !DbRaises(h, t, verified.value, fault)
    && AnyMatch(t.transactions, h.policy, verified.value.invoiceNo)
  }

  /** Some database statement this delivery issues raises: the candidate SELECT;
      on a miss the audit INSERT (FTI only); on a hit any of UPDATE, latest-row
      SELECT, detail INSERT or COMMIT. */
  predicate DbRaises(h: Handler, t: Tables, p: CallbackPayload, fault: Option<nat>) {
    || Raises(fault, 0)
    || (if AnyMatch(t.transactions, h.policy, p.invoiceNo) then RaisesAny(fault) else h.audit && Raises(fault, 1))
  }

  /** The request reaches the database phase. */
  predicate GuardsPass(payload: string, env: CallbackEnv, verified: Option<CallbackPayload>) {
    payload != "" && Filled(env.secret) && verified.Some? && verified.value.merchantID == env.merchantID
  }

  /** A second UPDATE with the same match finds no pending row: it changes nothing,
      whatever status it asks for. */
  lemma {:induction false} SettleTwiceIsSettleOnce(rows: seq<TxRow>, policy: MatchPolicy, invoiceNo: string,
                                                   first: Status, second: Status, now1: int, now2: int)
    requires first != Pending
    ensures var once := SettleAll(rows, policy, invoiceNo, first, now1);
      SettleAll(once, policy, invoiceNo, second, now2) == once
  {
    var once := SettleAll(rows, policy, invoiceNo, first, now1);
    var twice := SettleAll(once, policy, invoiceNo, second, now2);
    forall i | 0 <= i < |once|
      ensures twice[i] == once[i]
    {
      assert !(Matches(policy, once[i].invoice, invoiceNo) && once[i].status == Pending);
    }
  }

  /** Redelivery: once a callback has committed, a second delivery for the same
      invoice (with the same or another response code) changes no transaction and
      appends exactly one more detail row. */
  lemma RedeliveryChangesNoStatus(h: Handler, t: Tables, payload: string, env: CallbackEnv,
                                  first: CallbackPayload, second: CallbackPayload,
                                  now1: int, now2: int, nowText1: string, nowText2: string)
    requires Commits(h, t, payload, env, Some(first), None)
    requires second.invoiceNo == first.invoiceNo && second.merchantID == first.merchantID
    ensures var o1 := Callback(h, t, payload, env, Some(first), now1, nowText1, None);
      var o2 := Callback(h, o1.tables, payload, env, Some(second), now2, nowText2, None);
      && o2.reply == Ack
      && o2.tables.transactions == o1.tables.transactions
      && |o2.tables.details| == |o1.tables.details| + 1
  {
    var o1 := Callback(h, t, payload, env, Some(first), now1, nowText1, None);
    var w :| 0 <= w < |t.transactions| && Matches(h.policy, t.transactions[w].invoice, first.invoiceNo);
    assert Matches(h.policy, o1.tables.transactions[w].invoice, second.invoiceNo);
    assert Commits(h, o1.tables, payload, env, Some(second), None);
    SettleTwiceIsSettleOnce(t.transactions, h.policy, first.invoiceNo,
                            TargetStatus(first.respCode), TargetStatus(second.respCode), now1, now2);
  }

  /** A committed delivery appends one detail row carrying the computed status and
      linked to the matching transaction with the greatest `updated_at`. */
  lemma DetailLinksLatestMatch(t: Tables, policy: MatchPolicy, p: CallbackPayload, now: int, nowText: string)
    requires TxIds(t.transactions) && AnyMatch(t.transactions, policy, p.invoiceNo)
    ensures var r := Applied(t, policy, p, now, nowText);
      var rows := r.transactions;
      var d := r.details[|t.details|];
      && d == NewDetail(|t.details| + 1, d.txId, p, TargetStatus(p.respCode), now, nowText)
      && 1 <= d.txId <= |rows|
      && Matches(policy, rows[d.txId - 1].invoice, p.invoiceNo)
      && (forall j :: 0 <= j < |rows| && Matches(policy, rows[j].invoice, p.invoiceNo) ==>
            rows[j].updatedAt <= rows[d.txId - 1].updatedAt)
  {
    var r := Applied(t, policy, p, now, nowText);
    var k := LatestMatch(r.transactions, policy, p.invoiceNo).value;
    assert r.transactions[k].id == t.transactions[k].id == k + 1;
  }

  /** With a clock that has moved past every stored `updated_at`, the detail row
      is linked to a row this very delivery settled whenever one was pending. */
  lemma DetailLinksSettledRow(t: Tables, policy: MatchPolicy, p: CallbackPayload, now: int, nowText: string)
    requires TxIds(t.transactions)
    requires forall i :: 0 <= i < |t.transactions| ==> t.transactions[i].updatedAt < now
    requires exists i :: 0 <= i < |t.transactions| && PendingMatch(policy, t.transactions[i], p.invoiceNo)
    ensures AnyMatch(t.transactions, policy, p.invoiceNo)
    ensures var r := Applied(t, policy, p, now, nowText);
      var d := r.details[|t.details|];
      && 1 <= d.txId <= |t.transactions|
      && t.transactions[d.txId - 1].status == Pending
      && r.transactions[d.txId - 1].status == TargetStatus(p.respCode)
  {
    var i :| 0 <= i < |t.transactions| && PendingMatch(policy, t.transactions[i], p.invoiceNo);
    DetailLinksLatestMatch(t, policy, p, now, nowText);
    var r := Applied(t, policy, p, now, nowText);
    assert r.transactions[i].updatedAt == now;
  }

  predicate PendingMatch(policy: MatchPolicy, row: TxRow, invoiceNo: string) {
    row.status == Pending && Matches(policy, row.invoice, invoiceNo)
  }

  /** Keys stay sequential and the new detail row references an existing transaction. */
  lemma CallbackPreservesWellFormed(h: Handler, t: Tables, payload: string, env: CallbackEnv,
                                    verified: Option<CallbackPayload>, now: int, nowText: string,
                                    fault: Option<nat>)
    requires WellFormed(t)
    ensures WellFormed(Callback(h, t, payload, env, verified, now, nowText, fault).tables)
  {
    if Commits(h, t, payload, env, verified, fault) {
      AppliedPreservesWellFormed(t, h.policy, verified.value, now, nowText);
    } else {
      assert Callback(h, t, payload, env, verified, now, nowText, fault).tables == t;
    }
  }

  /** The committed writes keep every key sequential and every foreign key valid. */
  lemma AppliedPreservesWellFormed(t: Tables, policy: MatchPolicy, p: CallbackPayload, now: int, nowText: string)
    requires WellFormed(t) && AnyMatch(t.transactions, policy, p.invoiceNo)
    ensures WellFormed(Applied(t, policy, p, now, nowText))
  {
    var r := Applied(t, policy, p, now, nowText);
    AppliedKeepsDetailKeys(t, policy, p, now, nowText);
    assert r.corporate == t.corporate && r.personal == t.personal;
  }

  /** The appended detail row takes the next key and names an existing transaction. */
  lemma AppliedKeepsDetailKeys(t: Tables, policy: MatchPolicy, p: CallbackPayload, now: int, nowText: string)
    requires TxIds(t.transactions) && DetailIds(t.details) && AnyMatch(t.transactions, policy, p.invoiceNo)
    requires forall i :: 0 <= i < |t.details| ==> 1 <= t.details[i].txId <= |t.transactions|
    ensures var r := Applied(t, policy, p, now, nowText);
      && TxIds(r.transactions) && DetailIds(r.details)
      && forall i :: 0 <= i < |r.details| ==> 1 <= r.details[i].txId <= |r.transactions|
  {
    var r := Applied(t, policy, p, now, nowText);
    var n := |t.details|;
    DetailLinksLatestMatch(t, policy, p, now, nowText);
    assert TxIds(r.transactions);
    forall i | 0 <= i < n + 1
      ensures r.details[i].id == i + 1 && 1 <= r.details[i].txId <= |r.transactions|
    {
      if i < n {
        assert r.details[i] == r.details[..n][i] == t.details[i];
      }
    }
  }

  /** The GS1 prefix rule matches every timestamp-suffixed retry of an invoice but
      never a row whose invoice is exactly the callback's `invoiceNo`. */
  lemma PrefixMatchesSuffixedOnly(invoiceNo: string, suffix: string)
    ensures Matches(Prefix, invoiceNo + "-" + suffix, invoiceNo)
    ensures !Matches(Prefix, invoiceNo, invoiceNo)
  {
    assert (invoiceNo + "-" + suffix)[..|invoiceNo + "-"|] == invoiceNo + "-";
  }
}
