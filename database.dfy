/** One database (the FTI tables or the GS1 tables) as an object whose tables
    the request handlers change in place, inside BEGIN ... COMMIT / ROLLBACK. */
module Database {
  import opened Common
  import opened Store
  import opened Reconcile
  import opened Creation

  class PaymentDb {
    var corporate: seq<Customer>
    var personal: seq<Customer>
    var transactions: seq<TxRow>
    var details: seq<DetailRow>
    var audit: seq<AuditRow>

    /** The tables as one value: what BEGIN saves and ROLLBACK restores. */
    function State(): Tables
      reads this
    {
      Tables(corporate, personal, transactions, details, audit)
    }

    ghost predicate Valid()
      reads this
    {
      WellFormed(State())
    }

    constructor ()
      ensures Valid() && State() == Empty
    {
      corporate, personal, transactions, details, audit := [], [], [], [], [];
    }

    /** ROLLBACK: every table is restored to the state saved at BEGIN. */
    method Rollback(saved: Tables)
      modifies this
      ensures State() == saved
    {
      corporate, personal, transactions, details, audit :=
        saved.corporate, saved.personal, saved.transactions, saved.details, saved.audit;
    }

    /** The gateway's server-to-server callback (`backend-return`). The handler
        `h` selects the FTI or the GS1 matching rule. */
    method ReceiveCallback(h: Handler, payload: string, env: CallbackEnv, verified: Option<CallbackPayload>,
                           now: int, nowText: string, fault: Option<nat>) returns (reply: CallbackReply)
      requires Valid()
      modifies this
      ensures Valid()
      ensures Outcome(State(), reply) == Callback(h, old(State()), payload, env, verified, now, nowText, fault)
    {
      if payload == "" {
        return MissingPayload;
      }
      if !Filled(env.secret) {
        return MissingSecret;
      }
      if verified.None? {
        return BadSignature;
      }
      if verified.value.merchantID != env.merchantID {
        return BadMerchant;
      }
      reply := ApplyDelivery(h, payload, env, verified, now, nowText, fault);
    }

    /** The database phase of a delivery that passed the guards: BEGIN, the
        candidate SELECT (statement 0), then the miss or the hit branch. A
        statement that raises rolls back everything written since BEGIN, and
        the gateway is still acknowledged. */
    method ApplyDelivery(h: Handler, payload: string, env: CallbackEnv, verified: Option<CallbackPayload>,
                         now: int, nowText: string, fault: Option<nat>) returns (reply: CallbackReply)
      requires Valid() && GuardsPass(payload, env, verified)
      modifies this
      ensures Valid()
      ensures Outcome(State(), reply) == Callback(h, old(State()), payload, env, verified, now, nowText, fault)
    {
      CallbackPreservesWellFormed(h, State(), payload, env, verified, now, nowText, fault);
      if Raises(fault, 0) {
        RolledBackDelivery(h, State(), payload, env, verified, now, nowText, fault);
        return Ack;
      }
      if !AnyMatch(transactions, h.policy, verified.value.invoiceNo) {
        reply := RecordMiss(h, payload, env, verified, now, nowText, fault);
      } else {
        reply := SettleMatches(h, payload, env, verified, now, nowText, fault);
      }
    }

    /** No row matches: FTI writes an audit row (statement 1), then every
        handler rolls back and answers 404. */
    method RecordMiss(h: Handler, payload: string, env: CallbackEnv, verified: Option<CallbackPayload>,
                      now: int, nowText: string, fault: Option<nat>) returns (reply: CallbackReply)
      requires GuardsPass(payload, env, verified) && !Raises(fault, 0)
      requires !AnyMatch(transactions, h.policy, verified.value.invoiceNo)
      modifies this
      ensures Outcome(State(), reply) == Callback(h, old(State()), payload, env, verified, now, nowText, fault)
    {
      var saved := State();
      if h.audit {
        if Raises(fault, 1) {
          RolledBackDelivery(h, saved, payload, env, verified, now, nowText, fault);
          return Ack;
        }
        audit := audit + [AuditEntry(verified.value)];
      }
      Rollback(saved);
      return NotFound;
    }

    /** Some row matches: the guarded UPDATE (statement 1), then the detail row. */
    method SettleMatches(h: Handler, payload: string, env: CallbackEnv, verified: Option<CallbackPayload>,
                         now: int, nowText: string, fault: Option<nat>) returns (reply: CallbackReply)
      requires GuardsPass(payload, env, verified) && !Raises(fault, 0)
      requires AnyMatch(transactions, h.policy, verified.value.invoiceNo)
      modifies this
      ensures Outcome(State(), reply) == Callback(h, old(State()), payload, env, verified, now, nowText, fault)
    {
      var p := verified.value;
      var target := TargetStatus(p.respCode);
      var saved := State();
      if Raises(fault, 1) {
        // catch: ROLLBACK, and the gateway is still acknowledged
        RolledBackDelivery(h, saved, payload, env, verified, now, nowText, fault);
        Rollback(saved);
        return Ack;
      }
      transactions := SettleAll(transactions, h.policy, p.invoiceNo, target, now);
      reply := AppendDetail(h, saved, payload, env, verified, now, nowText, fault);
    }

    /** After the UPDATE: the latest-row SELECT (statement 2), the detail
        INSERT (3) and COMMIT (4). The first statement that raises ends the
        sequence in the `catch` block, which rolls back to `saved`, the tables
        at BEGIN. */
    method AppendDetail(h: Handler, saved: Tables, payload: string, env: CallbackEnv,
                        verified: Option<CallbackPayload>, now: int, nowText: string, fault: Option<nat>)
      returns (reply: CallbackReply)
      requires GuardsPass(payload, env, verified) && !Raises(fault, 0) && !Raises(fault, 1)
      requires AnyMatch(saved.transactions, h.policy, verified.value.invoiceNo)
      requires corporate == saved.corporate && personal == saved.personal
      requires details == saved.details && audit == saved.audit
      requires transactions == SettleAll(saved.transactions, h.policy, verified.value.invoiceNo,
                                         TargetStatus(verified.value.respCode), now)
      modifies this
      ensures Outcome(State(), reply) == Callback(h, saved, payload, env, verified, now, nowText, fault)
    {
      var p := verified.value;
      if !Raises(fault, 2) {
        SettleKeepsMatches(saved.transactions, h.policy, p.invoiceNo, TargetStatus(p.respCode), now);
        var latest := LatestMatch(transactions, h.policy, p.invoiceNo).value;
        var txId := transactions[latest].id;
        if !Raises(fault, 3) {
          details := details + [NewDetail(|details| + 1, txId, p, TargetStatus(p.respCode), now, nowText)];
          if !Raises(fault, 4) {
            CommittedDelivery(h, saved, payload, env, verified, now, nowText, fault);
            return Ack;
          }
        }
      }
      // catch: ROLLBACK, and the gateway is still acknowledged
      RolledBackDelivery(h, saved, payload, env, verified, now, nowText, fault);
      Rollback(saved);
      return Ack;
    }

    /** A create request (`payments` or `gs1payments`). */
    method CreatePayment(sys: System, req: PaymentRequest, parsed: Num, stamp: string, random: string,
                         now: int, fault: Option<nat>) returns (reply: CreateReply)
      requires Valid()
      modifies this
      ensures Valid()
      ensures CreateOutcome(State(), reply) == Create(sys, old(State()), req, parsed, stamp, random, now, fault)
    {
      var missing := FindMissingField(RequiredFields(sys), req);
      if missing.Some? {
        return MissingField(missing.value);
      }
      if !AmountAccepted(parsed) {
        return InvalidAmount;
      }
      reply := InsertPayment(sys, req, parsed, stamp, random, now, fault);
    }

    /** The accepted request's database phase: BEGIN and the customer upsert
        (statement 0), then the transaction row. */
    method InsertPayment(sys: System, req: PaymentRequest, parsed: Num, stamp: string, random: string,
                         now: int, fault: Option<nat>) returns (reply: CreateReply)
      requires Valid()
      requires FirstMissing(RequiredFields(sys), req).None? && AmountAccepted(parsed)
      modifies this
      ensures CreateOutcome(State(), reply) == Create(sys, old(State()), req, parsed, stamp, random, now, fault)
    {
      // BEGIN
      var saved := State();
      if fault == Some(0) {
        RaisedCreateRollsBack(sys, saved, req, parsed, stamp, random, now, fault);
        Rollback(saved);
        return DbError;
      }
      var u := if IsCorporate(req) then Upsert(corporate, req.taxId, CorporateInfo(sys, req))
               else Upsert(personal, req.taxId, PersonalInfo(sys, req));
      if IsCorporate(req) {
        corporate := u.rows;
      } else {
        personal := u.rows;
      }
      reply := InsertTransaction(sys, saved, req, parsed, stamp, random, now, fault, u);
    }

    /** After the upsert `u`: the transaction INSERT (statement 1) and COMMIT
        (2); a raise rolls back to `saved`, the tables at BEGIN. */
    method InsertTransaction(sys: System, saved: Tables, req: PaymentRequest, parsed: Num, stamp: string,
                             random: string, now: int, fault: Option<nat>, u: Upserted)
      returns (reply: CreateReply)
      requires WellFormed(saved) && fault != Some(0)
      requires FirstMissing(RequiredFields(sys), req).None? && AmountAccepted(parsed)
      requires u == if IsCorporate(req) then Upsert(saved.corporate, req.taxId, CorporateInfo(sys, req))
                    else Upsert(saved.personal, req.taxId, PersonalInfo(sys, req))
      requires State() == Tables(if IsCorporate(req) then u.rows else saved.corporate,
                                 if IsCorporate(req) then saved.personal else u.rows,
                                 saved.transactions, saved.details, saved.audit)
      modifies this
      ensures CreateOutcome(State(), reply) == Create(sys, saved, req, parsed, stamp, random, now, fault)
    {
      if fault == Some(1) {
        RaisedCreateRollsBack(sys, saved, req, parsed, stamp, random, now, fault);
        Rollback(saved);
        return DbError;
      }
      assert Supplied(req, RequiredFields(sys)[0]);
      var tx := NewTx(sys, |transactions| + 1, req, parsed.v, stamp, random, now, u.id);
      transactions := transactions + [tx];
      if fault == Some(2) {
        RaisedCreateRollsBack(sys, saved, req, parsed, stamp, random, now, fault);
        Rollback(saved);
        return DbError;
      }
      // COMMIT
      AcceptedWrites(sys, saved, req, parsed, stamp, random, now, fault);
      return Created(tx.id, tx.reference, u.id);
    }
  }
}
