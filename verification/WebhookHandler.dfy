/** One webhook request, served without interruption: `receive_webhook` with its session dependency. */
module WebhookHandler {
  import opened Wrappers
  import opened Config
  import opened Receiver

  /** Whether the idempotency insert, the raw insert, the publish and the commit go through. */
  datatype Faults = Faults(check: bool, insert: bool, send: bool, commit: bool)

  const NO_FAULTS := Faults(true, true, true, true)

  function Ok(f: Faults, pc: Pc): bool {
    match pc
    case Checking => f.check
    case Inserting(_) => f.insert
    case Sending(_) => f.send
    case _ => f.commit
  }

  function Distance(pc: Pc): nat {
    match pc
    case Checking => 4
    case Inserting(_) => 3
    case Sending(_) => 2
    case Replied(_) => 1
    case _ => 0
  }

  /** Running a request to the end of its session. */
  function Serve(st: Store, r: Req, f: Faults, eventId: Id): (Store, Req)
    requires ReqOk(r)
    decreases Distance(r.pc)
  {
    if Closed(r.pc) then (st, r)
    else
      var (st', r') := Step(st, r, Ok(f, r.pc), eventId);
      Serve(st', r', f, eventId)
  }

  lemma ServeStep(st: Store, r: Req, f: Faults, eventId: Id)
    requires ReqOk(r) && !Closed(r.pc)
    ensures var (st', r') := Step(st, r, Ok(f, r.pc), eventId);
            ReqOk(r') && Serve(st, r, f, eventId) == Serve(st', r', f, eventId)
  {
  }

  lemma {:induction false} InputStays(st: Store, r: Req, f: Faults, eventId: Id)
    requires ReqOk(r)
    ensures Serve(st, r, f, eventId).1.input == r.input
    decreases Distance(r.pc)
  {
    if Closed(r.pc) {
    } else {
      ServeStep(st, r, f, eventId);
      var (st', r') := Step(st, r, Ok(f, r.pc), eventId);
      InputStays(st', r', f, eventId);
    }
  }

  /** A request served alone is a run of the step system, whenever nobody holds its key. */
  lemma {:induction false} ServeRuns(s: State, i: nat, f: Faults, eventId: Id) returns (cs: seq<Choice>)
    requires i < |s.reqs| && ReqOk(s.reqs[i])
    requires s.reqs[i].pc.Checking? ==> forall j | 0 <= j < |s.reqs| :: !Holds(s.reqs[j], InputKey(s.reqs[i].input))
    ensures Valid(s, cs)
    ensures var (st', r') := Serve(s.store, s.reqs[i], f, eventId);
            Exec(s, cs) == State(st', s.reqs[i := r'])
    decreases Distance(s.reqs[i].pc)
  {
    if Closed(s.reqs[i].pc) {
      cs := [];
      assert s.reqs == s.reqs[i := s.reqs[i]];
    } else {
      var c := Act(i, Ok(f, s.reqs[i].pc), eventId);
      ServeStep(s.store, s.reqs[i], f, eventId);
      var s' := Apply(s, c);
      var rest := ServeRuns(s', i, f, eventId);
      cs := [c] + rest;
      assert cs[1..] == rest;
      var last := Serve(s'.store, s'.reqs[i], f, eventId).1;
      assert s'.reqs[i := last] == s.reqs[i := last];
    }
  }

  /** A bad gateway or body is rejected before anything is touched. */
  lemma ServeRejected(st: Store, input: Input, f: Faults, eventId: Id)
    requires (input.gateway != "grummer" && input.gateway != "lous") || !input.json
    ensures var (st', r') := Serve(st, Arrive(input), f, eventId);
            && st' == st && r' == Arrive(input)
            && r'.pc == RolledBack(if input.gateway != "grummer" && input.gateway != "lous" then 422 else 400)
  {
  }

  /** A body that cannot be decrypted, which matters only for an encrypted "grummer" body, or does not
      validate: a raw row and a dead-letter record, for every fault pattern. */
  lemma ServeFailed(st: Store, input: Input, f: Faults, eventId: Id)
    requires (input.gateway == "grummer" || input.gateway == "lous") && input.json
    requires (input.gateway == "grummer" && input.encrypted && !input.decrypts) || input.payload.None?
    ensures var (st', r') := Serve(st, Arrive(input), f, eventId);
            var undecrypted := input.gateway == "grummer" && input.encrypted && !input.decrypts;
            var status := if undecrypted then DECRYPT_FAILED else SCHEMA_FAILED;
            var record := if f.insert && f.send then [input] else [];
            && st'.processed == st.processed && st'.leadReceived == st.leadReceived
            && st'.raw == st.raw + (if f.insert && f.commit then [Raw(input.gateway, status)] else [])
            && st'.decryptDlq == st.decryptDlq + (if undecrypted then record else [])
            && st'.schemaDlq == st.schemaDlq + (if undecrypted then [] else record)
            && r'.pc == Ending(f, if f.insert && f.send then 202 else 503)
  {
    var r := Arrive(input);
    ServeStep(st, r, f, eventId);
    var (st1, r1) := Step(st, r, f.insert, eventId);
    ServeStep(st1, r1, f, eventId);
    if f.insert {
      var (st2, r2) := Step(st1, r1, f.send, eventId);
      ServeStep(st2, r2, f, eventId);
    }
  }

  /** The session of a request answered `code` commits or rolls back. */
  function Ending(f: Faults, code: int): Pc {
    if f.commit then Committed(code) else RolledBack(code)
  }

  /** A valid payload, for every fault pattern: the key is used up as soon as the idempotency insert and the
      commit go through; a new event is accepted exactly when it is "order.approved" with an approved
      payment, and then its one message is published before the commit; any other new event is discarded. */
  lemma ServeValid(st: Store, input: Input, p: Payload, f: Faults, eventId: Id)
    requires (input.gateway == "grummer" || input.gateway == "lous") && input.json && input.payload == Some(p)
    requires input.gateway == "grummer" && input.encrypted ==> input.decrypts
    ensures var (st', r') := Serve(st, Arrive(input), f, eventId);
            var k := Key(input.gateway, p.transactionId, p.event);
            var isNew := k !in st.processed;
            var accepted := isNew && p.event == "order.approved" && p.sale.status == Approved;
            var status := if accepted then ACCEPTED else if isNew then DISCARDED else DUPLICATE;
            var fine := f.check && f.insert && (accepted ==> f.send);
            && st'.processed == st.processed + (if f.check && f.commit then {k} else {})
            && st'.raw == st.raw + (if f.check && f.insert && f.commit then [Raw(input.gateway, status)] else [])
            && st'.leadReceived == st.leadReceived +
               (if accepted && fine then [LeadMsg(eventId, input.gateway, p)] else [])
            && st'.decryptDlq == st.decryptDlq && st'.schemaDlq == st.schemaDlq
            && r'.pc == Ending(f, if fine then 200 else 503)
  {
    var r := Arrive(input);
    ServeStep(st, r, f, eventId);
    var (st1, r1) := Step(st, r, f.check, eventId);
    ServeStep(st1, r1, f, eventId);
    if f.check {
      var (st2, r2) := Step(st1, r1, f.insert, eventId);
      ServeStep(st2, r2, f, eventId);
      if r2.pc.Sending? {
        var (st3, r3) := Step(st2, r2, f.send, eventId);
        ServeStep(st3, r3, f, eventId);
      }
    }
  }

  /** Without faults, every request has one of seven outcomes, told apart by its fields and whether its key
      is stored. */
  lemma FaultFreeOutcome(st: Store, input: Input, eventId: Id)
    ensures var (st', r') := Serve(st, Arrive(input), NO_FAULTS, eventId);
            if input.gateway != "grummer" && input.gateway != "lous" then st' == st && r'.pc == RolledBack(422)
            else if !input.json then st' == st && r'.pc == RolledBack(400)
            else if input.gateway == "grummer" && input.encrypted && !input.decrypts then
              && st' == st.(raw := st.raw + [Raw(input.gateway, DECRYPT_FAILED)], decryptDlq := st.decryptDlq + [input])
              && r'.pc == Committed(202)
            else match input.payload
              case None =>
                && st' == st.(raw := st.raw + [Raw(input.gateway, SCHEMA_FAILED)], schemaDlq := st.schemaDlq + [input])
                && r'.pc == Committed(202)
              case Some(p) =>
                var k := Key(input.gateway, p.transactionId, p.event);
                && r'.pc == Committed(200)
                && st' == if k in st.processed then st.(raw := st.raw + [Raw(input.gateway, DUPLICATE)])
                          else if p.event == "order.approved" && p.sale.status == Approved then
                            st.(processed := st.processed + {k}, raw := st.raw + [Raw(input.gateway, ACCEPTED)],
                                leadReceived := st.leadReceived + [LeadMsg(eventId, input.gateway, p)])
                          else st.(processed := st.processed + {k}, raw := st.raw + [Raw(input.gateway, DISCARDED)])
  {
    if (input.gateway != "grummer" && input.gateway != "lous") || !input.json {
      ServeRejected(st, input, NO_FAULTS, eventId);
    } else if (input.gateway == "grummer" && input.encrypted && !input.decrypts) || input.payload.None? {
      ServeFailed(st, input, NO_FAULTS, eventId);
    } else {
      ServeValid(st, input, input.payload.value, NO_FAULTS, eventId);
      KnownKeyStays(st.processed, Key(input.gateway, input.payload.value.transactionId, input.payload.value.event));
    }
    hide Serve;
  }

  lemma KnownKeyStays(s: set<Key>, k: Key)
    ensures k in s ==> s + {k} == s
  {
  }

  /** Row and message of a new approved event agree exactly when, once the idempotency insert went through,
      the commit goes through just if the raw insert and the publish do. Otherwise either the key is used
      up without a message, because the swallowed exception still commits, or there is a message without
      a row, because publishing is not undone. */
  lemma RowAndMessageAgreeIff(st: Store, input: Input, p: Payload, f: Faults, eventId: Id)
    requires Judge(input) == Fine(p) && p.event == "order.approved" && p.sale.status == Approved
    requires InputKey(input) !in st.processed
    ensures var st' := Serve(st, Arrive(input), f, eventId).0;
            var (stored, sent) := (InputKey(input) in st'.processed, st'.leadReceived != st.leadReceived);
            && ((stored <==> sent) <==> (f.check ==> (f.commit <==> f.insert && f.send)))
            && (stored && !sent <==> f.check && f.commit && !(f.insert && f.send))
            && (sent && !stored <==> f.check && f.insert && f.send && !f.commit)
  {
    ServeValid(st, input, p, f, eventId);
    hide Serve;
    assert |st.leadReceived + [LeadMsg(eventId, input.gateway, p)]| == |st.leadReceived| + 1;
  }

  /** A key used up without its message stays lost: in every reachable state, after a new approved event
      was committed with a failed raw insert or publish, no continuation ever adds a message for it. */
  lemma LostForGood(s: State, i: nat, f: Faults, eventId: Id, cs: seq<Choice>)
    requires Inv(s) && i < |s.reqs| && s.reqs[i] == Arrive(s.reqs[i].input) && Judge(s.reqs[i].input).Fine?
    requires IsApproved(s.reqs[i].input.payload.value) && InputKey(s.reqs[i].input) !in s.store.processed
    requires forall j | 0 <= j < |s.reqs| :: !Holds(s.reqs[j], InputKey(s.reqs[i].input))
    requires f.check && f.commit && !(f.insert && f.send)
    requires var (st', r') := Serve(s.store, s.reqs[i], f, eventId); Valid(State(st', s.reqs[i := r']), cs)
    ensures var (st', r') := Serve(s.store, s.reqs[i], f, eventId);
            var k := InputKey(s.reqs[i].input);
            && r'.pc == Committed(503)
            && Messages(Exec(State(st', s.reqs[i := r']), cs).store.leadReceived, k) ==
               Messages(s.store.leadReceived, k)
  {
    var input := s.reqs[i].input;
    var run := ServeRuns(s, i, f, eventId);
    ExecKeeps(s, run);
    ServeValid(s.store, input, input.payload.value, f, eventId);
    var (st', r') := Serve(s.store, s.reqs[i], f, eventId);
    hide Serve, Exec, Valid, Inv, Messages;
    assert st'.leadReceived == s.store.leadReceived;
    CommittedKeyIsFrozen(State(st', s.reqs[i := r']), cs, InputKey(input));
  }

  // -- The code -----------------------------------------------------------------------------------------

  class Webhooks {
    // Committed tables, what the request's session sees of them, and the queues.
    var processed: set<Key>
    var raw: seq<Raw>
    var sessionProcessed: set<Key>
    var sessionRaw: seq<Raw>
    var leadReceived: seq<LeadMsg>
    var decryptDlq: seq<Input>
    var schemaDlq: seq<Input>

    constructor ()
      ensures Contents() == EMPTY_STORE && Idle()
    {
      processed, raw, sessionProcessed, sessionRaw := {}, [], {}, [];
      leadReceived, decryptDlq, schemaDlq := [], [], [];
    }

    function Contents(): Store
      reads this
    {
      Store(processed, raw, leadReceived, decryptDlq, schemaDlq)
    }

    /** No session is open. */
    predicate Idle()
      reads this
    {
      sessionProcessed == processed && sessionRaw == raw
    }

    /** `check_idempotency`: the row count is 1 for a new row, 2 or 0 for a duplicate. */
    method CheckIdempotency(k: Key, sameCorrelation: bool, ok: bool) returns (raised: bool, isNew: bool)
      modifies this`sessionProcessed
      ensures raised == !ok
      ensures !raised ==> isNew == (k !in old(sessionProcessed)) && sessionProcessed == old(sessionProcessed) + {k}
      ensures raised ==> sessionProcessed == old(sessionProcessed)
    {
      if !ok {
        return true, false;
      }
      var rowcount := if k !in sessionProcessed then 1 else if sameCorrelation then 0 else 2;
      sessionProcessed := sessionProcessed + {k};
      raised, isNew := false, rowcount == 1;
    }

    method InsertRawPayload(gateway: string, status: Status, ok: bool) returns (raised: bool)
      modifies this`sessionRaw
      ensures raised == !ok
      ensures sessionRaw == old(sessionRaw) + if ok then [Raw(gateway, status)] else []
    {
      if ok {
        sessionRaw := sessionRaw + [Raw(gateway, status)];
      }
      raised := !ok;
    }

    /** `_fail_and_return`, for a body that cannot be decrypted or does not validate. */
    method FailAndReturn(input: Input, status: Status, f: Faults) returns (raised: bool, code: int)
      requires status == DECRYPT_FAILED || status == SCHEMA_FAILED
      modifies this`sessionRaw, this`decryptDlq, this`schemaDlq
      ensures raised == !(f.insert && f.send) && (!raised ==> code == 202)
      ensures sessionRaw == old(sessionRaw) + (if f.insert then [Raw(input.gateway, status)] else [])
      ensures decryptDlq == old(decryptDlq) + (if !raised && status == DECRYPT_FAILED then [input] else [])
      ensures schemaDlq == old(schemaDlq) + (if !raised && status == SCHEMA_FAILED then [input] else [])
    {
      code := 202;
      raised := InsertRawPayload(input.gateway, status, f.insert);
      if raised || !f.send {
        return true, code;
      }
      if status == DECRYPT_FAILED {
        decryptDlq := decryptDlq + [input];
      } else {
        schemaDlq := schemaDlq + [input];
      }
    }

    /** The part of `receive_webhook` for a validated payload. */
    method RouteValid(input: Input, p: Payload, f: Faults, sameCorrelation: bool, eventId: Id)
      returns (raised: bool, code: int)
      modifies this`sessionProcessed, this`sessionRaw, this`leadReceived
      ensures var k := Key(input.gateway, p.transactionId, p.event);
              var isNew := k !in old(sessionProcessed);
              var accepted := isNew && p.event == "order.approved" && p.sale.status == Approved;
              var status := if accepted then ACCEPTED else if isNew then DISCARDED else DUPLICATE;
              && raised == !(f.check && f.insert && (accepted ==> f.send)) && (!raised ==> code == 200)
              && sessionProcessed == old(sessionProcessed) + (if f.check then {k} else {})
              && sessionRaw == old(sessionRaw) + (if f.check && f.insert then [Raw(input.gateway, status)] else [])
              && leadReceived == old(leadReceived) +
                 (if !raised && accepted then [LeadMsg(eventId, input.gateway, p)] else [])
    {
      code := 200;
      var isNew;
      raised, isNew := CheckIdempotency(Key(input.gateway, p.transactionId, p.event), sameCorrelation, f.check);
      if raised {
        return;
      }
      if !isNew {
        raised := InsertRawPayload(input.gateway, DUPLICATE, f.insert);
        return;
      }
      if IsApproved(p) {
        raised := InsertRawPayload(input.gateway, ACCEPTED, f.insert);
        if raised || !f.send {
          return true, code;
        }
        leadReceived := leadReceived + [LeadMsg(eventId, input.gateway, p)];
        return;
      }
      raised := InsertRawPayload(input.gateway, DISCARDED, f.insert);
    }

    /** `receive_webhook` under `get_db_session`: an HTTP error rolls back; everything else, the 503 that
        stands for a swallowed exception included, goes on to the commit. */
    method Request(input: Input, f: Faults, sameCorrelation: bool, eventId: Id) returns (code: int, committed: bool)
      requires Idle()
      modifies this
      ensures Idle()
      ensures var (st', r') := Serve(old(Contents()), Arrive(input), f, eventId);
              Contents() == st' && r'.pc == if committed then Committed(code) else RolledBack(code)
    {
      hide Serve, Step, ReqOk;
      var raised := false;
      if input.gateway !in VALID_GATEWAYS || !input.json {
        ServeRejected(Contents(), input, f, eventId);
      }
      if input.gateway !in VALID_GATEWAYS {
        return 422, false;
      }
      if !input.json {
        return 400, false;
      }
      if input.gateway == GATEWAY_GRUMMER && input.encrypted && !input.decrypts {
        ServeFailed(Contents(), input, f, eventId);
        raised, code := FailAndReturn(input, DECRYPT_FAILED, f);
      } else if input.payload.None? {
        ServeFailed(Contents(), input, f, eventId);
        raised, code := FailAndReturn(input, SCHEMA_FAILED, f);
      } else {
        ServeValid(Contents(), input, input.payload.value, f, eventId);
        raised, code := RouteValid(input, input.payload.value, f, sameCorrelation, eventId);
      }
      if raised {
        code := 503;
      }
      committed := f.commit;
      if committed {
        processed, raw := sessionProcessed, sessionRaw;
      } else {
        sessionProcessed, sessionRaw := processed, raw;
      }
    }
  }
}
