/** In every reachable state a new approved order can be carried through to the SMS delivery: the composed
    system does not get stuck between its components. */
module EndToEnd {
  import opened Wrappers
  import opened Config
  import opened Schema
  import opened StoredProc
  import LeadStore
  import Sms
  import R = Receiver
  import W = WebhookHandler
  import L = LeadWorker
  import D = LeadDelivery
  import G = LeadLedger
  import F = SmsFlow
  import opened Pipeline

  lemma {:induction false} Join(c: Sms.Settings, s: State, xs: seq<Choice>, ys: seq<Choice>)
    requires Valid(c, s, xs) && Valid(c, Exec(c, s, xs), ys)
    ensures Valid(c, s, xs + ys) && Exec(c, s, xs + ys) == Exec(c, Exec(c, s, xs), ys)
    decreases |xs|
  {
    hide Apply, Enabled;
    if xs == [] {
      assert xs + ys == ys;
    } else {
      Join(c, Apply(c, s, xs[0]), xs[1..], ys);
      assert (xs + ys)[1..] == xs[1..] + ys;
    }
  }

  lemma OneStep(c: Sms.Settings, s: State, ch: Choice)
    requires Enabled(s, ch)
    ensures Valid(c, s, [ch]) && Exec(c, s, [ch]) == Apply(c, s, ch)
  {
    hide Apply, Enabled;
    assert [ch][1..] == [];
    assert Valid(c, Apply(c, s, ch), [ch][1..]);
  }

  // -- Runs of one component are runs of the pipeline ---------------------------------------------------

  lemma {:induction false} LiftReceiver(c: Sms.Settings, s: State, rs: seq<R.Choice>) returns (chs: seq<Choice>)
    requires R.Valid(s.recv, rs)
    ensures Valid(c, s, chs) && Exec(c, s, chs) == s.(recv := R.Exec(s.recv, rs))
    decreases |rs|
  {
    if rs == [] {
      chs := [];
    } else {
      var ch := Receive(rs[0]);
      OneStep(c, s, ch);
      var rest := LiftReceiver(c, Apply(c, s, ch), rs[1..]);
      Join(c, s, [ch], rest);
      chs := [ch] + rest;
    }
  }

  /** The SMS message of an order, just published. */
  predicate JustPublished(f: F.Flow) {
    f == F.Empty(f.row).(queued := 1)
  }

  /** What lead deliveries do to the SMS messages: old ones stay, new ones are just published. */
  ghost predicate FlowsGrow(s: State, s': State) {
    && (forall o :: o in s.flows ==> o in s'.flows && s'.flows[o] == s.flows[o])
    && (forall o :: o in s'.flows && o !in s.flows ==> JustPublished(s'.flows[o]))
  }

  lemma WorkGrows(c: Sms.Settings, s: State, i: nat, env: L.Env)
    requires Pipeline.Inv(c, s) && Enabled(s, Work(i, env))
    ensures var s' := Apply(c, s, Work(i, env));
            FlowsGrow(s, s') && s'.recv == s.recv && s'.work == L.Apply(|c.backoffs|, s.work, L.Act(i, env))
  {
    hide Pipeline.Inv, L.Apply, SmsRow;
    if SmsEnqueued(s, i, env).Some? {
      EnqueuedIsNew(c, s, i, env);
    }
  }

  lemma {:induction false} LiftWorker(c: Sms.Settings, s: State, cs: seq<L.Choice>, i: nat) returns (chs: seq<Choice>)
    requires Pipeline.Inv(c, s) && L.Valid(|c.backoffs|, s.work, cs) && D.OnlyMoves(cs, i)
    ensures Valid(c, s, chs)
    ensures var s' := Exec(c, s, chs);
            s'.recv == s.recv && s'.work == L.Exec(|c.backoffs|, s.work, cs) && FlowsGrow(s, s')
    decreases |cs|
  {
    hide Pipeline.Inv, Apply, L.Apply, L.Enabled;
    if cs == [] {
      chs := [];
    } else {
      assert L.Moves(cs[0], i);
      var ch := Work(i, cs[0].env);
      assert cs[0] == L.Act(i, cs[0].env);
      OneStep(c, s, ch);
      WorkGrows(c, s, i, cs[0].env);
      StepKeeps(c, s, ch);
      var rest := LiftWorker(c, Apply(c, s, ch), cs[1..], i);
      Join(c, s, [ch], rest);
      chs := [ch] + rest;
    }
  }

  // -- The three legs -----------------------------------------------------------------------------------

  predicate IsNewOrder(input: R.Input, p: Payload) {
    && (input.gateway == "grummer" || input.gateway == "lous") && input.json && input.payload == Some(p)
    && (input.gateway == "grummer" && input.encrypted ==> input.decrypts)
    && p.event == "order.approved" && p.sale.status == Approved
  }

  /** The webhook: accepted, answered 200, and on `lead.received`. */
  lemma Accepted(c: Sms.Settings, s: State, input: R.Input, p: Payload, eventId: Id) returns (chs: seq<Choice>)
    requires Pipeline.Inv(c, s) && IsNewOrder(input, p)
    requires var k := Key(input.gateway, p.transactionId, p.event);
             k !in s.recv.store.processed && forall j | 0 <= j < |s.recv.reqs| :: !R.Holds(s.recv.reqs[j], k)
    ensures Valid(c, s, chs)
    ensures var (s', n) := (Exec(c, s, chs), |s.recv.reqs|);
            && s'.work == s.work && s'.flows == s.flows
            && |s'.recv.reqs| == n + 1 && s'.recv.reqs[n].input == input && s'.recv.reqs[n].pc == R.Committed(200)
            && s'.recv.store.leadReceived == s.recv.store.leadReceived + [LeadMsg(eventId, input.gateway, p)]
  {
    var n := |s.recv.reqs|;
    var opening := Receive(R.Open(input));
    OneStep(c, s, opening);
    var s1 := Apply(c, s, opening);
    ReceiveKeeps(c, s, R.Open(input));
    assert s1.recv.reqs[n] == R.Arrive(input);
    var run := W.ServeRuns(s1.recv, n, W.NO_FAULTS, eventId);
    W.FaultFreeOutcome(s1.recv.store, input, eventId);
    ArrivalStays(s1.recv.store, input, eventId);
    var serving := LiftReceiver(c, s1, run);
    Join(c, s, [opening], serving);
    chs := [opening] + serving;
    hide Valid, W.Serve, R.Valid, R.Exec, Pipeline.Inv;
  }

  lemma ArrivalStays(st: R.Store, input: R.Input, eventId: Id)
    ensures W.Serve(st, R.Arrive(input), W.NO_FAULTS, eventId).1.input == input
  {
    W.InputStays(st, R.Arrive(input), W.NO_FAULTS, eventId);
  }

  lemma AllFour(log: seq<L.DistMsg>, o: Id, e: string)
    ensures L.Sent(log + G.FourMessages(o, e), o, e) == L.Sent(log, o, e) + [SMS, EMAIL, CALL_CENTER, WHATSAPP]
  {
    var msgs := G.FourMessages(o, e);
    L.SentAppend(log, msgs[0], o, e);
    L.SentAppend(log + [msgs[0]], msgs[1], o, e);
    L.SentAppend(log + [msgs[0]] + [msgs[1]], msgs[2], o, e);
    L.SentAppend(log + [msgs[0]] + [msgs[1]] + [msgs[2]], msgs[3], o, e);
    assert log + msgs == log + [msgs[0]] + [msgs[1]] + [msgs[2]] + [msgs[3]];
  }

  /** The lead delivery: stored, acknowledged, and published on all four channels. */
  lemma Stored(c: Sms.Settings, s: State, n: nat, ids: Ids) returns (chs: seq<Choice>, o: Id)
    requires Pipeline.Inv(c, s) && n < |s.recv.store.leadReceived| && Fresh(s.work.tables, ids)
    requires var m := s.recv.store.leadReceived[n];
             m.eventId !in s.work.tables.events && !Recorded(s.work.tables, KeyOf(m))
    ensures Valid(c, s, chs)
    ensures var (s', m, i) := (Exec(c, s, chs), s.recv.store.leadReceived[n], |s.work.deliveries|);
            && s'.recv == s.recv
            && s'.work.deliveries == s.work.deliveries + [L.Delivery(m, L.Acked)]
            && s'.work.log == s.work.log + G.FourMessages(o, m.payload.event)
            && Persisted(s'.work.tables, KeyOf(m))
            && OrderAt(s'.work.tables.orders, o, m.gateway, m.payload.transactionId)
            && HasEvent(s'.work.tables.events, o, m.payload.event)
            && o in s'.flows && JustPublished(s'.flows[o])
  {
    hide Pipeline.Inv, Valid, Exec, Apply, L.Apply, L.Valid, L.Exec, Call, Persisted, Recorded, Fresh,
         OrderAt, HasEvent, G.FourMessages;
    var (b, m, i) := (|c.backoffs|, s.recv.store.leadReceived[n], |s.work.deliveries|);
    var handing := Deliver(n);
    OneStep(c, s, handing);
    StepKeeps(c, s, handing);
    HandedOver(c, s, n);
    var s1 := Apply(c, s, handing);
    var a := D.Attempted(ids, LeadStore.Committed, [true, true, true, true, true]);
    var cs := D.AttemptRuns(b, s1.work, i, 0, L.Calling, a);
    var j := G.AttemptMeaning(s1.work.tables, s1.work.log, m, ids, LeadStore.Committed, a.oks);
    var working := LiftWorker(c, s1, cs, i);
    Join(c, s, [handing], working);
    chs := [handing] + working;
    ExecKeeps(c, s1, working);
    o := NewEvent(c, s, m, ids);
    assert j == 4 && G.FourMessages(o, m.payload.event)[..4] == G.FourMessages(o, m.payload.event);
    LeadIsOut(c, s1, Exec(c, s1, working), m, ids, o);
  }

  lemma HandedOver(c: Sms.Settings, s: State, n: nat)
    requires n < |s.recv.store.leadReceived|
    ensures Enabled(s, Deliver(n))
    ensures var m := s.recv.store.leadReceived[n];
            Apply(c, s, Deliver(n)) ==
            s.(work := s.work.(deliveries := s.work.deliveries + [L.Delivery(m, L.Running(0, L.Calling))]))
  {
  }

  /** The call for an event that is not stored yet returns a row that says so. */
  lemma NewEvent(c: Sms.Settings, s: State, m: LeadMsg, ids: Ids) returns (o: Id)
    requires Pipeline.Inv(c, s) && Fresh(s.work.tables, ids)
    requires m.eventId !in s.work.tables.events && !Recorded(s.work.tables, KeyOf(m))
    ensures var (t', r) := Call(s.work.tables, ids, m);
            && r.Row? && r.isNew && r.orderId == o
            && Persisted(t', KeyOf(m)) && OrderAt(t'.orders, o, m.gateway, m.payload.transactionId)
            && HasEvent(t'.events, o, m.payload.event)
            && !HasEvent(s.work.tables.events, o, m.payload.event)
  {
    CallMeaning(s.work.tables, ids, m);
    o := Call(s.work.tables, ids, m).1.orderId;
    hide Call, Recorded, Persisted, Fresh;
  }

  /** Publishing the SMS channel of a new event started the order's SMS message. */
  lemma LeadIsOut(c: Sms.Settings, s: State, s': State, m: LeadMsg, ids: Ids, o: Id)
    requires Pipeline.Inv(c, s) && Pipeline.Inv(c, s') && FlowsGrow(s, s') && m in s.recv.store.leadReceived
    requires !HasEvent(s.work.tables.events, o, m.payload.event)
    requires s'.work.log == s.work.log + G.FourMessages(o, m.payload.event)
    ensures o in s'.flows && JustPublished(s'.flows[o])
  {
    hide L.PublishersInv, L.OnePublisher, Schema.Inv, OneEventPerOrder, Provenance, F.TokenInv, G.FourMessages;
    assert Genuine(m);
    ApprovedEvent(m);
    assert L.LogOk(s.work, o, m.payload.event);
    AllFour(s.work.log, o, m.payload.event);
    assert FlowOk(c, s, o) && FlowOk(c, s', o);
  }

  /** The SMS: one post answered 200. */
  lemma Sent(c: Sms.Settings, s: State, o: Id) returns (chs: seq<Choice>)
    requires Pipeline.Inv(c, s) && o in s.flows && JustPublished(s.flows[o])
    ensures Valid(c, s, chs)
    ensures var s' := Exec(c, s, chs);
            && s'.recv == s.recv && s'.work == s.work.(tables := s'.work.tables)
            && s'.work.tables == s.work.tables.(dist := s'.work.tables.dist)
            && (exists p :: SmsRow(s'.work.tables.dist, o) == Some(p) && p.status == DELIVERED && p.attempts == 1)
  {
    hide Pipeline.Inv, Valid, Exec, Apply, SmsRow;
    var take := Send(o, F.Take(true));
    OneStep(c, s, take);
    StepKeeps(c, s, take);
    SendKeeps(c, s, o, F.Take(true));
    SendTouches(c, s, o, F.Take(true));
    var s1 := Apply(c, s, take);
    var post := Send(o, F.Act(0, Sms.Response(200), true));
    assert View(s1, o).flights == [F.InHandler(0, Sms.Posting)];
    OneStep(c, s1, post);
    StepKeeps(c, s1, post);
    SendKeeps(c, s1, o, post.ch);
    SendTouches(c, s1, o, post.ch);
    var s2 := Apply(c, s1, post);
    Join(c, s, [take], [post]);
    chs := [take] + [post];
    assert View(s2, o).delivered == 1;
    DeliveredRow(c, s2, o);
  }

  lemma SendTouches(c: Sms.Settings, s: State, o: Id, ch: F.Choice)
    requires Enabled(s, Send(o, ch))
    ensures var s' := Apply(c, s, Send(o, ch));
            && s'.recv == s.recv && s'.work == s.work.(tables := s'.work.tables) && o in s'.flows
            && s'.work.tables == s.work.tables.(dist := s'.work.tables.dist)
  {
    hide F.Apply, F.Enabled, View;
  }

  lemma DeliveredRow(c: Sms.Settings, s: State, o: Id)
    requires Pipeline.Inv(c, s) && o in s.flows && View(s, o).delivered == 1
    ensures exists p :: SmsRow(s.work.tables.dist, o) == Some(p) && p.status == DELIVERED && p.attempts == 1
  {
    hide R.Inv, L.WorkerInv, Provenance, OneEventPerOrder;
    assert FlowOk(c, s, o);
    var row := SmsRow(s.work.tables.dist, o);
    assert row == Some(row.value);
  }

  /** What it takes for an order to arrive, starting in `s`: it is a new approved order whose key the receiver
      and the worker do not know and nobody holds, and the ids are fresh. */
  ghost predicate CanStart(s: State, input: R.Input, p: Payload, eventId: Id, ids: Ids) {
    var k := Key(input.gateway, p.transactionId, p.event);
    && IsNewOrder(input, p)
    && k !in s.recv.store.processed && (forall j | 0 <= j < |s.recv.reqs| :: !R.Holds(s.recv.reqs[j], k))
    && Fresh(s.work.tables, ids) && eventId !in s.work.tables.events && !Recorded(s.work.tables, k)
  }

  /** From every reachable state, whatever is still in flight: a run takes a new approved order from its
      webhook request, answered 200, through storing its event and publishing its four messages, to an SMS
      row that says delivered. */
  lemma EveryOrderCanArrive(c: Sms.Settings, before: seq<Choice>, input: R.Input, p: Payload, eventId: Id, ids: Ids)
    returns (chs: seq<Choice>, o: Id)
    requires Valid(c, INITIAL, before) && CanStart(Exec(c, INITIAL, before), input, p, eventId, ids)
    ensures Valid(c, INITIAL, before + chs)
    ensures var (s, s') := (Exec(c, INITIAL, before), Exec(c, INITIAL, before + chs));
            var n := |s.recv.reqs|;
            && |s'.recv.reqs| == n + 1 && s'.recv.reqs[n].input == input && s'.recv.reqs[n].pc == R.Committed(200)
            && s'.work.deliveries == s.work.deliveries + [L.Delivery(LeadMsg(eventId, input.gateway, p), L.Acked)]
            && s'.work.log == s.work.log + G.FourMessages(o, p.event)
            && OrderAt(s'.work.tables.orders, o, input.gateway, p.transactionId)
            && HasEvent(s'.work.tables.events, o, p.event)
            && (exists q :: SmsRow(s'.work.tables.dist, o) == Some(q) && q.status == DELIVERED && q.attempts == 1)
  {
    hide Pipeline.Inv, Valid, Exec, Fresh, Recorded, Persisted, OrderAt, SmsRow, G.FourMessages, IsNewOrder;
    var s := Reached(c, before);
    var n := |s.recv.store.leadReceived|;
    var m := LeadMsg(eventId, input.gateway, p);
    var first := Accepted(c, s, input, p, eventId);
    var s1 := Exec(c, s, first);
    ExecKeeps(c, s, first);
    assert s1.recv.store.leadReceived[n] == m;
    var second;
    second, o := Stored(c, s1, n, ids);
    var s2 := Exec(c, s1, second);
    ExecKeeps(c, s1, second);
    var third := Sent(c, s2, o);
    Join(c, s1, second, third);
    Join(c, s, first, second + third);
    chs := first + (second + third);
    Join(c, INITIAL, before, chs);
  }
}
