/** Receiver, lead worker and SMS consumer over the shared tables and queues. */
module Pipeline {
  import opened Wrappers
  import opened Config
  import opened Schema
  import opened StoredProc
  import Sms
  import R = Receiver
  import L = LeadWorker
  import F = SmsFlow
  import B = SmsBounds
  import E = SmsExamples

  /** `flows` holds the SMS messages of each order; the rows they work on are in `work.tables`. */
  datatype State = State(recv: R.State, work: L.State, flows: map<Id, F.Flow>)

  const INITIAL := State(R.INITIAL, L.INITIAL, map[])

  /** A receiver step; a (re)delivery of any message ever enqueued on `lead.received`; a step of a lead
      delivery; a step of the SMS messages of an order. */
  datatype Choice = Receive(r: R.Choice) | Deliver(n: nat) | Work(i: nat, env: L.Env) | Send(order: Id, ch: F.Choice)

  /** The SMS messages of an order with the row they see. */
  ghost function View(s: State, o: Id): F.Flow {
    (if o in s.flows then s.flows[o] else F.Empty(None)).(row := SmsRow(s.work.tables.dist, o))
  }

  /** The order for which step `Work(i, env)` enqueues a `dist.sms` message, if it does. */
  function SmsEnqueued(s: State, i: nat, env: L.Env): Option<Id>
    requires i < |s.work.deliveries|
  {
    var stage := s.work.deliveries[i].stage;
    if stage.Running? && stage.pc.Publishing? && stage.pc.sent == 0 && env.ok then Some(stage.pc.orderId) else None
  }

  ghost predicate Enabled(s: State, c: Choice) {
    match c
    case Receive(r) => R.Enabled(s.recv, r)
    case Deliver(n) => n < |s.recv.store.leadReceived|
    case Work(i, env) => L.Enabled(s.work, L.Act(i, env))
    case Send(o, ch) => o in s.flows && !ch.Publish? && F.Enabled(View(s, o), ch)
  }

  /** The row update of an SMS step; an UPDATE without a matching row changes nothing. */
  function WriteRow(dist: Dists, o: Id, row: Option<Progress>): Dists {
    if row.Some? then UpdateSms(dist, o, row.value) else dist
  }

  ghost function Apply(c: Sms.Settings, s: State, ch: Choice): State
    requires Enabled(s, ch)
  {
    match ch
    case Receive(r) => s.(recv := R.Apply(s.recv, r))
    case Deliver(n) => s.(work := L.Apply(|c.backoffs|, s.work, L.Deliver(s.recv.store.leadReceived[n])))
    case Work(i, env) =>
      var work' := L.Apply(|c.backoffs|, s.work, L.Act(i, env));
      var sms := SmsEnqueued(s, i, env);
      if sms.None? then s.(work := work')
      else s.(work := work', flows := s.flows[sms.value := F.Apply(c, View(s, sms.value), F.Publish)])
    case Send(o, f) =>
      var flow' := F.Apply(c, View(s, o), f);
      var t := s.work.tables;
      State(s.recv, s.work.(tables := t.(dist := WriteRow(t.dist, o, flow'.row))), s.flows[o := flow'])
  }

  ghost predicate Valid(c: Sms.Settings, s: State, chs: seq<Choice>)
    decreases |chs|
  {
    chs == [] || (Enabled(s, chs[0]) && Valid(c, Apply(c, s, chs[0]), chs[1..]))
  }

  ghost function Exec(c: Sms.Settings, s: State, chs: seq<Choice>): State
    requires Valid(c, s, chs)
    decreases |chs|
  {
    if chs == [] then s else Exec(c, Apply(c, s, chs[0]), chs[1..])
  }

  // -- Invariant --------------------------------------------------------------------------------------

  predicate Genuine(m: LeadMsg) {
    IsApproved(m.payload) && m.gateway in VALID_GATEWAYS
  }

  /** Every lead at work or stored came from the receiver: approved, from a valid gateway. */
  ghost predicate Provenance(log: seq<LeadMsg>, w: L.State) {
    && (forall j | 0 <= j < |w.deliveries| :: w.deliveries[j].msg in log && Genuine(w.deliveries[j].msg))
    && (forall k | Recorded(w.tables, k) :: exists m :: m in log && KeyOf(m) == k)
  }

  /** Stored orders and events are approved ones, one event an order. */
  ghost predicate OneEventPerOrder(t: Tables) {
    && (forall o | o in t.orders :: t.orders[o].event == EVENT_ORDER_APPROVED && t.orders[o].sale.status == Approved
                                    && t.orders[o].gateway in VALID_GATEWAYS)
    && (forall o, e | HasEvent(t.events, o, e) :: e == EVENT_ORDER_APPROVED)
    && |t.events| == |t.orders|
  }

  /** An order has SMS messages exactly when the worker published its SMS channel; then there is one
      message and its row is there; otherwise the row is still as the procedure inserted it. */
  ghost predicate FlowOk(c: Sms.Settings, s: State, o: Id) {
    && (o in s.flows <==> L.Sent(s.work.log, o, EVENT_ORDER_APPROVED) != [])
    && (o in s.flows ==> F.TokenInv(c, View(s, o)))
    && (o in s.work.tables.orders && o !in s.flows ==> SmsRow(s.work.tables.dist, o) == Some(FRESH_PROGRESS))
  }

  ghost predicate FlowsInv(c: Sms.Settings, s: State) {
    forall o :: FlowOk(c, s, o)
  }

  ghost predicate Inv(c: Sms.Settings, s: State) {
    && R.Inv(s.recv) && L.WorkerInv(|c.backoffs|, s.work)
    && Provenance(s.recv.store.leadReceived, s.work) && OneEventPerOrder(s.work.tables)
    && FlowsInv(c, s)
  }

  // -- Receiver and broker steps ------------------------------------------------------------------------

  lemma ReceiveKeeps(c: Sms.Settings, s: State, r: R.Choice)
    requires Inv(c, s) && Enabled(s, Receive(r))
    ensures Inv(c, Apply(c, s, Receive(r)))
  {
    hide R.Inv, L.WorkerInv, OneEventPerOrder, F.TokenInv, Recorded, Genuine;
    R.StepKeeps(s.recv, r);
    var (log, log') := (s.recv.store.leadReceived, R.Apply(s.recv, r).store.leadReceived);
    assert forall m :: m in log ==> m in log';
    var s' := Apply(c, s, Receive(r));
    forall o ensures FlowOk(c, s', o) { assert FlowOk(c, s, o); }
  }

  lemma DeliverKeeps(c: Sms.Settings, s: State, n: nat)
    requires Inv(c, s) && Enabled(s, Deliver(n))
    ensures Inv(c, Apply(c, s, Deliver(n)))
  {
    hide L.WorkerInv, OneEventPerOrder, F.TokenInv, Recorded;
    var m := s.recv.store.leadReceived[n];
    assert Genuine(m);
    L.StepKeeps(|c.backoffs|, s.work, L.Deliver(m));
    var s' := Apply(c, s, Deliver(n));
    forall o ensures FlowOk(c, s', o) { assert FlowOk(c, s, o); }
  }

  // -- Lead worker steps --------------------------------------------------------------------------------

  /** Deliveries keep the message they carry. */
  lemma MessagesStay(b: nat, w: L.State, i: nat, env: L.Env)
    requires L.Enabled(w, L.Act(i, env))
    ensures var w' := L.Apply(b, w, L.Act(i, env));
            && |w'.deliveries| == |w.deliveries|
            && forall j | 0 <= j < |w.deliveries| :: w'.deliveries[j].msg == w.deliveries[j].msg
  {
  }

  /** An order whose SMS channel was published is stored. */
  lemma PublishedIsStored(c: Sms.Settings, s: State, o: Id)
    requires L.WorkerInv(|c.backoffs|, s.work) && FlowOk(c, s, o) && o in s.flows
    ensures o in s.work.tables.orders
  {
    assert L.LogOk(s.work, o, EVENT_ORDER_APPROVED);
    var i :| EventAt(s.work.tables.events, i, o, EVENT_ORDER_APPROVED);
  }

  /** A step that touches neither tables nor log. */
  lemma QuietLeadKeeps(c: Sms.Settings, s: State, i: nat, env: L.Env)
    requires Inv(c, s) && Enabled(s, Work(i, env))
    requires var w' := L.Apply(|c.backoffs|, s.work, L.Act(i, env)); w'.tables == s.work.tables && w'.log == s.work.log
    requires SmsEnqueued(s, i, env).None?
    ensures Inv(c, Apply(c, s, Work(i, env)))
  {
    hide R.Inv, L.WorkerInv, L.Apply, OneEventPerOrder, F.TokenInv, Recorded, Genuine;
    L.StepKeeps(|c.backoffs|, s.work, L.Act(i, env));
    MessagesStay(|c.backoffs|, s.work, i, env);
    var s' := Apply(c, s, Work(i, env));
    forall o ensures FlowOk(c, s', o) { assert FlowOk(c, s, o); }
  }

  /** The publish of the SMS channel starts the order's one SMS message. */
  lemma SmsPublishKeeps(c: Sms.Settings, s: State, i: nat, env: L.Env, o: Id)
    requires Inv(c, s) && Enabled(s, Work(i, env)) && SmsEnqueued(s, i, env) == Some(o)
    ensures FlowsInv(c, Apply(c, s, Work(i, env)))
  {
    hide R.Inv, OneEventPerOrder, Recorded, F.TokenInv, L.Apply, Genuine;
    var d := s.work.deliveries[i];
    var s' := Apply(c, s, Work(i, env));
    L.PublishStep(|c.backoffs|, s.work, i, env);
    assert L.PublisherOk(s.work, d);
    assert Genuine(d.msg);
    ApprovedEvent(d.msg);
    assert FlowOk(c, s, o);
    var j :| EventAt(s.work.tables.events, j, o, EVENT_ORDER_APPROVED);
    assert View(s', o) == B.START;
    StartIsToken(c);
    forall o' ensures FlowOk(c, s', o') { assert FlowOk(c, s, o'); }
  }

  lemma ApprovedEvent(m: LeadMsg)
    requires Genuine(m)
    ensures m.payload.event == EVENT_ORDER_APPROVED && m.payload.sale.status == Approved && m.gateway in VALID_GATEWAYS
  {
  }

  lemma StartIsToken(c: Sms.Settings)
    ensures F.TokenInv(c, B.START)
  {
  }

  /** Publishing another channel, or failing to publish, starts no SMS message. */
  lemma OtherPublishKeepsFlows(c: Sms.Settings, s: State, i: nat, env: L.Env)
    requires Inv(c, s) && Enabled(s, Work(i, env)) && L.IsPublisher(s.work.deliveries[i])
    requires SmsEnqueued(s, i, env).None?
    ensures FlowsInv(c, Apply(c, s, Work(i, env)))
  {
    hide R.Inv, OneEventPerOrder, Recorded, F.TokenInv, L.Apply, Genuine;
    var s' := Apply(c, s, Work(i, env));
    L.PublishStep(|c.backoffs|, s.work, i, env);
    assert L.PublisherOk(s.work, s.work.deliveries[i]);
    forall o' ensures FlowOk(c, s', o') { assert FlowOk(c, s, o'); }
  }

  lemma PublishWorkKeeps(c: Sms.Settings, s: State, i: nat, env: L.Env)
    requires Inv(c, s) && Enabled(s, Work(i, env)) && L.IsPublisher(s.work.deliveries[i])
    ensures Inv(c, Apply(c, s, Work(i, env)))
  {
    hide R.Inv, L.WorkerInv, L.Apply, OneEventPerOrder, Recorded, Genuine, FlowsInv;
    L.StepKeeps(|c.backoffs|, s.work, L.Act(i, env));
    L.PublishStep(|c.backoffs|, s.work, i, env);
    MessagesStay(|c.backoffs|, s.work, i, env);
    if SmsEnqueued(s, i, env).Some? {
      SmsPublishKeeps(c, s, i, env, SmsEnqueued(s, i, env).value);
    } else {
      OtherPublishKeepsFlows(c, s, i, env);
    }
  }

  /** With approved messages only, a call adds an event exactly when it adds an order. */
  lemma OneEventAfterCall(t: Tables, m: LeadMsg, t': Tables, r: Reply)
    requires Schema.Inv(t) && OneEventPerOrder(t) && Genuine(m) && r.Row? && Resolves(t, m, t', r) && Extends(t, t')
    ensures OneEventPerOrder(t')
  {
    hide Genuine, IsApproved, UniqueKeys, LeadAt, ExtendsLeads, ExtendsEvents, ExtendsDist, HasEvent, HasDist;
    ApprovedEvent(m);
    var o := r.orderId;
    if o in t.orders {
      assert HasSomeEvent(t.events, o);
      var e :| HasEvent(t.events, o, e);
      assert HasEvent(t.events, o, EVENT_ORDER_APPROVED);
    } else {
      Unreferenced(t, o);
    }
  }

  lemma CallTables(b: nat, w: L.State, i: nat, env: L.Env)
    requires L.Enabled(w, L.Act(i, env)) && w.deliveries[i].stage.Running? && w.deliveries[i].stage.pc.Calling?
    ensures var w' := L.Apply(b, w, L.Act(i, env));
            && w'.log == w.log
            && w'.tables == if env.ending.RolledBack? then w.tables else Call(w.tables, env.ids, w.deliveries[i].msg).0
  {
  }

  /** Flows see the same rows after a call: theirs are untouched, new orders have fresh ones. */
  lemma CallKeepsFlows(c: Sms.Settings, s: State, s': State, t': Tables)
    requires L.WorkerInv(|c.backoffs|, s.work) && FlowsInv(c, s)
    requires s'.flows == s.flows && s'.work.log == s.work.log && s'.work.tables == t' && KeepsTables(s.work.tables, t')
    ensures FlowsInv(c, s')
  {
    hide L.HandlingInv, F.TokenInv, Schema.Inv, Extends;
    forall o
      ensures FlowOk(c, s', o)
    {
      assert FlowOk(c, s, o);
      if o in s.flows { PublishedIsStored(c, s, o); }
    }
  }

  lemma CallKeepsProvenance(log: seq<LeadMsg>, w: L.State, w': L.State, m: LeadMsg, isNew: bool)
    requires Provenance(log, w) && m in log && AddsKey(w.tables, KeyOf(m), w'.tables, isNew)
    requires |w'.deliveries| == |w.deliveries|
    requires forall j | 0 <= j < |w.deliveries| :: w'.deliveries[j].msg == w.deliveries[j].msg
    ensures Provenance(log, w')
  {
    hide Recorded, Persisted, Genuine;
  }

  lemma CallWorkKeeps(c: Sms.Settings, s: State, i: nat, env: L.Env)
    requires Inv(c, s) && Enabled(s, Work(i, env))
    requires s.work.deliveries[i].stage.Running? && s.work.deliveries[i].stage.pc.Calling?
    ensures Inv(c, Apply(c, s, Work(i, env)))
  {
    hide R.Inv, L.HandlingInv, L.Apply, Call, Fresh, Schema.Inv, OneEventPerOrder, KeepsTables,
         Resolves, AddsKey, FlowsInv, Extends;
    L.StepKeeps(|c.backoffs|, s.work, L.Act(i, env));
    MessagesStay(|c.backoffs|, s.work, i, env);
    CallTables(|c.backoffs|, s.work, i, env);
    var s' := Apply(c, s, Work(i, env));
    var (t, m) := (s.work.tables, s.work.deliveries[i].msg);
    var (t', r) := Call(t, env.ids, m);
    EnabledCallIsFresh(s.work, i, env);
    CallMeaning(t, env.ids, m);
    if env.ending.RolledBack? || r.SqlError? {
      QuietLeadKeeps(c, s, i, env);
    } else {
      CallKeepsFlows(c, s, s', t');
      CallKeepsProvenance(s.recv.store.leadReceived, s.work, s'.work, m, r.isNew);
      CallExtends(t, t');
      OneEventAfterCall(t, m, t', r);
    }
  }

  lemma EnabledCallIsFresh(w: L.State, i: nat, env: L.Env)
    requires L.Enabled(w, L.Act(i, env)) && w.deliveries[i].stage.Running? && w.deliveries[i].stage.pc.Calling?
    ensures Fresh(w.tables, env.ids)
  {
  }

  lemma CallExtends(t: Tables, t': Tables)
    requires KeepsTables(t, t')
    ensures Extends(t, t')
  {
  }

  // -- SMS steps ------------------------------------------------------------------------------------------

  /** What the lead worker says about its deliveries does not depend on the SMS rows. */
  lemma RowUpdateKeepsWorker(b: nat, w: L.State, o: Id, p: Progress)
    requires L.HandlingInv(b, w)
    ensures L.HandlingInv(b, w.(tables := w.tables.(dist := UpdateSms(w.tables.dist, o, p))))
  {
    var w' := w.(tables := w.tables.(dist := UpdateSms(w.tables.dist, o, p)));
    UpdateSmsShape(w.tables.dist, o, p);
    ExtendsKeeps(w.tables, w'.tables);
    L.SamePublishers(w, w');
  }

  lemma RecordedIgnoresDist(t: Tables, dist: Dists)
    ensures forall k :: Recorded(t.(dist := dist), k) == Recorded(t, k)
  {
  }

  lemma SendKeeps(c: Sms.Settings, s: State, o: Id, ch: F.Choice)
    requires Inv(c, s) && Enabled(s, Send(o, ch))
    ensures Inv(c, Apply(c, s, Send(o, ch)))
    ensures View(Apply(c, s, Send(o, ch)), o) == F.Apply(c, View(s, o), ch)
  {
    hide R.Inv, L.HandlingInv, F.TokenInv, F.Apply, F.Enabled, Schema.Inv, Recorded, Genuine, UpdateSms, Extends;
    assert FlowOk(c, s, o);
    F.StepKeeps(c, View(s, o), ch);
    var flow' := F.Apply(c, View(s, o), ch);
    TokenHasRow(c, flow');
    TokenHasRow(c, View(s, o));
    var p := flow'.row.value;
    var t := s.work.tables;
    var s' := Apply(c, s, Send(o, ch));
    UpdateSmsKeeps(t, o, p);
    RowUpdateKeepsWorker(|c.backoffs|, s.work, o, p);
    RecordedIgnoresDist(t, s'.work.tables.dist);
    assert View(s', o) == flow';
    forall o' ensures FlowOk(c, s', o') { assert FlowOk(c, s, o'); }
  }

  lemma TokenHasRow(c: Sms.Settings, f: F.Flow)
    requires F.TokenInv(c, f)
    ensures f.row.Some?
  {
  }

  // -- Every run ------------------------------------------------------------------------------------------

  lemma StepKeeps(c: Sms.Settings, s: State, ch: Choice)
    requires Inv(c, s) && Enabled(s, ch)
    ensures Inv(c, Apply(c, s, ch))
  {
    hide Inv;
    match ch
    case Receive(r) => ReceiveKeeps(c, s, r);
    case Deliver(n) => DeliverKeeps(c, s, n);
    case Send(o, f) => SendKeeps(c, s, o, f);
    case Work(i, env) => WorkKeeps(c, s, i, env);
  }

  lemma WorkKeeps(c: Sms.Settings, s: State, i: nat, env: L.Env)
    requires Inv(c, s) && Enabled(s, Work(i, env))
    ensures Inv(c, Apply(c, s, Work(i, env)))
  {
    hide Inv;
    var stage := s.work.deliveries[i].stage;
    if stage.Running? && stage.pc.Calling? {
      CallWorkKeeps(c, s, i, env);
    } else if stage.Running? && stage.pc.Publishing? {
      PublishWorkKeeps(c, s, i, env);
    } else {
      QuietLeadKeeps(c, s, i, env);
    }
  }

  lemma {:induction false} ExecKeeps(c: Sms.Settings, s: State, chs: seq<Choice>)
    requires Inv(c, s) && Valid(c, s, chs)
    ensures Inv(c, Exec(c, s, chs))
    decreases |chs|
  {
    hide Inv, Apply;
    if chs == [] {
    } else {
      StepKeeps(c, s, chs[0]);
      ExecKeeps(c, Apply(c, s, chs[0]), chs[1..]);
    }
  }

  lemma InitialHolds(c: Sms.Settings)
    ensures Inv(c, INITIAL)
  {
    L.InitialHolds(|c.backoffs|);
    forall o ensures FlowOk(c, INITIAL, o) {}
  }

  ghost function Reached(c: Sms.Settings, chs: seq<Choice>): (s: State)
    requires Valid(c, INITIAL, chs)
    ensures Inv(c, s)
  {
    InitialHolds(c);
    ExecKeeps(c, INITIAL, chs);
    Exec(c, INITIAL, chs)
  }

  /** End-to-end counts and provenance: in every reachable database there are as many events as orders,
      four status rows an order, and every order is an approved one of a valid gateway. */
  lemma CountsAndProvenance(c: Sms.Settings, chs: seq<Choice>)
    requires Valid(c, INITIAL, chs)
    ensures var t := Exec(c, INITIAL, chs).work.tables;
            && Schema.Inv(t)
            && |t.orders| == |t.events| && |t.dist| == 4 * |t.orders|
            && (forall o | o in t.orders ::
                  && t.orders[o].event == "order.approved" && t.orders[o].sale.status == Approved
                  && (t.orders[o].gateway == "grummer" || t.orders[o].gateway == "lous"))
  {
    var s := Reached(c, chs);
  }

  /** Nothing is stored that no request published: behind every recorded event stands a webhook request
      with that key whose publish went through. */
  lemma StoredWasPublished(c: Sms.Settings, chs: seq<Choice>, k: Key)
    requires Valid(c, INITIAL, chs) && Recorded(Exec(c, INITIAL, chs).work.tables, k)
    ensures var reqs := Exec(c, INITIAL, chs).recv.reqs;
            exists i :: 0 <= i < |reqs| && R.PublishedFor(reqs[i], k)
  {
    hide R.Inv, L.WorkerInv, OneEventPerOrder, FlowsInv, Recorded;
    var s := Reached(c, chs);
    var m :| m in s.recv.store.leadReceived && KeyOf(m) == k;
    var i := R.MessageHasPublisher(s.recv, m);
  }

  /** In every reachable state, an order with SMS messages (queued, in flight or ended) is stored and has
      its committed SMS row, so the fallback for a missing row is never taken; it has exactly one SMS
      message, and the row says delivered exactly when that message ended as delivered. */
  lemma SmsRowAlwaysThere(c: Sms.Settings, chs: seq<Choice>, o: Id)
    requires Valid(c, INITIAL, chs) && o in Exec(c, INITIAL, chs).flows
    ensures var s := Exec(c, INITIAL, chs);
            && o in s.work.tables.orders && SmsRow(s.work.tables.dist, o).Some?
            && F.Tokens(View(s, o)) == 1 && View(s, o).dead <= 1
            && (SmsRow(s.work.tables.dist, o).value.status == DELIVERED <==> View(s, o).delivered == 1)
  {
    hide R.Inv, Provenance, OneEventPerOrder, Schema.Inv;
    var s := Reached(c, chs);
    assert FlowOk(c, s, o);
    StoredFlow(c, s, o);
  }

  lemma StoredFlow(c: Sms.Settings, s: State, o: Id)
    requires Inv(c, s) && o in s.flows
    ensures o in s.work.tables.orders
  {
    hide R.Inv, Provenance, OneEventPerOrder, F.TokenInv;
    assert FlowOk(c, s, o);
    PublishedIsStored(c, s, o);
  }

  /** The cost bounds of one SMS message hold for every order of every run of the whole pipeline. */
  lemma SmsCostInPipeline(c: Sms.Settings, chs: seq<Choice>, o: Id)
    requires Valid(c, INITIAL, chs) && o in Exec(c, INITIAL, chs).flows
    ensures var f := View(Exec(c, INITIAL, chs), o);
            && f.calls <= (F.Ceiling(c) + 1) * (|c.backoffs| + 1)
            && f.slept <= (F.Ceiling(c) + 1) * Sum(c.backoffs)
            && f.row.Some? && 0 <= f.row.value.attempts <= F.Ceiling(c) + |c.backoffs| + 1
  {
    hide R.Inv, L.WorkerInv, Provenance, OneEventPerOrder, Exec, Valid;
    var s := Reached(c, chs);
    assert FlowOk(c, s, o);
    B.BoundsGrow(c, View(s, o));
  }

  /** With at most as many retries as backoffs, no SMS message of any run looks up a backoff that is not there. */
  lemma LookupAlwaysInRange(c: Sms.Settings, chs: seq<Choice>, o: Id)
    requires Valid(c, INITIAL, chs) && o in Exec(c, INITIAL, chs).flows && c.maxRetries <= |c.backoffs|
    ensures E.LookupInRange(c, View(Exec(c, INITIAL, chs), o))
  {
    hide R.Inv, L.WorkerInv, Provenance, OneEventPerOrder, Exec, Valid;
    var s := Reached(c, chs);
    assert FlowOk(c, s, o);
  }

  // -- How long the SMS message of an order is at work ----------------------------------------------------

  function StepBound(c: Sms.Settings): nat {
    (F.Ceiling(c) + 1) * (5 * (|c.backoffs| + 1) + 3)
  }

  /** Steps the SMS message of an order can still take; all of them, before it is published. */
  function Left(c: Sms.Settings, s: State, o: Id): int {
    if o in s.flows then B.Rank(c, s.flows[o]) else StepBound(c)
  }

  predicate Moves(ch: Choice, o: Id) {
    ch.Send? && ch.order == o
  }

  lemma RankIgnoresRow(c: Sms.Settings, s: State, o: Id)
    requires o in s.flows
    ensures B.Rank(c, View(s, o)) == B.Rank(c, s.flows[o])
  {
  }

  lemma LeftRange(c: Sms.Settings, s: State, o: Id)
    requires Inv(c, s)
    ensures 0 <= Left(c, s, o) <= StepBound(c)
  {
    hide R.Inv, L.WorkerInv, Provenance, OneEventPerOrder, F.TokenInv, B.Rank;
    if o in s.flows {
      assert FlowOk(c, s, o);
      RankIgnoresRow(c, s, o);
      B.RankRange(c, View(s, o));
    }
  }

  /** An SMS channel is published for an order that has no SMS message yet. */
  lemma EnqueuedIsNew(c: Sms.Settings, s: State, i: nat, env: L.Env)
    requires Inv(c, s) && Enabled(s, Work(i, env)) && SmsEnqueued(s, i, env).Some?
    ensures SmsEnqueued(s, i, env).value !in s.flows
  {
    hide R.Inv, OneEventPerOrder, F.TokenInv, Recorded;
    var d := s.work.deliveries[i];
    assert L.PublisherOk(s.work, d) && Genuine(d.msg);
    ApprovedEvent(d.msg);
    assert FlowOk(c, s, SmsEnqueued(s, i, env).value);
  }

  /** Only the order's own SMS steps use up what is left, and each uses up some. */
  lemma StepUses(c: Sms.Settings, s: State, ch: Choice, o: Id)
    requires Inv(c, s) && Enabled(s, ch)
    ensures Left(c, Apply(c, s, ch), o) + One(Moves(ch, o)) <= Left(c, s, o)
  {
    hide Inv, L.Apply, R.Apply, F.Apply, F.Enabled, F.TokenInv, FlowsInv, B.Rank;
    if ch.Work? && SmsEnqueued(s, ch.i, ch.env).Some? {
      EnqueuedIsNew(c, s, ch.i, ch.env);
      PublishedFlowIsFresh(c, s, SmsEnqueued(s, ch.i, ch.env).value);
    } else if Moves(ch, o) {
      SendUses(c, s, o, ch.ch);
    }
  }

  lemma PublishedFlowIsFresh(c: Sms.Settings, s: State, o: Id)
    requires o !in s.flows
    ensures B.Rank(c, F.Apply(c, View(s, o), F.Publish)) == StepBound(c)
  {
  }

  lemma SendUses(c: Sms.Settings, s: State, o: Id, ch: F.Choice)
    requires Inv(c, s) && Enabled(s, Send(o, ch))
    ensures B.Rank(c, F.Apply(c, View(s, o), ch)) < B.Rank(c, s.flows[o])
  {
    hide R.Inv, L.WorkerInv, Provenance, OneEventPerOrder, F.TokenInv, F.Apply, F.Enabled, B.Rank;
    assert FlowOk(c, s, o);
    RankIgnoresRow(c, s, o);
    B.RankFalls(c, View(s, o), ch);
  }

  lemma {:induction false} SendsBounded(c: Sms.Settings, s: State, chs: seq<Choice>, o: Id)
    requires Inv(c, s) && Valid(c, s, chs)
    ensures Count(chs, (ch: Choice) => Moves(ch, o)) + Left(c, Exec(c, s, chs), o) <= Left(c, s, o)
    decreases |chs|
  {
    hide Inv, Apply, Left, Moves;
    if chs == [] {
    } else {
      StepUses(c, s, chs[0], o);
      StepKeeps(c, s, chs[0]);
      SendsBounded(c, Apply(c, s, chs[0]), chs[1..], o);
      CountHead(chs, (ch: Choice) => Moves(ch, o));
    }
  }

  /** SMS termination in the whole pipeline: in any run, whatever else happens in between, the SMS message
      of an order makes at most (D + 1) * (5 * (B + 1) + 3) steps, and until it has ended it can move. */
  lemma SmsEndsInPipeline(c: Sms.Settings, chs: seq<Choice>, o: Id)
    requires Valid(c, INITIAL, chs)
    ensures Count(chs, (ch: Choice) => Moves(ch, o)) <= StepBound(c)
    ensures var s := Exec(c, INITIAL, chs);
            o in s.flows && !B.IsOver(View(s, o)) ==> exists f :: Enabled(s, Send(o, f))
  {
    hide R.Inv, L.WorkerInv, Provenance, OneEventPerOrder, Exec, Valid, Left, Moves, F.TokenInv, F.Enabled;
    InitialHolds(c);
    var s := Reached(c, chs);
    SendsBounded(c, INITIAL, chs, o);
    LeftRange(c, INITIAL, o);
    LeftRange(c, s, o);
    assert FlowOk(c, s, o);
    if o in s.flows && !B.IsOver(View(s, o)) {
      B.NeverStuck(c, View(s, o));
      var f :| F.Enabled(View(s, o), f) && !f.Publish?;
      assert Enabled(s, Send(o, f));
    }
  }
}
