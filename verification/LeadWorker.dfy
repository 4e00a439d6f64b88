/** Consumption of `lead.received` (consumers.py `process_lead`, main.py `handle_lead`) inside the
    retry and dead-letter middlewares, interleaved over any number of deliveries. */
module LeadWorker {
  import opened Wrappers
  import opened Config
  import opened Schema
  import opened StoredProc
  import opened LeadStore
  import Retry

  /** A distribution message: which order and event it is for, and on which channel. */
  datatype DistMsg = DistMsg(orderId: Id, event: string, channel: Channel)

  // -- One attempt of the handler ---------------------------------------------------------------

  /** Where an attempt stands: about to call the procedure, about to publish channel `sent`, about
      to leave the session block (whose commit has nothing pending). */
  datatype Pc = Calling | Publishing(orderId: Id, sent: nat) | Closing

  datatype Next = Continue(pc: Pc) | Returned | Raised

  /** What the environment decides about one step. */
  datatype Env = Env(ids: Ids, ending: Ending, ok: bool)

  ghost function HandlerStep(t: Tables, log: seq<DistMsg>, m: LeadMsg, pc: Pc, env: Env): (Tables, seq<DistMsg>, Next)
    requires pc.Publishing? ==> pc.sent < |CHANNELS|
  {
    match pc
    case Calling =>
      if env.ending.RolledBack? then (t, log, Raised)
      else
        var (t', r) := Call(t, env.ids, m);
        if r.SqlError? || env.ending.ReplyLost? then (t', log, Raised)
        else if r.isNew then (t', log, Continue(Publishing(r.orderId, 0)))
        else (t', log, Continue(Closing))
    case Publishing(o, n) =>
      if !env.ok then (t, log, Raised)
      else (t, log + [DistMsg(o, m.payload.event, CHANNELS[n])],
            Continue(if n + 1 < |CHANNELS| then Publishing(o, n + 1) else Closing))
    case Closing =>
      (t, log, if env.ok then Returned else Raised)
  }

  // -- All deliveries -------------------------------------------------------------------------------

  /** A delivery: in its `attempt`-th handler call, given up by the retry loop (the dead-letter
      publish is still to come), or over. */
  datatype Stage = Running(attempt: nat, pc: Pc) | GivenUp | Acked | DeadLettered | Dropped

  datatype Delivery = Delivery(msg: LeadMsg, stage: Stage)

  /** `log` is everything published to the distribution queues; `dead` the records on
      `lead.dead.consumer_failed`, named by their delivery. `lost` is history: the (order, event)
      pairs whose one publisher raised before it was done. */
  datatype State = State(tables: Tables, log: seq<DistMsg>, deliveries: seq<Delivery>,
                         dead: seq<nat>, lost: set<(Id, string)>)

  /** The broker hands a message over (any message, any number of times), or a delivery moves. */
  datatype Choice = Deliver(msg: LeadMsg) | Act(i: nat, env: Env)

  const INITIAL := State(EMPTY, [], [], [], {})

  predicate Over(stage: Stage) {
    stage.Acked? || stage.DeadLettered? || stage.Dropped?
  }

  predicate Enabled(s: State, c: Choice) {
    match c
    case Deliver(_) => true
    case Act(i, env) =>
      && i < |s.deliveries|
      && var stage := s.deliveries[i].stage;
      && !Over(stage)
      && (stage.Running? && stage.pc.Publishing? ==> stage.pc.sent < |CHANNELS|)
      && (stage.Running? && stage.pc.Calling? ==> Fresh(s.tables, env.ids))
  }

  /** The retry middleware's answer to a raise. */
  function AfterRaise(b: nat, attempt: nat): Stage {
    match Retry.NextAttempt(b, attempt, false)
    case Some(k) => Running(k, Calling)
    case None => GivenUp
  }

  /** The pairs a raise takes out: a publisher's own, or one just committed with the reply lost. */
  ghost function LostBy(t: Tables, m: LeadMsg, pc: Pc, env: Env): set<(Id, string)> {
    match pc
    case Publishing(o, _) => {(o, m.payload.event)}
    case Calling =>
      if env.ending.ReplyLost? && Call(t, env.ids, m).1.Row? && Call(t, env.ids, m).1.isNew then
        {(Call(t, env.ids, m).1.orderId, m.payload.event)}
      else {}
    case Closing => {}
  }

  /** One step, with `b` backoffs configured. */
  ghost function Apply(b: nat, s: State, c: Choice): State
    requires Enabled(s, c)
  {
    match c
    case Deliver(m) => s.(deliveries := s.deliveries + [Delivery(m, Running(0, Calling))])
    case Act(i, env) =>
      var d := s.deliveries[i];
      if d.stage.GivenUp? then
        if env.ok then s.(deliveries := s.deliveries[i := d.(stage := DeadLettered)], dead := s.dead + [i])
        else s.(deliveries := s.deliveries[i := d.(stage := Dropped)])
      else
        var (t', log', next) := HandlerStep(s.tables, s.log, d.msg, d.stage.pc, env);
        var (stage', lost') := match next
          case Continue(pc') => (Running(d.stage.attempt, pc'), {})
          case Returned => (Acked, {})
          case Raised => (AfterRaise(b, d.stage.attempt), LostBy(s.tables, d.msg, d.stage.pc, env));
        State(t', log', s.deliveries[i := d.(stage := stage')], s.dead, s.lost + lost')
  }

  ghost predicate Valid(b: nat, s: State, cs: seq<Choice>)
    decreases |cs|
  {
    cs == [] || (Enabled(s, cs[0]) && Valid(b, Apply(b, s, cs[0]), cs[1..]))
  }

  ghost function Exec(b: nat, s: State, cs: seq<Choice>): State
    requires Valid(b, s, cs)
    decreases |cs|
  {
    if cs == [] then s else Exec(b, Apply(b, s, cs[0]), cs[1..])
  }

  // -- Invariant --------------------------------------------------------------------------------------

  /** The channels published for one (order, event), in order. */
  function Sent(log: seq<DistMsg>, o: Id, e: string): seq<Channel> {
    if log == [] then []
    else
      var last := log[|log| - 1];
      Sent(log[..|log| - 1], o, e) + if last.orderId == o && last.event == e then [last.channel] else []
  }

  lemma SentAppend(log: seq<DistMsg>, x: DistMsg, o: Id, e: string)
    ensures Sent(log + [x], o, e) == Sent(log, o, e) + if x.orderId == o && x.event == e then [x.channel] else []
  {
    assert (log + [x])[..|log|] == log;
  }

  predicate IsPublisher(d: Delivery) {
    d.stage.Running? && d.stage.pc.Publishing?
  }

  /** The (order, event) pair a publisher works on. */
  function Pair(d: Delivery): (Id, string)
    requires IsPublisher(d)
  {
    (d.stage.pc.orderId, d.msg.payload.event)
  }

  predicate PublishesAt(s: State, i: nat, o: Id, e: string) {
    i < |s.deliveries| && IsPublisher(s.deliveries[i]) && Pair(s.deliveries[i]) == (o, e)
  }

  ghost predicate HasPublisher(s: State, o: Id, e: string) {
    exists i: nat :: PublishesAt(s, i, o, e)
  }

  /** A publisher's event is stored and what was published for it is exactly its progress. */
  ghost predicate PublisherOk(s: State, d: Delivery)
    requires IsPublisher(d)
  {
    var ((o, e), n) := (Pair(d), d.stage.pc.sent);
    n < |CHANNELS| && Sent(s.log, o, e) == CHANNELS[..n] && (o, e) !in s.lost && HasEvent(s.tables.events, o, e)
  }

  ghost predicate PublishersInv(s: State) {
    forall i | 0 <= i < |s.deliveries| && IsPublisher(s.deliveries[i]) :: PublisherOk(s, s.deliveries[i])
  }

  /** No (order, event) has two publishers. */
  ghost predicate OnePublisher(s: State) {
    forall i: nat, j: nat, o, e | PublishesAt(s, i, o, e) && PublishesAt(s, j, o, e) :: i == j
  }

  /** What was published for a pair is a prefix of the channel list; it is the whole list, unless the
      publisher is still at work or raised. Nothing is published for a pair that is not stored. */
  ghost predicate LogOk(s: State, o: Id, e: string) {
    && Sent(s.log, o, e) <= CHANNELS
    && (!HasEvent(s.tables.events, o, e) ==> Sent(s.log, o, e) == [] && (o, e) !in s.lost)
    && ((o, e) in s.lost ==> Sent(s.log, o, e) != CHANNELS)
    && (HasEvent(s.tables.events, o, e) ==>
          Sent(s.log, o, e) == CHANNELS || (o, e) in s.lost || HasPublisher(s, o, e))
  }

  ghost predicate LogInv(s: State) {
    forall o, e :: LogOk(s, o, e)
  }

  predicate PastCall(stage: Stage) {
    stage.Acked? || (stage.Running? && !stage.pc.Calling?)
  }

  /** A delivery that got past the procedure has its lead stored. */
  ghost predicate AckedInv(s: State) {
    forall i | 0 <= i < |s.deliveries| && PastCall(s.deliveries[i].stage) ::
      Persisted(s.tables, KeyOf(s.deliveries[i].msg))
  }

  /** One dead-letter record for each delivery that ended dead-lettered, none for any other. */
  ghost predicate DeadInv(s: State) {
    forall i :: multiset(s.dead)[i] == if 0 <= i < |s.deliveries| && s.deliveries[i].stage.DeadLettered? then 1 else 0
  }

  predicate AttemptsInv(b: nat, s: State) {
    forall i | 0 <= i < |s.deliveries| && s.deliveries[i].stage.Running? :: s.deliveries[i].stage.attempt <= b
  }

  ghost predicate HandlingInv(b: nat, s: State) {
    && PublishersInv(s) && OnePublisher(s) && LogInv(s)
    && AckedInv(s) && DeadInv(s) && AttemptsInv(b, s)
  }

  ghost predicate WorkerInv(b: nat, s: State) {
    Inv(s.tables) && HandlingInv(b, s)
  }

  /** When the publishers, tables, log and history are the same, so is what is said about them. */
  lemma SamePublishers(s: State, s': State)
    requires LogInv(s) && s'.tables.events == s.tables.events && s'.log == s.log && s'.lost == s.lost
    requires forall i: nat, o, e :: PublishesAt(s', i, o, e) == PublishesAt(s, i, o, e)
    ensures LogInv(s')
  {
    forall o, e
      ensures LogOk(s', o, e)
    {
      assert LogOk(s, o, e);
      if HasPublisher(s, o, e) {
        var i: nat :| PublishesAt(s, i, o, e);
        assert PublishesAt(s', i, o, e);
      }
    }
  }

  lemma DeliverKeeps(b: nat, s: State, m: LeadMsg)
    requires HandlingInv(b, s)
    ensures HandlingInv(b, Apply(b, s, Deliver(m)))
  {
    SamePublishers(s, Apply(b, s, Deliver(m)));
  }

  lemma DeadLetterKeeps(b: nat, s: State, i: nat, env: Env)
    requires HandlingInv(b, s) && Enabled(s, Act(i, env)) && s.deliveries[i].stage.GivenUp?
    ensures HandlingInv(b, Apply(b, s, Act(i, env)))
  {
    SamePublishers(s, Apply(b, s, Act(i, env)));
  }

  /** Handler steps that touch neither tables nor log: leaving the session, a call rolled back. */
  lemma QuietKeeps(b: nat, s: State, i: nat, env: Env)
    requires HandlingInv(b, s) && Enabled(s, Act(i, env)) && s.deliveries[i].stage.Running?
    requires var pc := s.deliveries[i].stage.pc; pc.Closing? || (pc.Calling? && env.ending.RolledBack?)
    ensures HandlingInv(b, Apply(b, s, Act(i, env)))
  {
    SamePublishers(s, Apply(b, s, Act(i, env)));
  }

  /** What a publish step does: one channel more in the log, or the pair is lost. */
  ghost predicate Published(b: nat, s: State, i: nat, ok: bool, s': State)
    requires i < |s.deliveries| && IsPublisher(s.deliveries[i])
  {
    var d := s.deliveries[i];
    var ((o, e), n) := (Pair(d), d.stage.pc.sent);
    && n < |CHANNELS|
    && s'.tables == s.tables && s'.dead == s.dead && |s'.deliveries| == |s.deliveries|
    && s'.deliveries[i].msg == d.msg
    && (forall j | 0 <= j < |s.deliveries| && j != i :: s'.deliveries[j] == s.deliveries[j])
    && (forall o', e' :: Sent(s'.log, o', e') ==
          Sent(s.log, o', e') + if ok && o' == o && e' == e then [CHANNELS[n]] else [])
    && s'.lost == s.lost + (if ok then {} else {(o, e)})
    && s'.deliveries[i].stage == (if !ok then AfterRaise(b, d.stage.attempt)
                                  else Running(d.stage.attempt,
                                                if n + 1 < |CHANNELS| then Publishing(o, n + 1) else Closing))
  }

  lemma PublishStep(b: nat, s: State, i: nat, env: Env)
    requires Enabled(s, Act(i, env)) && IsPublisher(s.deliveries[i])
    ensures Published(b, s, i, env.ok, Apply(b, s, Act(i, env)))
  {
    var s' := Apply(b, s, Act(i, env));
    var d := s.deliveries[i];
    var ((o, e), n) := (Pair(d), d.stage.pc.sent);
    forall o', e'
      ensures Sent(s'.log, o', e') == Sent(s.log, o', e') + if env.ok && o' == o && e' == e then [CHANNELS[n]] else []
    {
      if env.ok { SentAppend(s.log, DistMsg(o, e, CHANNELS[n]), o', e'); }
    }
  }

  lemma PublishKeepsPublishers(b: nat, s: State, i: nat, ok: bool, s': State)
    requires i < |s.deliveries| && IsPublisher(s.deliveries[i]) && Published(b, s, i, ok, s')
    requires PublishersInv(s) && OnePublisher(s)
    ensures PublishersInv(s') && OnePublisher(s')
  {
    var (o, e) := Pair(s.deliveries[i]);
    assert PublishesAt(s, i, o, e);
    forall j: nat, o', e' | PublishesAt(s', j, o', e')
      ensures PublishesAt(s, j, o', e')
    {
    }
    forall j: nat | j < |s'.deliveries| && IsPublisher(s'.deliveries[j])
      ensures PublisherOk(s', s'.deliveries[j])
    {
      assert PublisherOk(s, s.deliveries[j]);
      if j != i {
        assert PublishesAt(s, j, Pair(s.deliveries[j]).0, Pair(s.deliveries[j]).1);
      }
    }
  }

  lemma PublishKeepsLog(b: nat, s: State, i: nat, ok: bool, s': State)
    requires i < |s.deliveries| && IsPublisher(s.deliveries[i]) && Published(b, s, i, ok, s')
    requires PublishersInv(s) && LogInv(s)
    ensures LogInv(s')
  {
    var (o, e) := Pair(s.deliveries[i]);
    assert PublisherOk(s, s.deliveries[i]);
    forall o', e'
      ensures LogOk(s', o', e')
    {
      assert LogOk(s, o', e');
      if (o', e') != (o, e) && HasPublisher(s, o', e') {
        var j: nat :| PublishesAt(s, j, o', e');
        assert PublishesAt(s', j, o', e');
      }
      if (o', e') == (o, e) && IsPublisher(s'.deliveries[i]) {
        assert PublishesAt(s', i, o, e);
      }
    }
  }

  /** A publish step, done or raised: the publisher's pair moves on by one channel, or is lost. */
  lemma PublishKeeps(b: nat, s: State, i: nat, env: Env)
    requires HandlingInv(b, s) && Enabled(s, Act(i, env)) && IsPublisher(s.deliveries[i])
    ensures HandlingInv(b, Apply(b, s, Act(i, env)))
  {
    var s' := Apply(b, s, Act(i, env));
    PublishStep(b, s, i, env);
    PublishKeepsPublishers(b, s, i, env.ok, s');
    PublishKeepsLog(b, s, i, env.ok, s');
  }

  /** What a call that was not rolled back does: at most the pair (`r.orderId`, event) becomes stored,
      and if it does, this delivery publishes it or the pair is lost. */
  ghost predicate Called(b: nat, s: State, i: nat, r: Reply, replyLost: bool, s': State)
    requires i < |s.deliveries| && s.deliveries[i].stage.Running? && r.Row?
  {
    var d := s.deliveries[i];
    var (o, e) := (r.orderId, d.msg.payload.event);
    && s'.log == s.log && s'.dead == s.dead && |s'.deliveries| == |s.deliveries|
    && s'.deliveries[i].msg == d.msg
    && (forall j | 0 <= j < |s.deliveries| && j != i :: s'.deliveries[j] == s.deliveries[j])
    && (forall o', e' :: HasEvent(s'.tables.events, o', e') ==
          (HasEvent(s.tables.events, o', e') || (o' == o && e' == e)))
    && (r.isNew <==> !HasEvent(s.tables.events, o, e))
    && (forall k :: Persisted(s.tables, k) ==> Persisted(s'.tables, k)) && Persisted(s'.tables, KeyOf(d.msg))
    && s'.lost == s.lost + (if replyLost && r.isNew then {(o, e)} else {})
    && s'.deliveries[i].stage == (if replyLost then AfterRaise(b, d.stage.attempt)
                                  else Running(d.stage.attempt, if r.isNew then Publishing(o, 0) else Closing))
  }

  /** The step of a call that was not rolled back, written out. */
  lemma CallApply(b: nat, s: State, i: nat, env: Env, t': Tables, r: Reply)
    requires Enabled(s, Act(i, env)) && r.Row?
    requires s.deliveries[i].stage.Running? && s.deliveries[i].stage.pc.Calling? && !env.ending.RolledBack?
    requires (t', r) == Call(s.tables, env.ids, s.deliveries[i].msg)
    ensures var (d, replyLost) := (s.deliveries[i], env.ending.ReplyLost?);
            var stage := if replyLost then AfterRaise(b, d.stage.attempt)
                         else Running(d.stage.attempt, if r.isNew then Publishing(r.orderId, 0) else Closing);
            Apply(b, s, Act(i, env)) == State(t', s.log, s.deliveries[i := d.(stage := stage)], s.dead,
                                              s.lost + if replyLost && r.isNew then
                                                     {(r.orderId, d.msg.payload.event)} else {})
  {
    hide Call, Fresh;
  }

  lemma CallStep(b: nat, s: State, i: nat, env: Env, t': Tables, r: Reply)
    requires Enabled(s, Act(i, env)) && r.Row?
    requires s.deliveries[i].stage.Running? && s.deliveries[i].stage.pc.Calling? && !env.ending.RolledBack?
    requires (t', r) == Call(s.tables, env.ids, s.deliveries[i].msg)
    requires Effect(s.tables, s.deliveries[i].msg, t', r)
    ensures Called(b, s, i, r, env.ending.ReplyLost?, Apply(b, s, Act(i, env)))
  {
    hide Call, Inv, Extends, Persisted, Recorded, Fresh, HasEvent, Apply, AfterRaise, SmsRow;
    CallApply(b, s, i, env, t', r);
    ExtendsKeeps(s.tables, t');
  }

  /** A call that fails by itself is like one rolled back from outside. */
  lemma CallErrs(b: nat, s: State, i: nat, env: Env)
    requires Enabled(s, Act(i, env))
    requires s.deliveries[i].stage.Running? && s.deliveries[i].stage.pc.Calling? && !env.ending.RolledBack?
    requires Call(s.tables, env.ids, s.deliveries[i].msg) == (s.tables, SqlError)
    ensures Apply(b, s, Act(i, env)) == Apply(b, s, Act(i, env.(ending := RolledBack)))
  {
    hide Call, Fresh;
  }

  lemma CallKeepsPublishers(b: nat, s: State, i: nat, r: Reply, replyLost: bool, s': State)
    requires i < |s.deliveries| && s.deliveries[i].stage.Running? && s.deliveries[i].stage.pc.Calling? && r.Row?
    requires Called(b, s, i, r, replyLost, s')
    requires PublishersInv(s) && OnePublisher(s) && LogInv(s)
    ensures PublishersInv(s') && OnePublisher(s')
  {
    var (o, e) := (r.orderId, s.deliveries[i].msg.payload.event);
    assert LogOk(s, o, e);
    forall j: nat, o', e' | PublishesAt(s', j, o', e')
      ensures if j == i then (o', e') == (o, e) && r.isNew
              else PublishesAt(s, j, o', e') && HasEvent(s.tables.events, o', e')
    {
      if j != i { assert PublisherOk(s, s.deliveries[j]); }
    }
    forall j: nat | j < |s'.deliveries| && IsPublisher(s'.deliveries[j])
      ensures PublisherOk(s', s'.deliveries[j])
    {
      assert PublishesAt(s', j, Pair(s'.deliveries[j]).0, Pair(s'.deliveries[j]).1);
      if j != i { assert PublisherOk(s, s.deliveries[j]); }
    }
  }

  lemma CallKeepsLog(b: nat, s: State, i: nat, r: Reply, replyLost: bool, s': State)
    requires i < |s.deliveries| && s.deliveries[i].stage.Running? && s.deliveries[i].stage.pc.Calling? && r.Row?
    requires Called(b, s, i, r, replyLost, s')
    requires LogInv(s)
    ensures LogInv(s')
  {
    var (o, e) := (r.orderId, s.deliveries[i].msg.payload.event);
    forall o', e'
      ensures LogOk(s', o', e')
    {
      assert LogOk(s, o', e');
      if HasPublisher(s, o', e') {
        var j: nat :| PublishesAt(s, j, o', e');
        assert PublishesAt(s', j, o', e');
      }
      if (o', e') == (o, e) && r.isNew && !replyLost {
        assert PublishesAt(s', i, o, e);
      }
    }
  }

  lemma CallKeeps(b: nat, s: State, i: nat, env: Env)
    requires WorkerInv(b, s) && Enabled(s, Act(i, env))
    requires s.deliveries[i].stage.Running? && s.deliveries[i].stage.pc.Calling?
    ensures WorkerInv(b, Apply(b, s, Act(i, env)))
  {
    var s' := Apply(b, s, Act(i, env));
    var (t', r) := Call(s.tables, env.ids, s.deliveries[i].msg);
    if env.ending.RolledBack? {
      QuietKeeps(b, s, i, env);
    } else {
      CallMeaning(s.tables, env.ids, s.deliveries[i].msg);
      if r.SqlError? {
        CallErrs(b, s, i, env);
        QuietKeeps(b, s, i, env.(ending := RolledBack));
      } else {
        CallStep(b, s, i, env, t', r);
        CallKeepsPublishers(b, s, i, r, env.ending.ReplyLost?, s');
        CallKeepsLog(b, s, i, r, env.ending.ReplyLost?, s');
        CallKeepsRest(b, s, i, r, env.ending.ReplyLost?, s');
      }
    }
  }

  lemma CallKeepsRest(b: nat, s: State, i: nat, r: Reply, replyLost: bool, s': State)
    requires i < |s.deliveries| && s.deliveries[i].stage.Running? && s.deliveries[i].stage.pc.Calling? && r.Row?
    requires Called(b, s, i, r, replyLost, s')
    requires AckedInv(s) && DeadInv(s) && AttemptsInv(b, s)
    ensures AckedInv(s') && DeadInv(s') && AttemptsInv(b, s')
  {
  }

  lemma StepKeeps(b: nat, s: State, c: Choice)
    requires WorkerInv(b, s) && Enabled(s, c)
    ensures WorkerInv(b, Apply(b, s, c))
  {
    match c
    case Deliver(m) => DeliverKeeps(b, s, m);
    case Act(i, env) =>
      var stage := s.deliveries[i].stage;
      if stage.GivenUp? {
        DeadLetterKeeps(b, s, i, env);
      } else if stage.pc.Calling? {
        CallKeeps(b, s, i, env);
      } else if stage.pc.Publishing? {
        PublishKeeps(b, s, i, env);
      } else {
        QuietKeeps(b, s, i, env);
      }
  }

  lemma {:induction false} ExecKeeps(b: nat, s: State, cs: seq<Choice>)
    requires WorkerInv(b, s) && Valid(b, s, cs)
    ensures WorkerInv(b, Exec(b, s, cs))
    decreases |cs|
  {
    if cs == [] {
    } else {
      StepKeeps(b, s, cs[0]);
      ExecKeeps(b, Apply(b, s, cs[0]), cs[1..]);
    }
  }

  lemma InitialHolds(b: nat)
    ensures WorkerInv(b, INITIAL)
  {
    forall o, e
      ensures LogOk(INITIAL, o, e)
    {
    }
  }

  // -- Theorems over every run ----------------------------------------------------------------------

  /** Whatever is delivered, redelivered, retried or broken: the channels published for one
      (order, event) are a prefix of SMS, EMAIL, CALL_CENTER, WHATSAPP, each at most once. Once no
      publisher is at work, all four went out exactly when no publisher raised. */
  lemma PublishedAsPrefix(b: nat, cs: seq<Choice>, o: Id, e: string)
    requires Valid(b, INITIAL, cs)
    ensures var s := Exec(b, INITIAL, cs);
            && Sent(s.log, o, e) <= [SMS, EMAIL, CALL_CENTER, WHATSAPP]
            && (forall c :: multiset(Sent(s.log, o, e))[c] <= 1)
            && (!HasEvent(s.tables.events, o, e) ==> Sent(s.log, o, e) == [])
            && (HasEvent(s.tables.events, o, e) && !HasPublisher(s, o, e) ==>
                  (Sent(s.log, o, e) == [SMS, EMAIL, CALL_CENTER, WHATSAPP] <==> (o, e) !in s.lost))
  {
    InitialHolds(b);
    ExecKeeps(b, INITIAL, cs);
    var s := Exec(b, INITIAL, cs);
    assert LogOk(s, o, e);
    PrefixIsDistinct(Sent(s.log, o, e));
  }

  lemma PrefixIsDistinct(sent: seq<Channel>)
    requires sent <= CHANNELS
    ensures forall c :: multiset(sent)[c] <= 1
  {
    assert sent == CHANNELS[..|sent|];
    if |sent| == 0 {
    } else if |sent| == 1 {
      assert sent == [SMS];
    } else if |sent| == 2 {
      assert sent == [SMS, EMAIL];
    } else if |sent| == 3 {
      assert sent == [SMS, EMAIL, CALL_CENTER];
    } else {
      assert sent == [SMS, EMAIL, CALL_CENTER, WHATSAPP];
    }
  }

  /** No consumed lead vanishes: an acknowledged delivery has its order, event and four status rows
      committed; a delivery has exactly one `lead.dead.consumer_failed` record if it ended
      dead-lettered and none otherwise; every database on the way satisfies the table invariants. */
  lemma NoConsumedLeadVanishes(b: nat, cs: seq<Choice>, i: nat)
    requires Valid(b, INITIAL, cs) && i < |Exec(b, INITIAL, cs).deliveries|
    ensures var s := Exec(b, INITIAL, cs);
            && Inv(s.tables)
            && (s.deliveries[i].stage.Acked? ==> Persisted(s.tables, KeyOf(s.deliveries[i].msg)))
            && multiset(s.dead)[i] == (if s.deliveries[i].stage.DeadLettered? then 1 else 0)
  {
    InitialHolds(b);
    ExecKeeps(b, INITIAL, cs);
  }

  /** A message whose event is stored already publishes nothing: the call finds it not new and the
      delivery goes straight to its closing step, whichever delivery, retry or duplicate it is. */
  lemma RepeatPublishesNothing(b: nat, s: State, i: nat, env: Env)
    requires Inv(s.tables) && Enabled(s, Act(i, env))
    requires s.deliveries[i].stage.Running? && s.deliveries[i].stage.pc.Calling? && env.ending.Committed?
    requires Recorded(s.tables, KeyOf(s.deliveries[i].msg))
    ensures var s' := Apply(b, s, Act(i, env));
            && s'.log == s.log && s'.lost == s.lost && s'.tables.events == s.tables.events
            && Inv(s'.tables) && (forall k :: Persisted(s.tables, k) ==> Persisted(s'.tables, k))
            && s'.deliveries ==
               s.deliveries[i := Delivery(s.deliveries[i].msg, Running(s.deliveries[i].stage.attempt, Closing))]
  {
    hide Call, Inv, Extends, Persisted, Recorded, Fresh, HasEvent;
    var (t', r) := Call(s.tables, env.ids, s.deliveries[i].msg);
    CallMeaning(s.tables, env.ids, s.deliveries[i].msg);
    ExtendsKeeps(s.tables, t');
  }

  /** Distribution is at most once, not exactly once: from every reachable state, and for every message
      whose event is not stored yet, some run acknowledges the message and stores its event but
      publishes nothing. The reply of the call that stored it is lost, and the retry (one backoff is
      enough) is told that the event is not new. */
  lemma AckedWithNothingPublished(b: nat, s: State, m: LeadMsg, ids1: Ids, ids2: Ids)
    requires b >= 1 && Inv(s.tables) && !Recorded(s.tables, KeyOf(m)) && m.eventId !in s.tables.events
    requires Fresh(s.tables, ids1) && Fresh(Call(s.tables, ids1, m).0, ids2)
    ensures var i := |s.deliveries|;
            var cs := [Deliver(m), Act(i, Env(ids1, ReplyLost, true)),
                       Act(i, Env(ids2, Committed, true)), Act(i, Env(ids2, Committed, true))];
            && Valid(b, s, cs)
            && Exec(b, s, cs).deliveries == s.deliveries + [Delivery(m, Acked)]
            && Persisted(Exec(b, s, cs).tables, KeyOf(m))
            && Exec(b, s, cs).log == s.log
  {
    hide Call, Inv, Persisted, Recorded;
    var i := |s.deliveries|;
    var c2, c3 := Act(i, Env(ids1, ReplyLost, true)), Act(i, Env(ids2, Committed, true));
    var s1 := Apply(b, s, Deliver(m));
    LostReply(b, s1, i, m, ids1);
    var s2 := Apply(b, s1, c2);
    RepeatPublishesNothing(b, s2, i, c3.env);
    ExecFour(b, s, Deliver(m), c2, c3, c3);
  }

  /** A first call whose reply is lost stores the event and leaves the delivery at its next attempt. */
  lemma LostReply(b: nat, s: State, i: nat, m: LeadMsg, ids: Ids)
    requires b >= 1 && i < |s.deliveries| && s.deliveries[i] == Delivery(m, Running(0, Calling))
    requires Inv(s.tables) && !Recorded(s.tables, KeyOf(m)) && m.eventId !in s.tables.events && Fresh(s.tables, ids)
    ensures var s' := Apply(b, s, Act(i, Env(ids, ReplyLost, true)));
            && s'.tables == Call(s.tables, ids, m).0 && s'.log == s.log
            && s'.deliveries == s.deliveries[i := Delivery(m, Running(1, Calling))]
            && Inv(s'.tables) && Recorded(s'.tables, KeyOf(m)) && Persisted(s'.tables, KeyOf(m))
  {
    hide Call, Extends, Inv, Recorded, Persisted, Fresh, Resolves;
    CallMeaning(s.tables, ids, m);
  }

  /** A run after a first step. */
  lemma ExecAfter(b: nat, s: State, c: Choice, rest: seq<Choice>)
    requires Enabled(s, c) && Valid(b, Apply(b, s, c), rest)
    ensures Valid(b, s, [c] + rest) && Exec(b, s, [c] + rest) == Exec(b, Apply(b, s, c), rest)
  {
    hide Apply, Enabled;
    assert ([c] + rest)[1..] == rest;
  }

  /** Executing four choices, written out. */
  lemma ExecFour(b: nat, s: State, c1: Choice, c2: Choice, c3: Choice, c4: Choice)
    requires Enabled(s, c1) && Enabled(Apply(b, s, c1), c2) && Enabled(Apply(b, Apply(b, s, c1), c2), c3)
    requires Enabled(Apply(b, Apply(b, Apply(b, s, c1), c2), c3), c4)
    ensures Valid(b, s, [c1, c2, c3, c4])
    ensures Exec(b, s, [c1, c2, c3, c4]) == Apply(b, Apply(b, Apply(b, Apply(b, s, c1), c2), c3), c4)
  {
    hide Apply, Enabled;
    var (s1, s2) := (Apply(b, s, c1), Apply(b, Apply(b, s, c1), c2));
    var s3 := Apply(b, s2, c3);
    ExecAfter(b, s3, c4, []);
    ExecAfter(b, s2, c3, [c4] + []);
    ExecAfter(b, s1, c2, [c3] + ([c4] + []));
    ExecAfter(b, s, c1, [c2] + ([c3] + ([c4] + [])));
    assert [c1] + ([c2] + ([c3] + ([c4] + []))) == [c1, c2, c3, c4];
  }

  /** How many handler steps an attempt can still take. */
  function PcDistance(pc: Pc): int {
    match pc
    case Calling => 6
    case Publishing(_, n) => 5 - n
    case Closing => 1
  }

  /** How many steps a delivery can still take. */
  function Fuel(b: nat, stage: Stage): int {
    match stage
    case Running(k, pc) => (b - k) * 6 + 1 + PcDistance(pc)
    case GivenUp => 1
    case _ => 0
  }

  /** Attempts and published channels stay within their ranges. */
  predicate InRange(b: nat, stage: Stage) {
    stage.Running? ==> stage.attempt <= b && (stage.pc.Publishing? ==> stage.pc.sent < |CHANNELS|)
  }

  lemma StagesInRange(b: nat, s: State, i: nat)
    requires WorkerInv(b, s) && i < |s.deliveries|
    ensures InRange(b, s.deliveries[i].stage)
  {
    if IsPublisher(s.deliveries[i]) {
      assert PublisherOk(s, s.deliveries[i]);
    }
  }

  /** A step of delivery `i` uses up its fuel; any other step leaves it alone. */
  lemma StepBurnsFuel(b: nat, s: State, i: nat, c: Choice)
    requires Enabled(s, c) && i < |s.deliveries| && InRange(b, s.deliveries[i].stage)
    ensures var s' := Apply(b, s, c);
            && i < |s'.deliveries| && 0 <= Fuel(b, s'.deliveries[i].stage)
            && Fuel(b, s'.deliveries[i].stage) + One(Moves(c, i)) <= Fuel(b, s.deliveries[i].stage) <= 6 * (b + 1) + 1
  {
    hide Call, Fresh, LostBy;
  }

  predicate Moves(c: Choice, i: nat) {
    c.Act? && c.i == i
  }

  /** In every run a delivery makes at most 6 * (b + 1) + 1 steps, with `b` backoffs, whatever fails and
      whatever the other deliveries do; one that used them all is over. */
  lemma {:induction false} DeliveriesEnd(b: nat, s: State, cs: seq<Choice>, i: nat)
    requires WorkerInv(b, s) && Valid(b, s, cs) && i < |s.deliveries|
    ensures var s' := Exec(b, s, cs);
            && i < |s'.deliveries|
            && Count(cs, (c: Choice) => Moves(c, i)) + Fuel(b, s'.deliveries[i].stage) <=
               Fuel(b, s.deliveries[i].stage) <= 6 * (b + 1) + 1
            && (Over(s'.deliveries[i].stage) <==> Fuel(b, s'.deliveries[i].stage) == 0)
            && 0 <= Fuel(b, s'.deliveries[i].stage)
    decreases |cs|
  {
    hide Apply, Enabled;
    if cs == [] {
      StagesInRange(b, s, i);
      FuelSign(b, s.deliveries[i].stage);
    } else {
      StagesInRange(b, s, i);
      StepBurnsFuel(b, s, i, cs[0]);
      StepKeeps(b, s, cs[0]);
      hide WorkerInv, Fuel;
      DeliveriesEnd(b, Apply(b, s, cs[0]), cs[1..], i);
      CountHead(cs, (c: Choice) => Moves(c, i));
    }
  }

  lemma FuelSign(b: nat, stage: Stage)
    requires InRange(b, stage)
    ensures 0 <= Fuel(b, stage) <= 6 * (b + 1) + 1
    ensures Over(stage) <==> Fuel(b, stage) == 0
  {
  }

  // -- The handler, run without interruption ----------------------------------------------------------

  /** What the environment answers at each program point of one attempt; `oks` are the four publishes
      and the final commit. */
  function Answer(ids: Ids, ending: Ending, oks: seq<bool>, pc: Pc): Env
    requires |oks| == |CHANNELS| + 1
    requires pc.Publishing? ==> pc.sent < |CHANNELS|
  {
    Env(ids, ending, match pc case Calling => true case Publishing(_, n) => oks[n] case Closing => oks[|CHANNELS|])
  }

  /** One attempt from program point `pc`: handler steps until it returns or raises. */
  ghost function Attempt(t: Tables, log: seq<DistMsg>, m: LeadMsg, pc: Pc, ids: Ids, ending: Ending, oks: seq<bool>)
    : (Tables, seq<DistMsg>, bool)
    requires |oks| == |CHANNELS| + 1
    requires pc.Publishing? ==> pc.sent < |CHANNELS|
    decreases PcDistance(pc)
  {
    var (t', log', next) := HandlerStep(t, log, m, pc, Answer(ids, ending, oks, pc));
    match next
    case Continue(pc') => Attempt(t', log', m, pc', ids, ending, oks)
    case Returned => (t', log', false)
    case Raised => (t', log', true)
  }

  /** The worker's handler over the shared database and broker. */
  class Consumer {
    const db: Database
    var log: seq<DistMsg>

    constructor (db: Database)
      ensures this.db == db && log == []
    {
      this.db, log := db, [];
    }

    /** `handle_lead` around `process_lead`. `failAt` and `replyLost` are the faults of the procedure
        call; `ending` says which of the three endings they made. */
    method HandleLead(m: LeadMsg, ids: Ids, failAt: nat, replyLost: bool, oks: seq<bool>)
      returns (raised: bool, ghost ending: Ending)
      requires Inv(db.Contents()) && Fresh(db.Contents(), ids) && |oks| == |CHANNELS| + 1
      modifies this, db
      ensures Inv(db.Contents())
      ensures (db.Contents(), log, raised) ==
              Attempt(old(db.Contents()), old(log), m, Calling, ids, ending, oks)
      ensures failAt > 7 && !replyLost ==> ending.Committed?
    {
      hide Call, Inv, Fresh;
      var r := db.SpInsertLead(ids, m, failAt);
      ending := if r.SqlError? && failAt <= 7 then RolledBack else if replyLost then ReplyLost else Committed;
      if r.SqlError? || replyLost {
        return true, ending;
      }
      if r.isNew {
        var i := 0;
        while i < |CHANNELS|
          invariant i <= |CHANNELS|
          invariant db.Contents() == Call(old(db.Contents()), ids, m).0
          invariant Attempt(old(db.Contents()), old(log), m, Calling, ids, ending, oks) ==
                    Attempt(db.Contents(), log, m, if i < |CHANNELS| then Publishing(r.orderId, i) else Closing,
                            ids, ending, oks)
        {
          if !oks[i] {
            return true, ending;
          }
          log := log + [DistMsg(r.orderId, m.payload.event, CHANNELS[i])];
          i := i + 1;
        }
      }
      raised := !oks[|CHANNELS|];
    }
  }
}
