/** A lead delivery that runs without interruption is the retry loop around the handler: the step system
    of `LeadWorker` and the specifications of `handle_lead` and `RetryMiddleware` agree. */
module LeadDelivery {
  import opened Wrappers
  import opened Config
  import opened Schema
  import opened StoredProc
  import opened LeadStore
  import opened LeadWorker
  import Retry

  /** Answers to the four publishes and the final commit of one attempt. */
  type Answers = s: seq<bool> | |s| == |CHANNELS| + 1 witness [true, true, true, true, true]

  /** The ids one attempt generates and the faults it meets. */
  datatype Attempted = Attempted(ids: Ids, ending: Ending, oks: Answers)

  /** What an attempt works on: the tables and the distribution queues. */
  type Shared = (Tables, seq<DistMsg>)

  ghost function Result(m: LeadMsg, a: Attempted, s: Shared, pc: Pc): (Tables, seq<DistMsg>, bool)
    requires pc.Publishing? ==> pc.sent < |CHANNELS|
  {
    Attempt(s.0, s.1, m, pc, a.ids, a.ending, a.oks)
  }

  /** The handler as the retry loop calls it: attempt `k` meets `fs(k)`. */
  ghost function Caller(m: LeadMsg, fs: nat -> Attempted): ((Shared, nat) -> (Shared, Retry.Outcome)) {
    (s: Shared, k: nat) =>
      var (t, log, raised) := Result(m, fs(k), s, Calling);
      ((t, log), if raised then Retry.Raised(false) else Retry.Returned)
  }

  /** Generated ids are fresh at every attempt the loop gets to. */
  ghost predicate FreshAttempts(b: nat, m: LeadMsg, fs: nat -> Attempted, s: Shared, k: nat)
    requires k <= b
    decreases b - k
  {
    && Fresh(s.0, fs(k).ids)
    && var (s', o) := Caller(m, fs)(s, k);
    (o.Raised? && k < b ==> FreshAttempts(b, m, fs, s', k + 1))
  }

  lemma {:induction false} ExecJoin(b: nat, s: State, xs: seq<Choice>, ys: seq<Choice>)
    requires Valid(b, s, xs) && Valid(b, Exec(b, s, xs), ys)
    ensures Valid(b, s, xs + ys) && Exec(b, s, xs + ys) == Exec(b, Exec(b, s, xs), ys)
    decreases |xs|
  {
    hide Apply, Enabled;
    if xs == [] {
      assert xs + ys == ys;
    } else {
      ExecJoin(b, Apply(b, s, xs[0]), xs[1..], ys);
      assert (xs + ys)[1..] == xs[1..] + ys;
    }
  }

  lemma ExecOne(b: nat, s: State, c: Choice)
    requires Enabled(s, c)
    ensures Valid(b, s, [c]) && Exec(b, s, [c]) == Apply(b, s, c)
  {
    hide Apply, Enabled;
    assert [c][1..] == [];
    assert Valid(b, Apply(b, s, c), [c][1..]);
  }

  /** `s'` is `s` after delivery `i` did its work: nothing but tables, log, its own stage and the history
      of lost pairs is different. */
  predicate Moved(s: State, i: nat, t: Tables, log: seq<DistMsg>, stage: Stage, s': State)
    requires i < |s.deliveries|
  {
    s' == State(t, log, s.deliveries[i := s.deliveries[i].(stage := stage)], s.dead, s'.lost)
  }

  /** All steps are the delivery's own. */
  predicate OnlyMoves(cs: seq<Choice>, i: nat) {
    forall c | c in cs :: Moves(c, i)
  }

  predicate RunsAt(s: State, i: nat, k: nat, pc: Pc) {
    i < |s.deliveries| && s.deliveries[i].stage == Running(k, pc) && (pc.Publishing? ==> pc.sent < |CHANNELS|)
  }

  /** One step of a delivery, in terms of the handler's own step. */
  lemma HandlerStepRuns(b: nat, s: State, i: nat, k: nat, pc: Pc, env: Env)
    requires RunsAt(s, i, k, pc) && (pc.Calling? ==> Fresh(s.tables, env.ids))
    ensures Enabled(s, Act(i, env))
    ensures var (t, log, next) := HandlerStep(s.tables, s.log, s.deliveries[i].msg, pc, env);
            var s' := Apply(b, s, Act(i, env));
            match next
            case Continue(pc') =>
              Moved(s, i, t, log, Running(k, pc'), s') && RunsAt(s', i, k, pc')
              && PcDistance(pc') < PcDistance(pc) && !pc'.Calling?
            case Returned => Moved(s, i, t, log, Acked, s')
            case Raised => Moved(s, i, t, log, AfterRaise(b, k), s')
  {
    hide Call, Fresh;
  }

  /** An attempt unfolds one handler step at a time. */
  lemma AttemptSteps(m: LeadMsg, a: Attempted, s: Shared, pc: Pc)
    requires pc.Publishing? ==> pc.sent < |CHANNELS|
    ensures var (t, log, next) := HandlerStep(s.0, s.1, m, pc, Answer(a.ids, a.ending, a.oks, pc));
            Result(m, a, s, pc) == match next
              case Continue(pc') => Result(m, a, (t, log), pc')
              case Returned => (t, log, false)
              case Raised => (t, log, true)
  {
    hide Call;
  }

  /** Running one attempt from program point `pc` to its end. */
  lemma {:induction false} AttemptRuns(b: nat, s: State, i: nat, k: nat, pc: Pc, a: Attempted) returns (cs: seq<Choice>)
    requires RunsAt(s, i, k, pc) && (pc.Calling? ==> Fresh(s.tables, a.ids))
    ensures Valid(b, s, cs) && OnlyMoves(cs, i)
    ensures var (t, log, raised) := Result(s.deliveries[i].msg, a, (s.tables, s.log), pc);
            Moved(s, i, t, log, if raised then AfterRaise(b, k) else Acked, Exec(b, s, cs))
    decreases PcDistance(pc)
  {
    var env := Answer(a.ids, a.ending, a.oks, pc);
    var m := s.deliveries[i].msg;
    var c := Act(i, env);
    HandlerStepRuns(b, s, i, k, pc, env);
    AttemptSteps(m, a, (s.tables, s.log), pc);
    hide HandlerStep, Result, Apply, Enabled, Fresh;
    ExecOne(b, s, c);
    var next := HandlerStep(s.tables, s.log, m, pc, env).2;
    if next.Continue? {
      var s' := Apply(b, s, c);
      var rest := AttemptRuns(b, s', i, k, next.pc, a);
      ExecJoin(b, s, [c], rest);
      cs := [c] + rest;
    } else {
      cs := [c];
    }
  }

  /** From attempt `k` on, the steps of the delivery are the retry loop of the handler. */
  lemma {:induction false} DeliveryRuns(s: State, i: nat, k: nat, backoffs: seq<nat>, fs: nat -> Attempted)
    returns (cs: seq<Choice>)
    requires RunsAt(s, i, k, Calling) && k <= |backoffs|
    requires FreshAttempts(|backoffs|, s.deliveries[i].msg, fs, (s.tables, s.log), k)
    ensures Valid(|backoffs|, s, cs)
    ensures var r := Retry.Consume(Caller(s.deliveries[i].msg, fs), backoffs, (s.tables, s.log), k);
            Moved(s, i, r.state.0, r.state.1, if r.last.Returned? then Acked else GivenUp, Exec(|backoffs|, s, cs))
    decreases |backoffs| - k
  {
    hide Result, Exec, Valid, Fresh, Apply, Enabled, Retry.Consume;
    var b, m := |backoffs|, s.deliveries[i].msg;
    Retry.ConsumeSteps(Caller(m, fs), backoffs, (s.tables, s.log), k);
    cs := AttemptRuns(b, s, i, k, Calling, fs(k));
    var (s1, o) := Caller(m, fs)((s.tables, s.log), k);
    if o.Returned? || k == b {
    } else {
      var s' := Exec(b, s, cs);
      assert s'.deliveries[i] == Delivery(m, Running(k + 1, Calling)) && (s'.tables, s'.log) == s1;
      var rest := DeliveryRuns(s', i, k + 1, backoffs, fs);
      ExecJoin(b, s, cs, rest);
      cs := cs + rest;
    }
  }

  /** The whole delivery: run without interruption from its first attempt it leaves the tables and queues
      that the retry loop around the handler leaves, is acknowledged exactly when the loop returns, and is
      left to dead-lettering exactly when it re-raises. */
  lemma DeliveryIsRetriedHandler(s: State, i: nat, backoffs: seq<nat>, fs: nat -> Attempted) returns (cs: seq<Choice>)
    requires i < |s.deliveries| && s.deliveries[i].stage == Running(0, Calling)
    requires FreshAttempts(|backoffs|, s.deliveries[i].msg, fs, (s.tables, s.log), 0)
    ensures Valid(|backoffs|, s, cs)
    ensures var r := Retry.Consume(Caller(s.deliveries[i].msg, fs), backoffs, (s.tables, s.log), 0);
            var s' := Exec(|backoffs|, s, cs);
            && s'.tables == r.state.0 && s'.log == r.state.1 && s'.dead == s.dead
            && s'.deliveries ==
               s.deliveries[i := Delivery(s.deliveries[i].msg, if r.last.Returned? then Acked else GivenUp)]
  {
    cs := DeliveryRuns(s, i, 0, backoffs, fs);
  }
}
