/** A delivery that runs without interruption is the retry loop around the handler: the step system of
    `SmsFlow` and the specifications of `handle_sms` and `RetryMiddleware` agree. */
module SmsDelivery {
  import opened Wrappers
  import opened Config
  import opened Schema
  import opened Sms
  import opened SmsFlow
  import opened SmsExamples
  import Retry

  /** The row, and how the last call ended. */
  type Local = (Option<Progress>, Effect)

  /** The handler as the retry loop calls it: attempt `k` meets the faults `fs(k)`. */
  function Caller(c: Settings, fs: nat -> Faults): ((Local, nat) -> (Local, Retry.Outcome)) {
    (s: Local, k: nat) =>
      var (row', e) := Handle(c, s.0, Posting, fs(k)); ((row', e), OutcomeOf(e))
  }

  /** Running one handler call to its end. */
  lemma {:induction false} AttemptRuns(c: Settings, s: Flow, k: nat, pc: Pc, f: Faults) returns (chs: seq<Choice>)
    requires s.flights == [InHandler(k, pc)] && !pc.Ended?
    ensures Valid(c, s, chs) && Publish !in chs
    ensures var (row', e) := Handle(c, s.row, pc, f);
            Exec(c, s, chs) == Settle(c, s.(row := row', calls := s.calls + (if pc.Posting? then 1 else 0),
                                            flights := [InHandler(k, Posting)]), 0, k, e)
    decreases Distance(pc)
  {
    HandleSteps(c, s.row, pc, f);
    var ch := Act(0, f.post, Ok(f, pc));
    LoneStep(c, s, k, pc, f.post, Ok(f, pc));
    ExecOne(c, s, ch);
    hide Step, Settle, Handle, Apply, Exec, Valid;
    var pc' := Step(c, s.row, pc, f.post, Ok(f, pc)).1;
    if pc'.Ended? {
      chs := [ch];
    } else {
      var rest := AttemptRuns(c, Apply(c, s, ch), k, pc', f);
      ExecJoin(c, s, [ch], rest);
      chs := [ch] + rest;
    }
  }

  /** What is left of the flow when the retry loop has ended with `r`. */
  function Outcome(s: Flow, r: Retry.Scope<Local>): Flow {
    var s' := s.(row := r.state.0, calls := s.calls + r.calls, slept := s.slept + Sum(r.slept));
    match r.state.1
    case Delivered => s'.(flights := [], delivered := s.delivered + 1)
    case DeadLettered => s'.(flights := [], dead := s.dead + 1)
    case Requeued(_) => s'.(flights := [], delayed := s.delayed + 1)
    case Failed(_) => s'.(flights := [GivenUp])
  }

  lemma {:induction false} SumCons(x: nat, s: seq<nat>)
    ensures Sum([x] + s) == x + Sum(s)
  {
    if s == [] {
      assert [x] + s == [x] && [x][..0] == [];
    } else {
      SumCons(x, s[..|s| - 1]);
      assert ([x] + s)[..|s|] == [x] + s[..|s| - 1];
    }
  }

  /** The loop ends with call `k`: the flow is settled accordingly. */
  lemma LastCall(c: Settings, s: Flow, k: nat, r: Retry.Scope<Local>)
    requires s.flights == [InHandler(k, Posting)] && r.calls == 1 && r.slept == []
    requires r.state.1.Failed? ==> Retry.NextAttempt(|c.backoffs|, k, r.state.1.noRetry).None?
    ensures Settle(c, s.(row := r.state.0, calls := s.calls + 1), 0, k, r.state.1) == Outcome(s, r)
  {
  }

  /** From attempt `k` on, the steps of the flow are the retry loop of the handler. */
  lemma {:induction false} DeliveryRuns(c: Settings, s: Flow, k: nat, e: Effect, fs: nat -> Faults)
    returns (chs: seq<Choice>)
    requires s.flights == [InHandler(k, Posting)] && k <= |c.backoffs|
    ensures Valid(c, s, chs) && Publish !in chs
    ensures Exec(c, s, chs) == Outcome(s, Retry.Consume(Caller(c, fs), c.backoffs, (s.row, e), k))
    decreases |c.backoffs| - k
  {
    hide Handle, Exec, Valid, Sum, Retry.Consume;
    Retry.ConsumeSteps(Caller(c, fs), c.backoffs, (s.row, e), k);
    chs := AttemptRuns(c, s, k, Posting, fs(k));
    var (row', e') := Handle(c, s.row, Posting, fs(k));
    var s' := Exec(c, s, chs);
    if e'.Failed? && Retry.NextAttempt(|c.backoffs|, k, e'.noRetry).Some? {
      assert s' == s.(row := row', calls := s.calls + 1, slept := s.slept + c.backoffs[k],
                      flights := [InHandler(k + 1, Posting)]);
      var rest := DeliveryRuns(c, s', k + 1, e', fs);
      ExecJoin(c, s, chs, rest);
      chs := chs + rest;
      SumCons(c.backoffs[k], Retry.Consume(Caller(c, fs), c.backoffs, (row', e'), k + 1).slept);
    } else {
      LastCall(c, s, k, Retry.Scope((row', e'), OutcomeOf(e'), 1, []));
    }
  }

  /** The whole delivery: taken from the queue, it sleeps exactly what the retry loop sleeps, calls the
      handler as often, and ends where the last call or the dead-letter publish puts it. */
  lemma DeliveryIsRetriedHandler(c: Settings, s: Flow, e: Effect, fs: nat -> Faults) returns (chs: seq<Choice>)
    requires s.flights == [InHandler(0, Posting)]
    ensures Valid(c, s, chs) && Publish !in chs
    ensures var r := Retry.Consume(Caller(c, fs), c.backoffs, (s.row, e), 0);
            var s' := Exec(c, s, chs);
            && s'.row == r.state.0 && s'.calls == s.calls + r.calls && s'.slept == s.slept + Sum(r.slept)
            && (r.last.Returned? <==> s'.flights == [])
            && (r.last.Raised? <==> s'.flights == [GivenUp])
            && s'.delivered == s.delivered + (if r.state.1.Delivered? then 1 else 0)
            && s'.dead == s.dead + (if r.state.1.DeadLettered? then 1 else 0)
            && s'.delayed == s.delayed + (if r.state.1.Requeued? then 1 else 0)
  {
    chs := DeliveryRuns(c, s, 0, e, fs);
    LastIsOutcome(c, (s.row, e), 0, fs);
  }

  lemma {:induction false} LastIsOutcome(c: Settings, s: Local, k: nat, fs: nat -> Faults)
    requires k <= |c.backoffs|
    ensures var r := Retry.Consume(Caller(c, fs), c.backoffs, s, k); r.last == OutcomeOf(r.state.1)
    decreases |c.backoffs| - k
  {
    var (s', o) := Caller(c, fs)(s, k);
    if o.Returned? || Retry.NextAttempt(|c.backoffs|, k, o.noRetry).None? {
    } else {
      LastIsOutcome(c, s', k + 1, fs);
    }
  }
}
