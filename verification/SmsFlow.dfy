/** The SMS messages of one order: the `dist.sms` queue, the deliveries in flight with their in-process
    retry loop, and where messages end (main.py, middleware.py, exception_handlers.py). */
module SmsFlow {
  import opened Wrappers
  import opened Config
  import opened Schema
  import opened Sms
  import Retry

  /** A delivery in its `attempt`-th handler call, or given up by the retry loop with the dead-letter
      publish still to come. */
  datatype Flight = InHandler(attempt: nat, pc: Pc) | GivenUp

  /** `row` is the order's committed SMS row. `queued` messages came from `process_lead`, `delayed` ones
      were republished with an expiration. The last three fields count queue takes, `process_sms`
      calls and milliseconds slept. */
  datatype Flow = Flow(row: Option<Progress>, queued: nat, delayed: nat, flights: seq<Flight>,
                       delivered: nat, dead: nat, expired: nat, dropped: nat,
                       takes: nat, calls: nat, slept: nat)

  function Empty(row: Option<Progress>): Flow {
    Flow(row, 0, 0, [], 0, 0, 0, 0, 0, 0, 0)
  }

  datatype Choice = Publish | Take(first: bool) | Expire | Act(i: nat, post: Post, ok: bool)

  predicate Enabled(s: Flow, c: Choice) {
    match c
    case Publish => true
    case Take(first) => if first then s.queued > 0 else s.delayed > 0
    case Expire => s.delayed > 0
    case Act(i, _, _) => i < |s.flights| && (s.flights[i].InHandler? ==> !s.flights[i].pc.Ended?)
  }

  function Without(flights: seq<Flight>, i: nat): seq<Flight>
    requires i < |flights|
  {
    flights[..i] + flights[i + 1..]
  }

  /** What the middlewares make of a handler call that ended at flight `i`, attempt `k`. */
  function Settle(c: Settings, s: Flow, i: nat, k: nat, e: Effect): Flow
    requires i < |s.flights|
  {
    match e
    case Delivered => s.(flights := Without(s.flights, i), delivered := s.delivered + 1)
    case DeadLettered => s.(flights := Without(s.flights, i), dead := s.dead + 1)
    case Requeued(_) => s.(flights := Without(s.flights, i), delayed := s.delayed + 1)
    case Failed(noRetry) =>
      match Retry.NextAttempt(|c.backoffs|, k, noRetry)
      case None => s.(flights := s.flights[i := GivenUp])
      case Some(k') =>
        s.(flights := s.flights[i := InHandler(k', Posting)],
           slept := s.slept + if k < |c.backoffs| then c.backoffs[k] else 0)
  }

  function Apply(c: Settings, s: Flow, ch: Choice): Flow
    requires Enabled(s, ch)
  {
    match ch
    case Publish => s.(queued := s.queued + 1)
    case Take(first) =>
      var s' := if first then s.(queued := s.queued - 1) else s.(delayed := s.delayed - 1);
      s'.(flights := s.flights + [InHandler(0, Posting)], takes := s.takes + 1)
    case Expire => s.(delayed := s.delayed - 1, expired := s.expired + 1)
    case Act(i, post, ok) =>
      match s.flights[i]
      case GivenUp =>
        if ok then s.(flights := Without(s.flights, i), dead := s.dead + 1)
        else s.(flights := Without(s.flights, i), dropped := s.dropped + 1)
      case InHandler(k, pc) =>
        var (row', pc') := Step(c, s.row, pc, post, ok);
        var s' := s.(row := row', calls := s.calls + if pc.Posting? then 1 else 0);
        if pc'.Ended? then Settle(c, s', i, k, pc'.effect)
        else s'.(flights := s.flights[i := InHandler(k, pc')])
  }

  predicate Valid(c: Settings, s: Flow, chs: seq<Choice>)
    decreases |chs|
  {
    chs == [] || (Enabled(s, chs[0]) && Valid(c, Apply(c, s, chs[0]), chs[1..]))
  }

  function Exec(c: Settings, s: Flow, chs: seq<Choice>): Flow
    requires Valid(c, s, chs)
    decreases |chs|
  {
    if chs == [] then s else Exec(c, Apply(c, s, chs[0]), chs[1..])
  }

  // -- Conservation -------------------------------------------------------------------------------------

  /** All messages, wherever they are. */
  function Tokens(s: Flow): nat {
    s.queued + s.delayed + |s.flights| + s.delivered + s.dead + s.expired + s.dropped
  }

  /** No step makes or loses a message, for any number of messages: each is at every step queued, in
      flight, or ended one way. */
  lemma StepConserves(c: Settings, s: Flow, ch: Choice)
    requires Enabled(s, ch)
    ensures Tokens(Apply(c, s, ch)) == Tokens(s) + if ch.Publish? then 1 else 0
  {
  }

  lemma {:induction false} RunConserves(c: Settings, s: Flow, chs: seq<Choice>)
    requires Valid(c, s, chs)
    ensures Tokens(Exec(c, s, chs)) == Tokens(s) + Count(chs, (ch: Choice) => ch.Publish?)
    decreases |chs|
  {
    if chs == [] {
    } else {
      StepConserves(c, s, chs[0]);
      RunConserves(c, Apply(c, s, chs[0]), chs[1..]);
      CountHead(chs, (ch: Choice) => ch.Publish?);
    }
  }

  /** One step of a lone delivery, in terms of the handler's own step. */
  lemma LoneStep(c: Settings, s: Flow, k: nat, pc: Pc, post: Post, ok: bool)
    requires s.flights == [InHandler(k, pc)] && !pc.Ended?
    ensures var (row', pc') := Step(c, s.row, pc, post, ok);
            var s' := s.(row := row', calls := s.calls + (if pc.Posting? then 1 else 0));
            Apply(c, s, Act(0, post, ok)) ==
            if pc'.Ended? then Settle(c, s'.(flights := [InHandler(k, Posting)]), 0, k, pc'.effect)
            else s'.(flights := [InHandler(k, pc')])
    ensures Distance(Step(c, s.row, pc, post, ok).1) < Distance(pc) && !Step(c, s.row, pc, post, ok).1.Posting?
  {
  }

  // -- One message ----------------------------------------------------------------------------------------

  /** The largest attempts value with which a message can be republished. */
  function Ceiling(c: Settings): nat {
    if c.maxRetries < 0 then 0 else if c.maxRetries <= |c.backoffs| then c.maxRetries else |c.backoffs|
  }

  predicate Bounds(c: Settings, s: Flow, takes: nat) {
    s.calls <= takes * (|c.backoffs| + 1) && s.slept <= takes * Sum(c.backoffs)
  }

  /** The row and counters while the message is in flight. */
  predicate FlightOk(c: Settings, s: Flow, p: Progress, f: Flight) {
    && 1 <= s.takes <= Ceiling(c) + 1 && p.status != DELIVERED
    && match f
       case GivenUp => p.attempts <= Ceiling(c) + |c.backoffs| + 1 && Bounds(c, s, s.takes)
       case InHandler(k, pc) =>
         && k <= |c.backoffs|
         && s.calls <= (s.takes - 1) * (|c.backoffs| + 1) + k + (if pc.Posting? then 0 else 1)
         && s.slept <= (s.takes - 1) * Sum(c.backoffs) + Sum(c.backoffs[..k])
         && s.takes - 1 <= p.attempts <= Ceiling(c) + k + (if pc.Posting? then 0 else 1)
         && (p.status == FAILED ==> p.attempts > c.maxRetries)
         && (k == 0 && pc.Posting? ==> p.status == PENDING)
         && (!pc.Posting? ==> 1 <= s.takes <= p.attempts)
         && !pc.Ended?
         && (pc.Decided? ==> pc.seen == p.attempts)
         && (pc.ToDeadLetter? ==> p.attempts > c.maxRetries && p.status == FAILED)
         && (pc.ToQueue? ==> && p.attempts <= Ceiling(c) && p.status == PENDING
                             && Lookup(c.backoffs, p.attempts - 1) == Some(pc.delay) == p.nextRetry)
  }

  /** What holds of a single message, published by `process_lead` for a row that was pending with no
      attempts, at every step until it ends. */
  predicate TokenInv(c: Settings, s: Flow) {
    && Tokens(s) == 1 && s.row.Some?
    && var p := s.row.value;
    && 0 <= p.attempts <= Ceiling(c) + |c.backoffs| + 1
    && s.takes <= Ceiling(c) + 1
    && (s.queued == 1 ==> p.status == PENDING && p.attempts == 0 && s.takes == s.calls == s.slept == 0)
    && (s.delayed == 1 ==> p.status == PENDING && 1 <= s.takes <= p.attempts <= Ceiling(c) && Bounds(c, s, s.takes))
    && (|s.flights| == 1 ==> FlightOk(c, s, p, s.flights[0]))
    && (s.delivered == 1 ==> p.status == DELIVERED && p.attempts == 1 && Bounds(c, s, s.takes))
    && (s.dead + s.expired + s.dropped == 1 ==> p.status != DELIVERED && Bounds(c, s, s.takes))
  }

  lemma TakeKeeps(c: Settings, s: Flow, ch: Choice)
    requires TokenInv(c, s) && Enabled(s, ch) && (ch.Take? || ch.Expire?)
    ensures TokenInv(c, Apply(c, s, ch))
  {
    assert c.backoffs[..0] == [];
  }

  /** The counters after the post of attempt `k`, whatever comes next. */
  predicate Counters(c: Settings, s: Flow, k: nat) {
    && 1 <= s.takes <= Ceiling(c) + 1 && k <= |c.backoffs|
    && s.calls <= (s.takes - 1) * (|c.backoffs| + 1) + k + 1
    && s.slept <= (s.takes - 1) * Sum(c.backoffs) + Sum(c.backoffs[..k])
  }

  lemma OneMore(t: int, w: int)
    ensures (t - 1) * w + w == t * w
  {
  }

  lemma CountersBound(c: Settings, s: Flow, k: nat)
    requires Counters(c, s, k)
    ensures Bounds(c, s, s.takes)
    ensures k < |c.backoffs| ==> s.slept + c.backoffs[k] <= (s.takes - 1) * Sum(c.backoffs) + Sum(c.backoffs[..k + 1])
  {
    SumPrefix(c.backoffs, k);
    OneMore(s.takes, |c.backoffs| + 1);
    OneMore(s.takes, Sum(c.backoffs));
  }

  /** A retryable raise in attempt `k` leads to the next attempt or to giving up. */
  lemma RaiseKeeps(c: Settings, s: Flow, k: nat)
    requires Tokens(s) == |s.flights| == 1 && s.row.Some? && Counters(c, s, k)
    requires var p := s.row.value;
             && p.status != DELIVERED && 0 <= p.attempts && s.takes - 1 <= p.attempts <= Ceiling(c) + k + 1
             && (p.status == FAILED ==> p.attempts > c.maxRetries)
    ensures TokenInv(c, Settle(c, s, 0, k, Failed(false)))
  {
    CountersBound(c, s, k);
  }

  /** An effect that takes the message out of flight. */
  lemma LeaveKeeps(c: Settings, s: Flow, k: nat, e: Effect)
    requires Tokens(s) == |s.flights| == 1 && s.row.Some? && Counters(c, s, k)
    requires var p := s.row.value;
             match e
             case Delivered => p.status == DELIVERED && p.attempts == 1
             case DeadLettered => p.status == FAILED && 0 <= p.attempts <= Ceiling(c) + k + 1
             case Requeued(_) => p.status == PENDING && s.takes <= p.attempts <= Ceiling(c)
             case Failed(noRetry) => noRetry && p.status == FAILED && p.attempts == 1
    ensures TokenInv(c, Settle(c, s, 0, k, e))
  {
    CountersBound(c, s, k);
  }

  /** The post that ends the attempt: delivered, permanently failed, or a raise. */
  lemma PostEnds(c: Settings, s: Flow, k: nat, post: Post, ok: bool)
    requires TokenInv(c, s) && s.flights == [InHandler(k, Posting)] && !(Classify(post).Transient? && ok)
    ensures TokenInv(c, Apply(c, s, Act(0, post, ok)))
  {
    var (row', pc') := Step(c, s.row, Posting, post, ok);
    var s' := s.(row := row', calls := s.calls + 1);
    LoneStep(c, s, k, Posting, post, ok);
    hide Apply, Settle;
    assert s' == s'.(flights := [InHandler(k, Posting)]);
    if pc'.effect == Failed(false) {
      RaiseKeeps(c, s', k);
    } else {
      LeaveKeeps(c, s', k, pc'.effect);
    }
  }

  /** The post that is counted: one attempt more, committed. */
  lemma PostCounts(c: Settings, s: Flow, k: nat, post: Post)
    requires TokenInv(c, s) && s.flights == [InHandler(k, Posting)] && Classify(post).Transient?
    ensures TokenInv(c, Apply(c, s, Act(0, post, true)))
  {
    var p := s.row.value;
    assert Apply(c, s, Act(0, post, true)) ==
           s.(row := Some(p.(attempts := p.attempts + 1)), calls := s.calls + 1, flights := [InHandler(k, Counted)]);
  }

  lemma PostKeeps(c: Settings, s: Flow, ch: Choice)
    requires TokenInv(c, s) && Enabled(s, ch) && ch.Act? && s.flights[0].InHandler? && s.flights[0].pc.Posting?
    ensures TokenInv(c, Apply(c, s, ch))
  {
    assert s.flights == [s.flights[0]];
    if Classify(ch.post).Transient? && ch.ok {
      PostCounts(c, s, s.flights[0].attempt, ch.post);
    } else {
      PostEnds(c, s, s.flights[0].attempt, ch.post, ch.ok);
    }
  }

  /** A step after the post that leaves the call going. */
  lemma GoesOn(c: Settings, s: Flow, ch: Choice, k: nat, pc: Pc)
    requires TokenInv(c, s) && Enabled(s, ch) && ch.Act? && s.flights == [InHandler(k, pc)] && !pc.Posting?
    requires !Step(c, s.row, pc, ch.post, ch.ok).1.Ended?
    ensures TokenInv(c, Apply(c, s, ch))
  {
    var (row', pc') := Step(c, s.row, pc, ch.post, ch.ok);
    assert Apply(c, s, ch) == s.(row := row', flights := [InHandler(k, pc')]);
    hide Bounds, Sum;
  }

  /** A step after the post that ends the call. */
  lemma Ends(c: Settings, s: Flow, ch: Choice, k: nat, pc: Pc)
    requires TokenInv(c, s) && Enabled(s, ch) && ch.Act? && s.flights == [InHandler(k, pc)] && !pc.Posting?
    requires Step(c, s.row, pc, ch.post, ch.ok).1.Ended?
    ensures TokenInv(c, Apply(c, s, ch))
  {
    var (row', pc') := Step(c, s.row, pc, ch.post, ch.ok);
    assert row' == s.row;
    assert Apply(c, s, ch) == Settle(c, s, 0, k, pc'.effect);
    hide Settle, Apply, Step, Bounds, Sum;
    if pc'.effect == Failed(false) {
      RaiseKeeps(c, s, k);
    } else {
      LeaveKeeps(c, s, k, pc'.effect);
    }
  }

  lemma LaterKeeps(c: Settings, s: Flow, ch: Choice)
    requires TokenInv(c, s) && Enabled(s, ch) && ch.Act? && s.flights[0].InHandler? && !s.flights[0].pc.Posting?
    ensures TokenInv(c, Apply(c, s, ch))
  {
    var (k, pc) := (s.flights[0].attempt, s.flights[0].pc);
    assert s.flights == [InHandler(k, pc)];
    hide Apply, Step;
    if Step(c, s.row, pc, ch.post, ch.ok).1.Ended? {
      Ends(c, s, ch, k, pc);
    } else {
      GoesOn(c, s, ch, k, pc);
    }
  }

  lemma StepKeeps(c: Settings, s: Flow, ch: Choice)
    requires TokenInv(c, s) && Enabled(s, ch) && !ch.Publish?
    ensures TokenInv(c, Apply(c, s, ch))
  {
    if !ch.Act? {
      TakeKeeps(c, s, ch);
    } else if s.flights[0].GivenUp? {
    } else if s.flights[0].pc.Posting? {
      PostKeeps(c, s, ch);
    } else {
      LaterKeeps(c, s, ch);
    }
  }
}
