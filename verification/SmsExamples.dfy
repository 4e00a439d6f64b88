/** Failure patterns that reach the bounds, break the backoff lookup, or never end. */
module SmsExamples {
  import opened Wrappers
  import opened Config
  import opened Schema
  import opened Sms
  import opened SmsFlow
  import opened SmsBounds

  lemma {:induction false} ExecJoin(c: Settings, s: Flow, a: seq<Choice>, b: seq<Choice>)
    requires Valid(c, s, a) && Valid(c, Exec(c, s, a), b)
    ensures Valid(c, s, a + b) && Exec(c, s, a + b) == Exec(c, Exec(c, s, a), b)
    decreases |a|
  {
    if a == [] {
      assert a + b == b;
    } else {
      ExecJoin(c, Apply(c, s, a[0]), a[1..], b);
      assert (a + b)[1..] == a[1..] + b;
    }
  }

  lemma ExecOne(c: Settings, s: Flow, ch: Choice)
    requires Enabled(s, ch)
    ensures Valid(c, s, [ch]) && Exec(c, s, [ch]) == Apply(c, s, ch)
  {
    assert [ch][1..] == [];
    assert Valid(c, Apply(c, s, ch), [ch][1..]);
  }

  /** Extending a run by one step. */
  lemma ExecSnoc(c: Settings, s: Flow, a: seq<Choice>, ch: Choice)
    requires Valid(c, s, a) && Enabled(Exec(c, s, a), ch)
    ensures Valid(c, s, a + [ch]) && Exec(c, s, a + [ch]) == Apply(c, Exec(c, s, a), ch)
  {
    ExecOne(c, Exec(c, s, a), ch);
    ExecJoin(c, s, a, [ch]);
  }

  const POST := Act(0, Unreachable, true)
  const RAISED := Act(0, Crashed, false)

  /** A flight about to post in attempt `k`, with the given row and counters. */
  predicate Poised(s: Flow, k: nat) {
    s.flights == [InHandler(k, Posting)] && s.row.Some?
  }

  lemma SumNone(s: seq<nat>)
    ensures Sum(s[..0]) == 0
  {
  }

  /** One attempt that raises, after committing its increment when `counting`. */
  lemma RaiseOnce(c: Settings, s: Flow, k: nat, counting: bool) returns (chs: seq<Choice>)
    requires Poised(s, k) && k < |c.backoffs|
    ensures Valid(c, s, chs) && Publish !in chs
    ensures var p := s.row.value;
            Exec(c, s, chs) == s.(flights := [InHandler(k + 1, Posting)],
                                  row := Some(p.(attempts := p.attempts + if counting then 1 else 0)),
                                  calls := s.calls + 1, slept := s.slept + c.backoffs[k])
  {
    if counting {
      ExecOne(c, s, POST);
      ExecSnoc(c, s, [POST], RAISED);
      chs := [POST] + [RAISED];
    } else {
      ExecOne(c, s, RAISED);
      chs := [RAISED];
    }
  }

  /** From attempt 0, raise in every attempt up to attempt `k`; when `counting`, each attempt commits its
      increment first. */
  lemma {:induction false} Spin(c: Settings, s: Flow, k: nat, counting: bool) returns (chs: seq<Choice>)
    requires Poised(s, 0) && k <= |c.backoffs|
    ensures Valid(c, s, chs) && Publish !in chs
    ensures var p := s.row.value;
            Exec(c, s, chs) == s.(flights := [InHandler(k, Posting)],
                                  row := Some(p.(attempts := p.attempts + if counting then k else 0)),
                                  calls := s.calls + k, slept := s.slept + Sum(c.backoffs[..k]))
    decreases k
  {
    hide Apply, Sum;
    if k == 0 {
      chs := [];
      SumNone(c.backoffs);
    } else {
      var front := Spin(c, s, k - 1, counting);
      SumPrefix(c.backoffs, k - 1);
      var turn := RaiseOnce(c, Exec(c, s, front), k - 1, counting);
      ExecJoin(c, s, front, turn);
      chs := front + turn;
    }
  }

  const GO := Act(0, Crashed, true)

  /** A counted failure within the limits: increment, read back, store the delay, republish. */
  lemma Requeue(c: Settings, s: Flow, k: nat) returns (chs: seq<Choice>)
    requires Poised(s, k) && 0 <= s.row.value.attempts < Ceiling(c)
    ensures var p := s.row.value;
            && Valid(c, s, chs) && Publish !in chs
            && Exec(c, s, chs) == s.(flights := [], delayed := s.delayed + 1, calls := s.calls + 1,
                                     row := Some(p.(attempts := p.attempts + 1,
                                                    nextRetry := Some(c.backoffs[p.attempts]))))
  {
    ExecOne(c, s, POST);
    ExecSnoc(c, s, [POST], GO);
    ExecSnoc(c, s, [POST] + [GO], GO);
    ExecSnoc(c, s, [POST] + [GO] + [GO], GO);
    chs := [POST] + [GO] + [GO] + [GO];
  }

  /** One delivery that raises in-process on all attempts but the last and then republishes. */
  lemma Round(c: Settings, s: Flow, first: bool) returns (chs: seq<Choice>)
    requires Enabled(s, Take(first)) && s.flights == [] && s.row.Some? && 0 <= s.row.value.attempts < Ceiling(c)
    ensures Valid(c, s, chs) && Publish !in chs
    ensures var p := s.row.value;
            Exec(c, s, chs) == s.(queued := s.queued - (if first then 1 else 0),
                                  delayed := s.delayed + (if first then 1 else 0),
                                  takes := s.takes + 1, calls := s.calls + |c.backoffs| + 1,
                                  slept := s.slept + Sum(c.backoffs),
                                  row := Some(p.(attempts := p.attempts + 1,
                                                 nextRetry := Some(c.backoffs[p.attempts]))))
  {
    ExecOne(c, s, Take(first));
    var s1 := Apply(c, s, Take(first));
    var spin := Spin(c, s1, |c.backoffs|, false);
    ExecJoin(c, s, [Take(first)], spin);
    var last := Requeue(c, Exec(c, s1, spin), |c.backoffs|);
    ExecJoin(c, s, [Take(first)] + spin, last);
    chs := [Take(first)] + spin + last;
    assert c.backoffs[..|c.backoffs|] == c.backoffs;
  }

  /** `n` such deliveries. */
  lemma {:induction false} Rounds(c: Settings, n: nat) returns (chs: seq<Choice>)
    requires n <= Ceiling(c)
    ensures OneMessageRun(c, chs)
    ensures var s := Exec(c, START, chs);
            && s.flights == [] && s.takes == n && s.queued == (if n == 0 then 1 else 0)
            && s.delayed == (if n == 0 then 0 else 1)
            && s.row.Some? && s.row.value.attempts == n && s.row.value.status == PENDING
            && s.calls == n * (|c.backoffs| + 1) && s.slept == n * Sum(c.backoffs)
    decreases n
  {
    if n == 0 {
      chs := [];
    } else {
      var front := Rounds(c, n - 1);
      var round := Round(c, Exec(c, START, front), n == 1);
      ExecJoin(c, START, front, round);
      chs := front + round;
      OneMore(n, |c.backoffs| + 1);
      OneMore(n, Sum(c.backoffs));
    }
  }

  /** A last delivery that counts every attempt and gives up. */
  lemma LastRound(c: Settings, s: Flow, first: bool) returns (chs: seq<Choice>)
    requires Enabled(s, Take(first)) && s.flights == [] && s.row.Some?
    ensures Valid(c, s, chs) && Publish !in chs
    ensures var s' := Exec(c, s, chs);
            && s'.calls == s.calls + |c.backoffs| + 1 && s'.slept == s.slept + Sum(c.backoffs)
            && s'.row.Some? && s'.row.value.attempts == s.row.value.attempts + |c.backoffs| + 1
  {
    ExecOne(c, s, Take(first));
    var s1 := Apply(c, s, Take(first));
    var spin := Spin(c, s1, |c.backoffs|, true);
    ExecJoin(c, s, [Take(first)], spin);
    ExecSnoc(c, s, [Take(first)] + spin, POST);
    ExecSnoc(c, s, [Take(first)] + spin + [POST], RAISED);
    chs := [Take(first)] + spin + [POST] + [RAISED];
    assert c.backoffs[..|c.backoffs|] == c.backoffs;
  }

  /** The bounds are exact: for every setting one failure pattern reaches all three of them. */
  lemma BoundsAreReached(c: Settings) returns (chs: seq<Choice>)
    ensures OneMessageRun(c, chs)
    ensures var s := Exec(c, START, chs);
            && s.calls == (Ceiling(c) + 1) * (|c.backoffs| + 1)
            && s.slept == (Ceiling(c) + 1) * Sum(c.backoffs)
            && s.row.Some? && s.row.value.attempts == Ceiling(c) + |c.backoffs| + 1
  {
    var n := Ceiling(c);
    var front := Rounds(c, n);
    var last := LastRound(c, Exec(c, START, front), n == 0);
    ExecJoin(c, START, front, last);
    chs := front + last;
    OneMore(n + 1, |c.backoffs| + 1);
    OneMore(n + 1, Sum(c.backoffs));
  }

  /** A message taken and posted once, with the given answer. */
  lemma TakenAndPosted(c: Settings, post: Choice) returns (chs: seq<Choice>)
    requires post.Act? && post.i == 0 && post.ok && (post.post == Response(200) || post.post == Response(404))
    ensures OneMessageRun(c, chs)
    ensures var s := Exec(c, START, chs);
            if post.post == Response(200) then s.delivered == 1 else s.flights == [GivenUp] && s.dead == s.dropped == 0
  {
    var take := Take(true);
    ExecOne(c, START, take);
    ExecSnoc(c, START, [take], post);
    chs := [take] + [post];
  }

  lemma Expires(c: Settings) returns (chs: seq<Choice>)
    requires Ceiling(c) >= 1
    ensures OneMessageRun(c, chs) && Exec(c, START, chs).expired == 1
  {
    var back := Rounds(c, 1);
    ExecSnoc(c, START, back, Expire);
    chs := back + [Expire];
    ExecKeeps(c, START, chs);
  }

  /** All four endings are reached, for every setting in the first three cases and whenever a message can come
      back at all in the last: a 2xx answer delivers; a rejected message is dead-lettered or, when that
      publish raises, dropped; a republished one can expire. */
  lemma EveryEndingReached(c: Settings)
    returns (delivered: seq<Choice>, dead: seq<Choice>, dropped: seq<Choice>, expired: seq<Choice>)
    ensures OneMessageRun(c, delivered) && Exec(c, START, delivered).delivered == 1
    ensures OneMessageRun(c, dead) && Exec(c, START, dead).dead == 1
    ensures OneMessageRun(c, dropped) && Exec(c, START, dropped).dropped == 1
    ensures Ceiling(c) >= 1 ==> OneMessageRun(c, expired) && Exec(c, START, expired).expired == 1
  {
    delivered := TakenAndPosted(c, Act(0, Response(200), true));
    var rejected := TakenAndPosted(c, Act(0, Response(404), true));
    ExecSnoc(c, START, rejected, GO);
    ExecSnoc(c, START, rejected, RAISED);
    dead, dropped, expired := rejected + [GO], rejected + [RAISED], [];
    if Ceiling(c) >= 1 {
      expired := Expires(c);
    }
    hide Exec, Valid;
  }

  // -- The backoff lookup ---------------------------------------------------------------------------------

  /** Every flight that decided to republish finds its index in range. */
  predicate LookupInRange(c: Settings, s: Flow) {
    forall i | 0 <= i < |s.flights| && s.flights[i].InHandler? && s.flights[i].pc.Decided?
               && s.flights[i].pc.seen <= c.maxRetries :: 0 <= s.flights[i].pc.seen - 1 < |c.backoffs|
  }

  lemma LookupSafe(c: Settings, chs: seq<Choice>)
    requires OneMessageRun(c, chs) && c.maxRetries <= |c.backoffs|
    ensures LookupInRange(c, Exec(c, START, chs))
  {
    ExecKeeps(c, START, chs);
  }

  /** With more retries than backoffs, a run reaches a lookup past the end. */
  lemma LookupPastEnd(c: Settings) returns (chs: seq<Choice>)
    requires c.maxRetries > |c.backoffs|
    ensures OneMessageRun(c, chs) && !LookupInRange(c, Exec(c, START, chs))
  {
    var n := Ceiling(c);
    var front := Rounds(c, n);
    var take := Take(n == 0);
    ExecSnoc(c, START, front, take);
    ExecSnoc(c, START, front + [take], POST);
    ExecSnoc(c, START, front + [take] + [POST], GO);
    chs := front + [take] + [POST] + [GO];
    var s := Exec(c, START, chs);
    assert s.flights[0] == InHandler(0, Decided(n + 1));
    assert !(0 <= s.flights[0].pc.seen - 1 < |c.backoffs|);
  }

  /** `retry_backoffs_ms[attempts - 1]` is in range in every reachable state exactly when the retry limit
      is at most the number of backoffs. */
  lemma LookupInRangeIff(c: Settings)
    ensures (forall chs :: OneMessageRun(c, chs) ==> LookupInRange(c, Exec(c, START, chs))) <==>
            c.maxRetries <= |c.backoffs|
  {
    if c.maxRetries <= |c.backoffs| {
      forall chs | OneMessageRun(c, chs)
        ensures LookupInRange(c, Exec(c, START, chs))
      {
        LookupSafe(c, chs);
      }
    } else {
      var chs := LookupPastEnd(c);
    }
  }

  // -- What the row decides ---------------------------------------------------------------------------------

  const ROWLESS: Flow := Empty(None).(queued := 1)

  /** A run of one message whose row is missing, in which the queue hands it out at least `n` times. */
  predicate RowlessRun(c: Settings, chs: seq<Choice>, n: nat) {
    Valid(c, ROWLESS, chs) && Publish !in chs && Exec(c, ROWLESS, chs).takes >= n
  }

  ghost predicate CanComeBack(c: Settings, n: nat) {
    exists chs :: RowlessRun(c, chs, n)
  }

  /** If the SMS row were missing, the attempts read back would be 1 for ever: the same failure can
      requeue the message any number of times. */
  lemma {:induction false} MissingRowNeverEnds(c: Settings, n: nat) returns (chs: seq<Choice>)
    requires n >= 1 && c.maxRetries >= 1 && |c.backoffs| >= 1
    ensures Valid(c, ROWLESS, chs) && Publish !in chs
    ensures Exec(c, ROWLESS, chs) == Empty(None).(delayed := 1, takes := n, calls := n)
    decreases n
  {
    var front: seq<Choice> := [];
    if n > 1 {
      front := MissingRowNeverEnds(c, n - 1);
    }
    var take := Take(n == 1);
    ExecSnoc(c, ROWLESS, front, take);
    var s := Exec(c, ROWLESS, front + [take]);
    assert s == Empty(None).(flights := [InHandler(0, Posting)], takes := n, calls := n - 1);
    var round := RowlessRequeue(c, s);
    ExecJoin(c, ROWLESS, front + [take], round);
    chs := front + [take] + round;
  }

  /** Without a row, a counted failure reads back one attempt and requeues. */
  lemma RowlessRequeue(c: Settings, s: Flow) returns (chs: seq<Choice>)
    requires s.flights == [InHandler(0, Posting)] && s.row.None? && c.maxRetries >= 1 && |c.backoffs| >= 1
    ensures Valid(c, s, chs) && Publish !in chs
    ensures Exec(c, s, chs) == s.(flights := [], delayed := s.delayed + 1, calls := s.calls + 1)
  {
    ExecOne(c, s, POST);
    ExecSnoc(c, s, [POST], GO);
    ExecSnoc(c, s, [POST] + [GO], GO);
    ExecSnoc(c, s, [POST] + [GO] + [GO], GO);
    chs := [POST] + [GO] + [GO] + [GO];
  }

  /** Without a row, without retries or without backoffs: the message is never on its way back. */
  predicate NotRequeued(s: Flow) {
    && s.row.None? && s.delayed == 0 && s.queued + s.takes <= 1
    && forall i | 0 <= i < |s.flights| && s.flights[i].InHandler? ::
         !s.flights[i].pc.ToQueue? && (s.flights[i].pc.Decided? ==> s.flights[i].pc.seen == 1)
  }

  lemma NotRequeuedStep(c: Settings, s: Flow, ch: Choice)
    requires c.maxRetries < 1 || |c.backoffs| == 0
    requires NotRequeued(s) && Enabled(s, ch) && !ch.Publish?
    ensures NotRequeued(Apply(c, s, ch))
  {
    hide Classify;
  }

  lemma {:induction false} NotRequeuedRun(c: Settings, s: Flow, chs: seq<Choice>)
    requires c.maxRetries < 1 || |c.backoffs| == 0
    requires NotRequeued(s) && Valid(c, s, chs) && Publish !in chs
    ensures NotRequeued(Exec(c, s, chs))
    decreases |chs|
  {
    hide NotRequeued, Apply;
    if chs == [] {
    } else {
      NotRequeuedStep(c, s, chs[0]);
      NotRequeuedRun(c, Apply(c, s, chs[0]), chs[1..]);
    }
  }

  /** A message whose row is missing can come back any number of times exactly when the limit allows a
      retry and there is a backoff; otherwise every run hands it out once and never requeues it. */
  lemma MissingRowNeverEndsIff(c: Settings)
    ensures (forall n: nat :: CanComeBack(c, n)) <==> c.maxRetries >= 1 && |c.backoffs| >= 1
    ensures c.maxRetries < 1 || |c.backoffs| == 0 ==>
              forall chs | RowlessRun(c, chs, 0) ::
                Exec(c, ROWLESS, chs).takes <= 1 && Exec(c, ROWLESS, chs).delayed == 0
  {
    if c.maxRetries >= 1 && |c.backoffs| >= 1 {
      forall n: nat
        ensures CanComeBack(c, n)
      {
        var chs := MissingRowNeverEnds(c, n + 1);
        assert RowlessRun(c, chs, n);
      }
    } else {
      forall chs | RowlessRun(c, chs, 0)
        ensures NotRequeued(Exec(c, ROWLESS, chs))
      {
        NotRequeuedRun(c, ROWLESS, chs);
      }
      assert forall chs :: RowlessRun(c, chs, 2) ==> RowlessRun(c, chs, 0);
      assert !CanComeBack(c, 2);
    }
  }

  // -- Whether a failed status is final -----------------------------------------------------------------

  predicate RowFailed(s: Flow) {
    s.row.Some? && s.row.value.status == FAILED
  }

  /** Somewhere in the run the row was failed, and at its end it no longer is. */
  predicate Reverts(c: Settings, before: seq<Choice>, after: seq<Choice>) {
    && OneMessageRun(c, before) && RowFailed(Exec(c, START, before))
    && OneMessageRun(c, before + after) && !RowFailed(Exec(c, START, before + after))
  }

  ghost predicate FailedIsFinal(c: Settings) {
    forall before, after :: !Reverts(c, before, after)
  }

  lemma {:induction false} ExecSplit(c: Settings, s: Flow, a: seq<Choice>, b: seq<Choice>)
    requires Valid(c, s, a + b)
    ensures Valid(c, s, a) && Valid(c, Exec(c, s, a), b)
    ensures Exec(c, s, a + b) == Exec(c, Exec(c, s, a), b)
    decreases |a|
  {
    if a == [] {
      assert a + b == b;
    } else {
      assert (a + b)[1..] == a[1..] + b;
      ExecSplit(c, Apply(c, s, a[0]), a[1..], b);
    }
  }

  /** With a limit of at least twice the number of backoffs, or without backoffs, no step takes a failed
      row out of that status. */
  lemma FailedStep(c: Settings, s: Flow, ch: Choice)
    requires |c.backoffs| == 0 || c.maxRetries >= 2 * |c.backoffs|
    requires TokenInv(c, s) && RowFailed(s) && Enabled(s, ch) && !ch.Publish?
    ensures RowFailed(Apply(c, s, ch))
  {
  }

  lemma {:induction false} FailedStays(c: Settings, s: Flow, chs: seq<Choice>)
    requires |c.backoffs| == 0 || c.maxRetries >= 2 * |c.backoffs|
    requires TokenInv(c, s) && RowFailed(s) && Valid(c, s, chs) && Publish !in chs
    ensures RowFailed(Exec(c, s, chs))
    decreases |chs|
  {
    hide TokenInv, Apply;
    if chs == [] {
    } else {
      FailedStep(c, s, chs[0]);
      StepKeeps(c, s, chs[0]);
      FailedStays(c, Apply(c, s, chs[0]), chs[1..]);
    }
  }

  /** A failed status need not be final: when the dead-letter publish raises and attempts are left, a
      later in-process attempt can deliver, and the row goes from failed to delivered within one
      delivery. Every setting with fewer retries than twice its backoffs has such a run. */
  lemma FailedThenDelivered(c: Settings) returns (before: seq<Choice>, after: seq<Choice>)
    requires |c.backoffs| >= 1 && c.maxRetries < 2 * |c.backoffs|
    ensures Reverts(c, before, after) && Take(true) !in after && Take(false) !in after
    ensures var s := Exec(c, START, before + after); s.row.Some? && s.row.value.status == DELIVERED
  {
    var n := Ceiling(c);
    var k := if c.maxRetries <= |c.backoffs| then 0 else c.maxRetries - |c.backoffs|;
    var front := Rounds(c, n);
    var take := Take(n == 0);
    ExecSnoc(c, START, front, take);
    var taken := front + [take];
    var spin := Spin(c, Exec(c, START, taken), k, true);
    ExecJoin(c, START, taken, spin);
    before := taken + spin;
    var s := Exec(c, START, before);
    var dead, saved := GiveUpThenDeliver(c, s, k);
    ExecJoin(c, START, before, dead);
    before := before + dead;
    ExecJoin(c, START, before, saved);
    after := saved;
  }

  /** In attempt `k`, one count short of exceeding the limit: mark the row failed, fail to publish the
      dead-letter record, and deliver in the next attempt. */
  lemma GiveUpThenDeliver(c: Settings, s: Flow, k: nat) returns (dead: seq<Choice>, saved: seq<Choice>)
    requires Poised(s, k) && k < |c.backoffs| && s.row.value.attempts + 1 > c.maxRetries
    ensures Valid(c, s, dead) && Publish !in dead && RowFailed(Exec(c, s, dead))
    ensures Valid(c, Exec(c, s, dead), saved) && Publish !in saved && Take(true) !in saved && Take(false) !in saved
    ensures var s' := Exec(c, Exec(c, s, dead), saved); s'.row.Some? && s'.row.value.status == DELIVERED
  {
    ExecOne(c, s, POST);
    ExecSnoc(c, s, [POST], GO);
    ExecSnoc(c, s, [POST] + [GO], GO);
    dead := [POST] + [GO] + [GO];
    var s1 := Exec(c, s, dead);
    var delivered := Act(0, Response(200), true);
    ExecOne(c, s1, RAISED);
    ExecSnoc(c, s1, [RAISED], delivered);
    saved := [RAISED] + [delivered];
  }

  /** A failed status is final in every run exactly when there are no backoffs or the retry limit is at
      least twice their number. */
  lemma FailedIsFinalIff(c: Settings)
    ensures FailedIsFinal(c) <==> |c.backoffs| == 0 || c.maxRetries >= 2 * |c.backoffs|
  {
    if |c.backoffs| == 0 || c.maxRetries >= 2 * |c.backoffs| {
      forall before, after
        ensures !Reverts(c, before, after)
      {
        if Reverts(c, before, after) {
          ExecKeeps(c, START, before);
          ExecSplit(c, START, before, after);
          FailedStays(c, Exec(c, START, before), after);
        }
      }
    } else {
      var before, after := FailedThenDelivered(c);
    }
  }
}
