/** What one SMS message can cost and how it ends, over every failure pattern. */
module SmsBounds {
  import opened Wrappers
  import opened Config
  import opened Schema
  import opened Sms
  import opened SmsFlow

  /** One message published by `process_lead`, its row pending with no attempts. */
  const START: Flow := Empty(Some(FRESH_PROGRESS)).(queued := 1)

  /** A run of that message alone: nothing else is published for its order. */
  predicate OneMessageRun(c: Settings, chs: seq<Choice>) {
    Valid(c, START, chs) && Publish !in chs
  }

  lemma {:induction false} ExecKeeps(c: Settings, s: Flow, chs: seq<Choice>)
    requires TokenInv(c, s) && Valid(c, s, chs) && Publish !in chs
    ensures TokenInv(c, Exec(c, s, chs))
    decreases |chs|
  {
    if chs == [] {
    } else {
      StepKeeps(c, s, chs[0]);
      ExecKeeps(c, Apply(c, s, chs[0]), chs[1..]);
    }
  }

  predicate IsOver(s: Flow) {
    s.delivered + s.dead + s.expired + s.dropped == 1
  }

  lemma Multiply(a: nat, b: nat, w: nat)
    requires a <= b
    ensures a * w <= b * w
  {
  }

  /** A last, unfinished share of at most `w` on top of `t - 1` full ones. */
  lemma LastShare(t: int, w: nat, part: int, x: int)
    requires x <= (t - 1) * w + part && part <= w
    ensures x <= t * w
  {
    OneMore(t, w);
  }

  lemma BoundsNow(c: Settings, s: Flow)
    requires TokenInv(c, s)
    ensures Bounds(c, s, s.takes)
  {
    var (w, z) := (|c.backoffs| + 1, Sum(c.backoffs));
    if |s.flights| == 1 && s.flights[0].InHandler? {
      var k := s.flights[0].attempt;
      SumPrefix(c.backoffs, k);
      hide Sum;
      LastShare(s.takes, w, k + (if s.flights[0].pc.Posting? then 0 else 1), s.calls);
      LastShare(s.takes, z, Sum(c.backoffs[..k]), s.slept);
    }
  }

  lemma BoundsGrow(c: Settings, s: Flow)
    requires TokenInv(c, s)
    ensures Bounds(c, s, Ceiling(c) + 1)
  {
    BoundsNow(c, s);
    assert s.takes <= Ceiling(c) + 1;
    hide Sum, TokenInv, Ceiling;
    Multiply(s.takes, Ceiling(c) + 1, |c.backoffs| + 1);
    Multiply(s.takes, Ceiling(c) + 1, Sum(c.backoffs));
  }

  /** For every setting and every failure pattern, at every step: at most (D + 1) * (B + 1) calls of
      `process_sms`, at most (D + 1) * sum(backoffs) milliseconds of in-process sleep, and attempts
      within D + B + 1, where B is the number of backoffs and D = max(0, min(maxRetries, B)). */
  lemma CostIsBounded(c: Settings, chs: seq<Choice>)
    requires OneMessageRun(c, chs)
    ensures var s := Exec(c, START, chs);
            && s.calls <= (Ceiling(c) + 1) * (|c.backoffs| + 1)
            && s.slept <= (Ceiling(c) + 1) * Sum(c.backoffs)
            && s.takes <= Ceiling(c) + 1
            && s.row.Some? && 0 <= s.row.value.attempts <= Ceiling(c) + |c.backoffs| + 1
  {
    ExecKeeps(c, START, chs);
    BoundsGrow(c, Exec(c, START, chs));
  }

  lemma ConfiguredValues()
    ensures Sum(RETRY_BACKOFFS_MS) == 21000 && |RETRY_BACKOFFS_MS| == 3
  {
    assert RETRY_BACKOFFS_MS[..2] == [1000, 4000] && [1000, 4000][..1] == [1000] && [1000][..0] == [];
    assert Sum([1000]) == 1000;
    assert Sum([1000, 4000]) == 5000;
  }

  /** With the configured backoffs and retry limit: 16 calls, 84000 ms, attempts at most 7. */
  lemma ConfiguredCost(c: Settings, chs: seq<Choice>)
    requires c.backoffs == RETRY_BACKOFFS_MS && c.maxRetries == DISTRIBUTOR_MAX_RETRIES && OneMessageRun(c, chs)
    ensures var s := Exec(c, START, chs);
            s.calls <= 16 && s.slept <= 84000 && s.row.Some? && s.row.value.attempts <= 7
  {
    hide Exec, Valid, Sum;
    CostIsBounded(c, chs);
    ConfiguredValues();
  }

  /** One message ends one way: at every step it is in exactly one place; once it is over, its row says
      delivered exactly when it ended as delivered; so a committed delivery and a dead-letter record
      never coexist, and there is at most one such record. */
  lemma OneEnding(c: Settings, chs: seq<Choice>)
    requires OneMessageRun(c, chs)
    ensures var s := Exec(c, START, chs);
            && Tokens(s) == 1 && s.row.Some?
            && (s.row.value.status == DELIVERED <==> s.delivered == 1)
            && s.dead + s.delivered <= 1
            && (s.delayed == 1 ==> s.row.value.status == PENDING && 1 <= s.row.value.attempts <= c.maxRetries)
            && (IsOver(s) <==> s.queued + s.delayed + |s.flights| == 0)
  {
    ExecKeeps(c, START, chs);
  }

  // -- Termination ----------------------------------------------------------------------------------------

  /** What the takes still possible contribute to the rank. */
  function TakesRank(c: Settings, takes: nat): int {
    (Ceiling(c) + 1 - takes) * (5 * (|c.backoffs| + 1) + 3)
  }

  /** What a flight contributes. */
  function FlightRank(c: Settings, f: Flight): int {
    match f
    case GivenUp => 1
    case InHandler(k, pc) => 5 * (|c.backoffs| - k) + 1 + Distance(pc)
  }

  function Rank(c: Settings, s: Flow): int {
    if IsOver(s) then 0
    else TakesRank(c, s.takes) + if |s.flights| != 1 then 0 else FlightRank(c, s.flights[0])
  }

  lemma QueueMoveLowersRank(c: Settings, s: Flow, ch: Choice)
    requires TokenInv(c, s) && Enabled(s, ch) && (ch.Take? || ch.Expire?)
    ensures 0 <= Rank(c, Apply(c, s, ch)) < Rank(c, s)
  {
    var m := 5 * (|c.backoffs| + 1) + 3;
    RankSign(Ceiling(c) + 1 - s.takes - 1, m);
    OneMore(Ceiling(c) + 1 - s.takes, m);
  }

  /** The one flight of a message that moves. */
  lemma FlightShape(c: Settings, s: Flow)
    requires TokenInv(c, s) && s.flights != []
    ensures |s.flights| == 1 && s.takes <= Ceiling(c) + 1 && !IsOver(s)
    ensures s.queued + s.delayed + s.delivered + s.dead + s.expired + s.dropped == 0
    ensures s.flights[0].InHandler? ==> s.flights[0].attempt <= |c.backoffs| && !s.flights[0].pc.Ended?
  {
  }

  /** A handler call that ends lowers the rank of its flight, which was at least one step from the end. */
  lemma SettleLowersRank(c: Settings, s: Flow, k: nat, e: Effect)
    requires |s.flights| == 1 && s.queued + s.delayed + s.delivered + s.dead + s.expired + s.dropped == 0
    requires k <= |c.backoffs| && TakesRank(c, s.takes) >= 0
    ensures 0 <= Rank(c, Settle(c, s, 0, k, e)) < TakesRank(c, s.takes) + 5 * (|c.backoffs| - k) + 2
  {
    hide TakesRank;
  }

  lemma FlightMoveLowersRank(c: Settings, s: Flow, ch: Choice)
    requires TokenInv(c, s) && Enabled(s, ch) && ch.Act?
    ensures 0 <= Rank(c, Apply(c, s, ch)) < Rank(c, s)
  {
    FlightShape(c, s);
    RankSign(Ceiling(c) + 1 - s.takes, 5 * (|c.backoffs| + 1) + 3);
    assert TakesRank(c, s.takes) >= 0;
    if s.flights[0].GivenUp? {
      hide TokenInv, TakesRank;
    } else {
      var (k, pc) := (s.flights[0].attempt, s.flights[0].pc);
      var (row', pc') := Step(c, s.row, pc, ch.post, ch.ok);
      var s' := s.(row := row', calls := s.calls + if pc.Posting? then 1 else 0);
      assert s.flights == [InHandler(k, pc)];
      LoneStep(c, s, k, pc, ch.post, ch.ok);
      hide TokenInv, TakesRank, Step, Distance, Settle, Apply;
      PostingDistance();
      if pc'.Ended? {
        SettleLowersRank(c, s'.(flights := [InHandler(k, Posting)]), k, pc'.effect);
      }
    }
  }

  lemma PostingDistance()
    ensures Distance(Posting) == 4 && forall pc :: Distance(pc) >= 0
  {
  }

  /** Every step lowers the rank, which is never negative: no failure pattern goes on for ever. */
  lemma RankFalls(c: Settings, s: Flow, ch: Choice)
    requires TokenInv(c, s) && Enabled(s, ch) && !ch.Publish?
    ensures 0 <= Rank(c, Apply(c, s, ch)) < Rank(c, s)
  {
    if ch.Act? {
      FlightMoveLowersRank(c, s, ch);
    } else {
      QueueMoveLowersRank(c, s, ch);
    }
  }

  lemma RankSign(left: int, m: nat)
    requires left >= 0
    ensures left * m >= 0
  {
  }

  /** A message that is not over can move: it is never stuck before one of its four endings. */
  lemma NeverStuck(c: Settings, s: Flow)
    requires TokenInv(c, s) && !IsOver(s)
    ensures exists ch :: Enabled(s, ch) && !ch.Publish?
  {
    if s.queued == 1 {
      assert Enabled(s, Take(true));
    } else if s.delayed == 1 {
      assert Enabled(s, Take(false));
    } else {
      assert Enabled(s, Act(0, Crashed, true));
    }
  }

  /** Every run is shorter than the initial rank, (D + 1) * (5 * (B + 1) + 3). */
  lemma {:induction false} RunsAreFinite(c: Settings, s: Flow, chs: seq<Choice>)
    requires TokenInv(c, s) && Valid(c, s, chs) && Publish !in chs
    ensures |chs| + Rank(c, Exec(c, s, chs)) <= Rank(c, s)
    decreases |chs|
  {
    if chs == [] {
    } else {
      RankFalls(c, s, chs[0]);
      StepKeeps(c, s, chs[0]);
      RunsAreFinite(c, Apply(c, s, chs[0]), chs[1..]);
    }
  }

  /** The rank of a single message is between 0 and (D + 1) * (5 * (B + 1) + 3). */
  lemma RankRange(c: Settings, s: Flow)
    requires TokenInv(c, s)
    ensures 0 <= Rank(c, s) <= (Ceiling(c) + 1) * (5 * (|c.backoffs| + 1) + 3)
  {
    var (left, m) := (Ceiling(c) + 1 - s.takes, 5 * (|c.backoffs| + 1) + 3);
    RankSign(left, m);
    if IsOver(s) {
    } else if |s.flights| == 1 {
      Multiply(left + 1, Ceiling(c) + 1, m);
      OneMore(left + 1, m);
    } else {
      Multiply(left, Ceiling(c) + 1, m);
    }
  }

  /** For every setting and every failure pattern the message is over after at most
      (D + 1) * (5 * (B + 1) + 3) steps, because until then it can always move. */
  lemma EveryRunEnds(c: Settings, chs: seq<Choice>)
    requires OneMessageRun(c, chs)
    ensures |chs| <= (Ceiling(c) + 1) * (5 * (|c.backoffs| + 1) + 3)
    ensures IsOver(Exec(c, START, chs)) || exists ch :: Enabled(Exec(c, START, chs), ch) && !ch.Publish?
  {
    hide Exec, Valid, Rank;
    RunsAreFinite(c, START, chs);
    ExecKeeps(c, START, chs);
    RankRange(c, START);
    RankRange(c, Exec(c, START, chs));
    if !IsOver(Exec(c, START, chs)) {
      NeverStuck(c, Exec(c, START, chs));
    }
  }
}
