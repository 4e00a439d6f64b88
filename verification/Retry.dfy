/** The in-process retry loop (apps/worker/src/gex_worker/middleware.py, `RetryMiddleware`). */
module Retry {
  import opened Wrappers

  /** How a handler call ended; `noRetry` is the exception's `_no_retry` attribute. */
  datatype Outcome = Returned | Raised(noRetry: bool)

  /** What the loop did: final state, last outcome, number of calls, sleeps in milliseconds. */
  datatype Scope<S> = Scope(state: S, last: Outcome, calls: nat, slept: seq<nat>)

  /** The attempt that follows a raise at `attempt`, when `n` backoffs are configured. */
  function NextAttempt(n: nat, attempt: nat, noRetry: bool): Option<nat> {
    if noRetry || attempt >= n then None else Some(attempt + 1)
  }

  /** The loop as a recursive specification, from `attempt` onwards. */
  function Consume<S>(call: (S, nat) -> (S, Outcome), backoffs: seq<nat>, s: S, attempt: nat): (r: Scope<S>)
    requires attempt <= |backoffs|
    decreases |backoffs| - attempt
  {
    var (s', o) := call(s, attempt);
    if o.Returned? || NextAttempt(|backoffs|, attempt, o.noRetry).None? then
      Scope(s', o, 1, [])
    else
      var r := Consume(call, backoffs, s', attempt + 1);
      r.(calls := r.calls + 1, slept := [backoffs[attempt]] + r.slept)
  }

  /** The loop unfolds one call at a time. */
  lemma ConsumeSteps<S>(call: (S, nat) -> (S, Outcome), backoffs: seq<nat>, s: S, k: nat)
    requires k <= |backoffs|
    ensures var (s', o) := call(s, k);
            if NextAttempt(|backoffs|, k, o == Raised(true)).None? || o.Returned? then
              Consume(call, backoffs, s, k) == Scope(s', o, 1, [])
            else
              var r := Consume(call, backoffs, s', k + 1);
              Consume(call, backoffs, s, k) == r.(calls := r.calls + 1, slept := [backoffs[k]] + r.slept)
  {
  }

  /** The state after `i` calls, and what call `i` answered, whether or not the loop gets there. */
  ghost function After<S>(call: (S, nat) -> (S, Outcome), s: S, i: nat): S {
    if i == 0 then s else call(After(call, s, i - 1), i - 1).0
  }

  ghost function Answer<S>(call: (S, nat) -> (S, Outcome), s: S, i: nat): Outcome {
    call(After(call, s, i), i).1
  }

  /** Call `i` is the last one: success, a `_no_retry` failure, or the call after the last backoff. */
  ghost predicate Final<S>(call: (S, nat) -> (S, Outcome), n: nat, s: S, i: nat) {
    Answer(call, s, i) != Raised(false) || i == n
  }

  /** What the loop does from call `k` on: it calls the handler until the first final call and stops
      there, sleeps exactly the matching stretch of the backoff list, and hands on the last outcome
      and the state it left. */
  ghost predicate StopsAtFirstFinal<S>(call: (S, nat) -> (S, Outcome), backoffs: seq<nat>, s: S, k: nat, r: Scope<S>) {
    && 1 <= r.calls && k + r.calls <= |backoffs| + 1
    && Final(call, |backoffs|, s, k + r.calls - 1)
    && (forall i :: k <= i < k + r.calls - 1 ==> !Final(call, |backoffs|, s, i))
    && r.last == Answer(call, s, k + r.calls - 1)
    && r.state == After(call, s, k + r.calls)
    && r.slept == backoffs[k..k + r.calls - 1]
  }

  lemma {:induction false} ConsumeFrom<S>(call: (S, nat) -> (S, Outcome), backoffs: seq<nat>, s: S, k: nat)
    requires k <= |backoffs|
    ensures StopsAtFirstFinal(call, backoffs, s, k, Consume(call, backoffs, After(call, s, k), k))
    decreases |backoffs| - k
  {
    hide Consume;
    ConsumeSteps(call, backoffs, After(call, s, k), k);
    var (s', o) := call(After(call, s, k), k);
    assert After(call, s, k + 1) == s' && Answer(call, s, k) == o;
    if o.Returned? || NextAttempt(|backoffs|, k, o.noRetry).None? {
      assert backoffs[k..k] == [];
    } else {
      ConsumeFrom(call, backoffs, s, k + 1);
      LaterStop(call, backoffs, s, k, Consume(call, backoffs, s', k + 1));
    }
  }

  /** A loop that stops at its first final call from `k + 1` on does so from `k` on, if call `k` is not final. */
  lemma LaterStop<S>(call: (S, nat) -> (S, Outcome), backoffs: seq<nat>, s: S, k: nat, r: Scope<S>)
    requires k < |backoffs| && !Final(call, |backoffs|, s, k) && StopsAtFirstFinal(call, backoffs, s, k + 1, r)
    ensures StopsAtFirstFinal(call, backoffs, s, k, r.(calls := r.calls + 1, slept := [backoffs[k]] + r.slept))
  {
    hide Final, After, Answer;
    assert backoffs[k..k + r.calls] == [backoffs[k]] + backoffs[k + 1..k + r.calls];
  }

  /** The whole loop stops at its first final call. */
  lemma ConsumeMeaning<S>(call: (S, nat) -> (S, Outcome), backoffs: seq<nat>, s: S)
    ensures StopsAtFirstFinal(call, backoffs, s, 0, Consume(call, backoffs, s, 0))
  {
    assert After(call, s, 0) == s;
    ConsumeFrom(call, backoffs, s, 0);
  }

  /** `consume_scope`. `fellThrough` is the `return None` after the loop, which is never reached. */
  method ConsumeScope<S>(call: (S, nat) -> (S, Outcome), backoffs: seq<nat>, s: S)
    returns (r: Scope<S>, fellThrough: bool)
    ensures r == Consume(call, backoffs, s, 0)
    ensures !fellThrough
  {
    hide Consume;
    var state, slept, attempt := s, [], 0;
    r, fellThrough := Scope(s, Returned, 0, []), false;
    while attempt < |backoffs| + 1
      invariant attempt <= |backoffs| && |slept| == attempt
      invariant Consume(call, backoffs, s, 0) ==
                var rest := Consume(call, backoffs, state, attempt);
                rest.(calls := attempt + rest.calls, slept := slept + rest.slept)
      decreases |backoffs| + 1 - attempt
    {
      ConsumeSteps(call, backoffs, state, attempt);
      var (state', outcome) := call(state, attempt);
      state := state';
      if outcome.Returned? {
        return Scope(state, outcome, attempt + 1, slept), false;
      }
      if outcome.noRetry {
        return Scope(state, outcome, attempt + 1, slept), false;
      }
      if attempt == |backoffs| {
        return Scope(state, outcome, attempt + 1, slept), false;
      }
      slept := slept + [backoffs[attempt]];
      attempt := attempt + 1;
    }
    fellThrough := true;
  }
}
