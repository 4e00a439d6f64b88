/** One SMS handler call (main.py `handle_sms`, `_schedule_retry_or_dlq`, `_increment_attempts`;
    distributors.py `process_sms`, `_mark_failed`; db.py `db_session`). */
module Sms {
  import opened Wrappers
  import opened Config
  import opened Schema
  import Retry

  /** Settings: `retry_backoffs_ms` and `distributor_max_retries`. */
  datatype Settings = Settings(backoffs: seq<nat>, maxRetries: int)

  /** What posting to the provider gave: the simulated failure, a response, a timeout or connect
      error, or any other exception. */
  datatype Post = Simulated | Response(code: int) | Unreachable | Crashed

  datatype Verdict = Accepted | Permanent | Transient | Unexpected

  /** `raise_for_status` raises outside 200..299; 4xx other than 408 and 429 is permanent. */
  function Classify(p: Post): Verdict {
    match p
    case Simulated => Transient
    case Unreachable => Transient
    case Crashed => Unexpected
    case Response(code) =>
      if 200 <= code < 300 then Accepted
      else if 400 <= code < 500 && code != 408 && code != 429 then Permanent
      else Transient
  }

  /** How a handler call ends. The first three return normally. */
  datatype Effect = Delivered | DeadLettered | Requeued(delay: nat) | Failed(noRetry: bool)

  function OutcomeOf(e: Effect): Retry.Outcome {
    if e.Failed? then Retry.Raised(e.noRetry) else Retry.Returned
  }

  /** Program points of a handler call: about to post; attempts incremented and committed; attempts
      read back; about to publish the dead-letter record; about to republish; over. */
  datatype Pc = Posting | Counted | Decided(seen: int) | ToDeadLetter | ToQueue(delay: nat) | Ended(effect: Effect)

  /** Python's list indexing: negative indices count from the end, out of range raises. */
  function Lookup(s: seq<nat>, i: int): Option<nat> {
    if 0 <= i < |s| then Some(s[i])
    else if -|s| <= i < 0 then Some(s[|s| + i])
    else None
  }

  /** An UPDATE of a row that may be missing. */
  function Update(row: Option<Progress>, f: Progress -> Progress): Option<Progress> {
    if row.Some? then Some(f(row.value)) else None
  }

  // The values the UPDATE statements set.

  function AsDelivered(p: Progress): Progress {
    p.(status := DELIVERED, attempts := 1)
  }

  function AsRejected(p: Progress): Progress {
    p.(status := FAILED, attempts := 1)
  }

  function AfterAttempt(p: Progress): Progress {
    p.(attempts := p.attempts + 1)
  }

  function AsExhausted(p: Progress): Progress {
    p.(status := FAILED)
  }

  const RAISE: Pc := Ended(Failed(false))

  /** One step on the order's committed SMS row. `ok` says whether the statement, commit or publish of
      this step goes through; when it does not, nothing is committed or enqueued. */
  function Step(c: Settings, row: Option<Progress>, pc: Pc, post: Post, ok: bool): (Option<Progress>, Pc)
    requires !pc.Ended?
  {
    match pc
    case Posting => (
      match Classify(post)
      case Accepted =>
        if ok then (Update(row, AsDelivered), Ended(Delivered)) else (row, RAISE)
      case Permanent =>
        if ok then (Update(row, AsRejected), Ended(Failed(true))) else (row, RAISE)
      case Transient =>
        if ok then (Update(row, AfterAttempt), Counted) else (row, RAISE)
      case Unexpected => (row, RAISE)
    )
    case Counted =>
      (row, if ok then Decided(if row.Some? then row.value.attempts else 1) else RAISE)
    case Decided(seen) =>
      if seen > c.maxRetries then
        if ok then (Update(row, AsExhausted), ToDeadLetter) else (row, RAISE)
      else (
        match Lookup(c.backoffs, seen - 1)
        case None => (row, RAISE)
        case Some(delay) =>
          if ok then (Update(row, (p: Progress) => p.(nextRetry := Some(delay))), ToQueue(delay)) else (row, RAISE)
      )
    case ToDeadLetter => (row, if ok then Ended(DeadLettered) else RAISE)
    case ToQueue(delay) => (row, if ok then Ended(Requeued(delay)) else RAISE)
  }

  function Distance(pc: Pc): nat {
    match pc
    case Posting => 4
    case Counted => 3
    case Decided(_) => 2
    case ToDeadLetter => 1
    case ToQueue(_) => 1
    case Ended(_) => 0
  }

  /** The faults of one handler call: the post, and whether each step that follows goes through. */
  datatype Faults = Faults(post: Post, commit: bool, select: bool, update: bool, publish: bool)

  function Ok(f: Faults, pc: Pc): bool {
    match pc
    case Posting => f.commit
    case Counted => f.select
    case Decided(_) => f.update
    case _ => f.publish
  }

  /** A whole handler call from program point `pc`. */
  function Handle(c: Settings, row: Option<Progress>, pc: Pc, f: Faults): (Option<Progress>, Effect)
    decreases Distance(pc)
  {
    if pc.Ended? then (row, pc.effect)
    else
      var (row', pc') := Step(c, row, pc, f.post, Ok(f, pc));
      Handle(c, row', pc', f)
  }

  /** A handler call unfolds one step at a time. */
  lemma HandleSteps(c: Settings, row: Option<Progress>, pc: Pc, f: Faults)
    requires !pc.Ended?
    ensures var (row', pc') := Step(c, row, pc, f.post, Ok(f, pc));
            && Handle(c, row, pc, f) == Handle(c, row', pc', f)
            && (pc'.Ended? ==> Handle(c, row', pc', f) == (row', pc'.effect))
  {
  }

  /** After a transient failure: nothing, or an increment, is committed before the call raises; or the call
      goes on to decide with the attempts it read back. */
  lemma HandleCounts(c: Settings, row: Option<Progress>, f: Faults)
    requires Classify(f.post).Transient?
    ensures var row' := Update(row, AfterAttempt);
            Handle(c, row, Posting, f) ==
            if !f.commit then (row, Failed(false))
            else if !f.select then (row', Failed(false))
            else Handle(c, row', Decided(if row'.Some? then row'.value.attempts else 1), f)
  {
  }

  /** The decision: over the limit the row is failed and a dead-letter record published; otherwise the
      delay is stored and the message republished, unless there is no such delay. */
  lemma HandleDecides(c: Settings, row: Option<Progress>, seen: int, f: Faults)
    ensures var (row', e) := Handle(c, row, Decided(seen), f);
            if seen > c.maxRetries then
              if !f.update then row' == row && e == Failed(false)
              else && row' == Update(row, AsExhausted)
                   && e == if f.publish then DeadLettered else Failed(false)
            else match Lookup(c.backoffs, seen - 1)
                 case None => row' == row && e == Failed(false)
                 case Some(delay) =>
                   if !f.update then row' == row && e == Failed(false)
                   else && row' == Update(row, (p: Progress) => p.(nextRetry := Some(delay)))
                        && e == if f.publish then Requeued(delay) else Failed(false)
  {
    HandleSteps(c, row, Decided(seen), f);
    var (row', pc') := Step(c, row, Decided(seen), f.post, f.update);
    if !pc'.Ended? {
      HandleSteps(c, row', pc', f);
    }
  }

  // -- How a call ends, in terms of the provider's answer ---------------------------------------------

  /** An answer outside 200..299 that is neither a final rejection nor another exception. */
  predicate IsTransient(p: Post) {
    p.Simulated? || p.Unreachable?
    || (p.Response? && (p.code < 200 || 300 <= p.code < 400 || p.code >= 500 || p.code == 408 || p.code == 429))
  }

  /** The ending of a call from the provider's answer. A 2xx response delivers and any 4xx response other
      than 408 and 429 rejects for good, each when its update is committed. Every other response, the
      simulated failure and an unreachable provider cost one attempt and never end the message at once.
      Any other exception leaves the row alone, and so does an update that is not committed. */
  lemma CallEnds(c: Settings, row: Option<Progress>, f: Faults)
    ensures var (row', e) := Handle(c, row, Posting, f);
            var p := f.post;
            && (e.Delivered? <==> p.Response? && 200 <= p.code < 300 && f.commit)
            && (e == Failed(true) <==> p.Response? && 400 <= p.code < 500 && p.code !in {408, 429} && f.commit)
            && (e.Delivered? && row.Some? ==> row' == Some(row.value.(status := DELIVERED, attempts := 1)))
            && (e == Failed(true) && row.Some? ==> row' == Some(row.value.(status := FAILED, attempts := 1)))
            && (row.None? ==> row'.None?)
            && (p.Crashed? || !f.commit ==> row' == row && e == Failed(false))
            && (f.commit && row.Some? && (p.Simulated? || p.Unreachable? || (p.Response? && !(200 <= p.code < 300)
                  && (p.code < 400 || p.code >= 500 || p.code == 408 || p.code == 429))) ==>
                  row'.Some? && row'.value.attempts == row.value.attempts + 1)
            && (e.DeadLettered? || e.Requeued? ==> !p.Crashed? && f.commit && f.select && f.update && f.publish)
  {
    HandleSteps(c, row, Posting, f);
    if Classify(f.post).Transient? {
      var row1 := Update(row, AfterAttempt);
      var n := if row1.Some? then row1.value.attempts else 1;
      HandleCounts(c, row, f);
      HandleDecides(c, row1, n, f);
    }
    hide Handle;
  }

  /** The decision after a counted attempt, the `n`-th: above the limit the row is failed and the message
      dead-lettered; otherwise it comes back after backoff number `n`, if there is one. */
  lemma RetryDecision(c: Settings, row: Option<Progress>, f: Faults)
    requires f.commit && f.select && IsTransient(f.post)
    ensures var (row', e) := Handle(c, row, Posting, f);
            var n := if row.Some? then row.value.attempts + 1 else 1;
            && (e.DeadLettered? <==> n > c.maxRetries && f.update && f.publish)
            && (1 <= n ==> (e.Requeued? <==> n <= c.maxRetries && n <= |c.backoffs| && f.update && f.publish))
            && (1 <= n && e.Requeued? ==> e.delay == c.backoffs[n - 1])
            && (e.DeadLettered? || e.Requeued? || e == Failed(false))
            && (row.Some? && f.update && n > c.maxRetries ==> row' == Some(row.value.(status := FAILED, attempts := n)))
            && (row.Some? && f.update && 1 <= n <= c.maxRetries && n <= |c.backoffs| ==>
                  row' == Some(row.value.(attempts := n, nextRetry := Some(c.backoffs[n - 1]))))
            && (row.Some? && (!f.update || (c.maxRetries >= n > |c.backoffs|)) ==>
                  row' == Some(row.value.(attempts := n)))
  {
    var row1 := Update(row, AfterAttempt);
    HandleCounts(c, row, f);
    HandleDecides(c, row1, if row1.Some? then row1.value.attempts else 1, f);
    hide Handle;
  }

  // -- The code, with its session ---------------------------------------------------------------------

  /** The exceptions that cross function boundaries. */
  datatype Exn = NoExn | Simulation | TransientExn | PermanentExn | OtherExn

  /** The handler over `distribution_status` (SMS rows, by order) and the broker. `session` is what the
      open transaction sees, `pending` whether it has uncommitted statements. */
  class Distributor {
    const settings: Settings
    var committed: map<Id, Progress>
    var session: map<Id, Progress>
    var pending: bool
    var distSms: seq<(Id, nat)>
    var deadSms: seq<Id>

    constructor (settings: Settings)
      ensures this.settings == settings && committed == session == map[] && !pending && distSms == [] && deadSms == []
    {
      this.settings := settings;
      committed, session, pending, distSms, deadSms := map[], map[], false, [], [];
    }

    function RowOf(rows: map<Id, Progress>, order: Id): Option<Progress> {
      if order in rows then Some(rows[order]) else None
    }

    /** `session.execute(UPDATE ... WHERE order_id = :order_id AND channel = 'SMS')`. */
    method Execute(order: Id, f: Progress -> Progress)
      modifies this`session, this`pending
      ensures pending
      ensures session == if order in old(session) then old(session)[order := f(old(session)[order])] else old(session)
    {
      if order in session {
        session := session[order := f(session[order])];
      }
      pending := true;
    }

    /** A commit that raises had no effect, and one with nothing pending cannot raise. */
    method Commit(ok: bool) returns (e: Exn)
      modifies this`committed, this`pending
      ensures e == if old(pending) && !ok then OtherExn else NoExn
      ensures if e.NoExn? then committed == session && !pending else committed == old(committed) && pending
    {
      if pending && !ok {
        return OtherExn;
      }
      committed, pending, e := session, false, NoExn;
    }

    method Rollback()
      modifies this`session, this`pending
      ensures session == committed && !pending
    {
      session, pending := committed, false;
    }

    /** `_mark_failed`. */
    method MarkFailed(order: Id, f: Faults) returns (e: Exn)
      requires !pending && session == committed
      modifies this`committed, this`session, this`pending
      ensures e == if f.commit then NoExn else OtherExn
      ensures if f.commit then !pending && session == committed else committed == old(committed)
      ensures f.commit && order in old(committed) ==>
                order in committed && committed[order] == old(committed)[order].(status := FAILED, attempts := 1)
      ensures f.commit && order !in old(committed) ==> order !in committed
      ensures forall o :: o != order ==> RowOf(committed, o) == RowOf(old(committed), o)
    {
      Execute(order, AsRejected);
      e := Commit(f.commit);
    }

    /** `process_sms`. The delivered update stays pending for the session block to commit. */
    method ProcessSms(order: Id, f: Faults) returns (e: Exn)
      requires !pending && session == committed
      modifies this`committed, this`session, this`pending
      ensures forall o :: o != order ==> RowOf(committed, o) == RowOf(old(committed), o)
      ensures e.NoExn? ==> forall o :: o != order ==> RowOf(session, o) == RowOf(old(committed), o)
      ensures f.post.Response? && 200 <= f.post.code < 300 ==>
                && e.NoExn? && pending && committed == old(committed)
                && (order in committed ==>
                      order in session && session[order] == committed[order].(status := DELIVERED, attempts := 1))
                && (order !in committed ==> order !in session)
      ensures IsTransient(f.post) ==>
                (e.Simulation? || e.TransientExn?) && !pending && session == committed == old(committed)
      ensures f.post.Crashed? ==> e.OtherExn? && !pending && session == committed == old(committed)
      ensures f.post.Response? && 400 <= f.post.code < 500 && f.post.code !in {408, 429} ==>
                if f.commit then
                  && e.PermanentExn? && !pending && session == committed
                  && (order in old(committed) ==>
                        && order in committed
                        && committed[order] == old(committed)[order].(status := FAILED, attempts := 1))
                  && (order !in old(committed) ==> order !in committed)
                else e.OtherExn? && committed == old(committed)
    {
      if f.post.Simulated? {
        return Simulation;
      }
      if f.post.Response? && !(200 <= f.post.code < 300) {
        if 400 <= f.post.code < 500 && f.post.code != 408 && f.post.code != 429 {
          e := MarkFailed(order, f);
          if e.NoExn? { e := PermanentExn; }
          return;
        }
        return TransientExn;
      }
      if f.post.Unreachable? {
        return TransientExn;
      }
      if f.post.Crashed? {
        return OtherExn;
      }
      Execute(order, AsDelivered);
      e := NoExn;
    }

    /** `_increment_attempts`: the increment is committed before the row is read back. */
    method IncrementAttempts(order: Id, f: Faults) returns (e: Exn, attempts: int)
      requires !pending && session == committed
      modifies this`committed, this`session, this`pending
      ensures e == if f.commit && f.select then NoExn else OtherExn
      ensures if f.commit then !pending && session == committed else committed == old(committed)
      ensures f.commit && order in old(committed) ==>
                && order in committed
                && committed[order] == old(committed)[order].(attempts := old(committed)[order].attempts + 1)
      ensures f.commit && order !in old(committed) ==> order !in committed
      ensures attempts == if RowOf(committed, order).Some? then committed[order].attempts else 1
      ensures forall o :: o != order ==> RowOf(committed, o) == RowOf(old(committed), o)
    {
      Execute(order, AfterAttempt);
      e := Commit(f.commit);
      attempts := if order in committed then committed[order].attempts else 1;
      if e.NoExn? && !f.select {
        e := OtherExn;
      }
    }

    /** `_schedule_retry_or_dlq`. */
    method ScheduleRetryOrDlq(order: Id, f: Faults) returns (e: Exn)
      requires !pending && session == committed && IsTransient(f.post)
      modifies this
      ensures var (row', effect) := Handle(settings, RowOf(old(committed), order), Posting, f);
              && RowOf(committed, order) == row'
              && e == (if effect.Failed? then OtherExn else NoExn) && effect != Failed(true)
              && distSms == old(distSms) + (if effect.Requeued? then [(order, effect.delay)] else [])
              && deadSms == old(deadSms) + (if effect.DeadLettered? then [order] else [])
      ensures e.NoExn? ==> !pending && session == committed
      ensures forall o :: o != order ==> RowOf(committed, o) == RowOf(old(committed), o)
    {
      hide Handle, Step;
      var attempts;
      HandleCounts(settings, RowOf(committed, order), f);
      e, attempts := IncrementAttempts(order, f);
      if !e.NoExn? {
        return;
      }
      HandleDecides(settings, RowOf(committed, order), attempts, f);
      if attempts > settings.maxRetries {
        Execute(order, AsExhausted);
        e := Commit(f.update);
        if e.NoExn? {
          if f.publish {
            deadSms := deadSms + [order];
          } else {
            e := OtherExn;
          }
        }
        return;
      }
      var delay := Lookup(settings.backoffs, attempts - 1);
      if delay.None? {
        return OtherExn;
      }
      Execute(order, (p: Progress) => p.(nextRetry := Some(delay.value)));
      e := Commit(f.update);
      if e.NoExn? {
        if f.publish {
          distSms := distSms + [(order, delay.value)];
        } else {
          e := OtherExn;
        }
      }
    }

    /** `handle_sms` inside `db_session`: commit on return, rollback and re-raise on an exception. The
        call does to its own row, the queues and its caller what `Handle` says, and leaves every other
        order's row alone. */
    method HandleSms(order: Id, f: Faults) returns (outcome: Retry.Outcome)
      requires !pending && session == committed
      modifies this
      ensures !pending && session == committed
      ensures var (row', effect) := Handle(settings, RowOf(old(committed), order), Posting, f);
              && RowOf(committed, order) == row'
              && outcome == OutcomeOf(effect)
              && distSms == old(distSms) + (if effect.Requeued? then [(order, effect.delay)] else [])
              && deadSms == old(deadSms) + (if effect.DeadLettered? then [order] else [])
      ensures forall o :: o != order ==> RowOf(committed, o) == RowOf(old(committed), o)
    {
      HandleSteps(settings, RowOf(committed, order), Posting, f);
      var e := ProcessSms(order, f);
      if e.Simulation? || e.TransientExn? {
        e := ScheduleRetryOrDlq(order, f);
      }
      if e.NoExn? {
        e := Commit(f.commit);
      }
      if !e.NoExn? {
        Rollback();
      }
      outcome := if e.NoExn? then Retry.Returned else Retry.Raised(e.PermanentExn?);
    }
  }
}
