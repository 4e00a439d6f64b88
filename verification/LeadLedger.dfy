/** What one attempt of the lead handler publishes, and which steps leave dead-letter records. */
module LeadLedger {
  import opened Wrappers
  import opened Config
  import opened Schema
  import opened StoredProc
  import opened LeadStore
  import opened LeadWorker

  // -- One attempt -------------------------------------------------------------------------------------

  /** The four messages of an order's event. */
  function FourMessages(o: Id, e: string): (msgs: seq<DistMsg>)
    ensures |msgs| == 4
  {
    [DistMsg(o, e, SMS), DistMsg(o, e, EMAIL), DistMsg(o, e, CALL_CENTER), DistMsg(o, e, WHATSAPP)]
  }

  /** One turn of the publish loop, and the end of the session block after the last one. */
  lemma PublishTurn(t: Tables, log: seq<DistMsg>, m: LeadMsg, o: Id, n: nat, ids: Ids, ending: Ending, oks: seq<bool>)
    requires n < 4 && |oks| == 5
    ensures var log' := log + [FourMessages(o, m.payload.event)[n]];
            Attempt(t, log, m, Publishing(o, n), ids, ending, oks) ==
            if !oks[n] then (t, log, true)
            else if n == 3 then (t, log', !oks[4])
            else Attempt(t, log', m, Publishing(o, n + 1), ids, ending, oks)
  {
    var log' := log + [DistMsg(o, m.payload.event, CHANNELS[n])];
    assert |CHANNELS| == 4 && DistMsg(o, m.payload.event, CHANNELS[n]) == FourMessages(o, m.payload.event)[n];
    assert Attempt(t, log', m, Closing, ids, ending, oks) == (t, log', !oks[4]);
  }

  lemma SliceFromHead<T>(log: seq<T>, msgs: seq<T>, n: nat, j: nat)
    requires n < j <= |msgs|
    ensures log + [msgs[n]] + msgs[n + 1..j] == log + msgs[n..j]
  {
    assert msgs[n..j] == [msgs[n]] + msgs[n + 1..j];
  }

  /** From channel `n` on the loop publishes up to its first failing publish, number `j`. */
  lemma {:induction false} PublishesUpTo(t: Tables, log: seq<DistMsg>, m: LeadMsg, o: Id, n: nat,
                                         ids: Ids, ending: Ending, oks: seq<bool>)
    returns (j: nat)
    requires n < 4 && |oks| == 5
    ensures n <= j <= 4 && (forall i | n <= i < j :: oks[i]) && (j < 4 ==> !oks[j])
    ensures Attempt(t, log, m, Publishing(o, n), ids, ending, oks) ==
            (t, log + FourMessages(o, m.payload.event)[n..j], j < 4 || !oks[4])
    decreases 4 - n
  {
    PublishTurn(t, log, m, o, n, ids, ending, oks);
    var msgs := FourMessages(o, m.payload.event);
    hide Attempt, FourMessages;
    if !oks[n] {
      j := n;
      assert log + msgs[n..n] == log;
    } else if n == 3 {
      j := 4;
      assert log + msgs[3..4] == log + [msgs[n]];
    } else {
      j := PublishesUpTo(t, log + [msgs[n]], m, o, n + 1, ids, ending, oks);
      SliceFromHead(log, msgs, n, j);
    }
  }

  /** One attempt of the handler, for every fault pattern. A call that was rolled back, failed or lost its
      reply raises and publishes nothing; so does, without raising, a call for a stored event. For a new
      event the messages of SMS, EMAIL, CALL_CENTER and WHATSAPP go out in this order up to the first
      publish that raises, number `j`; the attempt returns exactly when all four and the commit went
      through. The tables are those the call left. */
  lemma AttemptMeaning(t: Tables, log: seq<DistMsg>, m: LeadMsg, ids: Ids, ending: Ending, oks: seq<bool>)
    returns (j: nat)
    requires |oks| == 5
    ensures j <= 4 && (forall i | 0 <= i < j :: oks[i]) && (j < 4 ==> !oks[j])
    ensures var (t', r) := Call(t, ids, m);
            var result := Attempt(t, log, m, Calling, ids, ending, oks);
            && (ending.RolledBack? ==> result == (t, log, true))
            && (ending.ReplyLost? || (ending.Committed? && r.SqlError?) ==> result == (t', log, true))
            && (ending.Committed? && r.Row? && !r.isNew ==> result == (t', log, !oks[4]))
            && (ending.Committed? && r.Row? && r.isNew ==>
                  result == (t', log + FourMessages(r.orderId, m.payload.event)[..j], j < 4 || !oks[4]))
  {
    hide Call;
    var (t', r) := Call(t, ids, m);
    if ending.Committed? && r.Row? && r.isNew {
      j := PublishesUpTo(t', log, m, r.orderId, 0, ids, ending, oks);
    } else {
      j := PublishesUpTo(t', log, m, 0, 0, ids, ending, oks);
      assert Attempt(t', log, m, Closing, ids, ending, oks) == (t', log, !oks[4]);
    }
  }

  /** In every reachable state a delivery that is not over can move, whatever the environment answers. */
  lemma LiveCanMove(b: nat, cs: seq<Choice>, i: nat, env: Env)
    requires Valid(b, INITIAL, cs) && i < |Exec(b, INITIAL, cs).deliveries|
    requires var s := Exec(b, INITIAL, cs); !Over(s.deliveries[i].stage) && Fresh(s.tables, env.ids)
    ensures Enabled(Exec(b, INITIAL, cs), Act(i, env))
  {
    InitialHolds(b);
    ExecKeeps(b, INITIAL, cs);
    StagesInRange(b, Exec(b, INITIAL, cs), i);
    hide Exec, Valid, WorkerInv, Fresh;
  }

  // -- Dead-letter records -----------------------------------------------------------------------------

  /** Step `c` is the dead-letter publish of delivery `i`. */
  predicate DeadLetterPublish(s: State, c: Choice, i: nat, ok: bool) {
    c.Act? && c.i == i && i < |s.deliveries| && s.deliveries[i].stage.GivenUp? && c.env.ok == ok
  }

  /** A delivery given up: its dead-letter publish enqueues one record of it or, when it raises, none. */
  lemma GivenUpStep(b: nat, s: State, i: nat, env: Env)
    requires i < |s.deliveries| && s.deliveries[i].stage.GivenUp?
    ensures Enabled(s, Act(i, env))
    ensures var s' := Apply(b, s, Act(i, env));
            && (env.ok ==> s'.deliveries[i].stage.DeadLettered? && s'.dead == s.dead + [i])
            && (!env.ok ==> s'.deliveries[i].stage.Dropped? && s'.dead == s.dead)
            && s'.tables == s.tables && s'.log == s.log
  {
  }

  /** The dead-letter publishes of delivery `i` in a run that went through, or that raised. */
  ghost function DeadLetterPublishes(b: nat, s: State, cs: seq<Choice>, i: nat, ok: bool): nat
    requires Valid(b, s, cs)
    decreases |cs|
  {
    if cs == [] then 0
    else One(DeadLetterPublish(s, cs[0], i, ok)) + DeadLetterPublishes(b, Apply(b, s, cs[0]), cs[1..], i, ok)
  }

  predicate EndedDead(s: State, i: nat) {
    i < |s.deliveries| && s.deliveries[i].stage.DeadLettered?
  }

  predicate EndedDropped(s: State, i: nat) {
    i < |s.deliveries| && s.deliveries[i].stage.Dropped?
  }

  lemma StepRecords(b: nat, s: State, c: Choice, i: nat)
    requires Enabled(s, c)
    ensures var s' := Apply(b, s, c);
            && multiset(s'.dead)[i] == multiset(s.dead)[i] + One(DeadLetterPublish(s, c, i, true))
            && One(EndedDead(s', i)) == One(EndedDead(s, i)) + One(DeadLetterPublish(s, c, i, true))
            && One(EndedDropped(s', i)) == One(EndedDropped(s, i)) + One(DeadLetterPublish(s, c, i, false))
  {
    hide Call, Fresh, LostBy;
  }

  /** Over every run: the records of a delivery are its dead-letter publishes that went through; it ends
      dead-lettered by one of those and dropped by one that raised, at most one of the two. */
  lemma {:induction false} RecordsArePublishes(b: nat, s: State, cs: seq<Choice>, i: nat)
    requires Valid(b, s, cs)
    ensures var s' := Exec(b, s, cs);
            && multiset(s'.dead)[i] == multiset(s.dead)[i] + DeadLetterPublishes(b, s, cs, i, true)
            && One(EndedDead(s', i)) == One(EndedDead(s, i)) + DeadLetterPublishes(b, s, cs, i, true)
            && One(EndedDropped(s', i)) == One(EndedDropped(s, i)) + DeadLetterPublishes(b, s, cs, i, false)
    decreases |cs|
  {
    hide Apply, Enabled, DeadLetterPublish, EndedDead, EndedDropped;
    if cs == [] {
    } else {
      StepRecords(b, s, cs[0], i);
      RecordsArePublishes(b, Apply(b, s, cs[0]), cs[1..], i);
    }
  }
}
