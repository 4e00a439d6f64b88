/** Conservation over a batch of requests served one after the other without faults. */
module WebhookBatch {
  import opened Wrappers
  import opened Config
  import opened Receiver
  import opened WebhookHandler

  function ServeOne(st: Store, input: Input): Store {
    Serve(st, Arrive(input), NO_FAULTS, |st.leadReceived|).0
  }

  function ServeAll(inputs: seq<Input>): Store {
    if inputs == [] then EMPTY_STORE else ServeOne(ServeAll(inputs[..|inputs| - 1]), inputs[|inputs| - 1])
  }

  /** Requests with a valid gateway and a JSON body. */
  predicate Proper(inputs: seq<Input>) {
    forall i | i in inputs :: i.gateway in VALID_GATEWAYS && i.json
  }

  predicate IsFine(i: Input) {
    Judge(i).Fine?
  }

  predicate IsUndecryptable(i: Input) {
    Judge(i) == CannotDecrypt
  }

  predicate IsInvalid(i: Input) {
    Judge(i) == BadSchema
  }

  function WithStatus(raw: seq<Raw>, s: Status): nat {
    Count(raw, (r: Raw) => r.status == s)
  }

  ghost function Keys(inputs: seq<Input>): set<Key> {
    set i | i in inputs && IsFine(i) :: InputKey(i)
  }

  predicate Approves(i: Input) {
    IsFine(i) && i.payload.value.event == "order.approved" && i.payload.value.sale.status == Approved
  }

  /** What one fault-free request adds. */
  ghost predicate Adds(st: Store, i: Input, st': Store) {
    var first := IsFine(i) && InputKey(i) !in st.processed;
    && st'.processed == st.processed + (if IsFine(i) then {InputKey(i)} else {})
    && |st'.raw| == |st.raw| + 1
    && WithStatus(st'.raw, ACCEPTED) == WithStatus(st.raw, ACCEPTED) + One(first && Approves(i))
    && WithStatus(st'.raw, DISCARDED) == WithStatus(st.raw, DISCARDED) + One(first && !Approves(i))
    && WithStatus(st'.raw, DUPLICATE) == WithStatus(st.raw, DUPLICATE) + One(IsFine(i) && !first)
    && WithStatus(st'.raw, DECRYPT_FAILED) == WithStatus(st.raw, DECRYPT_FAILED) + One(IsUndecryptable(i))
    && WithStatus(st'.raw, SCHEMA_FAILED) == WithStatus(st.raw, SCHEMA_FAILED) + One(IsInvalid(i))
    && |st'.leadReceived| == |st.leadReceived| + One(first && Approves(i))
    && |st'.decryptDlq| == |st.decryptDlq| + One(IsUndecryptable(i))
    && |st'.schemaDlq| == |st.schemaDlq| + One(IsInvalid(i))
  }

  lemma StatusCounts(raw: seq<Raw>, r: Raw)
    ensures forall s :: WithStatus(raw + [r], s) == WithStatus(raw, s) + One(r.status == s)
  {
    forall s
      ensures WithStatus(raw + [r], s) == WithStatus(raw, s) + One(r.status == s)
    {
      CountAppend(raw, r, (q: Raw) => q.status == s);
    }
  }

  lemma ServeOneAdds(st: Store, i: Input)
    requires i.gateway in VALID_GATEWAYS && i.json
    ensures Adds(st, i, ServeOne(st, i))
  {
    hide Serve, Count;
    match Judge(i)
    case CannotDecrypt =>
      ServeFailed(st, i, NO_FAULTS, |st.leadReceived|);
      StatusCounts(st.raw, Raw(i.gateway, DECRYPT_FAILED));
    case BadSchema =>
      ServeFailed(st, i, NO_FAULTS, |st.leadReceived|);
      StatusCounts(st.raw, Raw(i.gateway, SCHEMA_FAILED));
    case Fine(p) =>
      ServeValid(st, i, p, NO_FAULTS, |st.leadReceived|);
      var isNew := InputKey(i) !in st.processed;
      StatusCounts(st.raw, Raw(i.gateway, if !isNew then DUPLICATE else if IsApproved(p) then ACCEPTED else DISCARDED));
  }

  lemma KeysAppend(front: seq<Input>, i: Input)
    ensures Keys(front + [i]) == Keys(front) + if IsFine(i) then {InputKey(i)} else {}
  {
    assert i in front + [i];
    assert forall j :: j in front ==> j in front + [i];
  }

  /** The books balance: every request adds exactly one raw row, in one of five statuses; `lead.received`
      and the two dead-letter queues match their statuses; the committed keys are the distinct keys of the
      valid requests, one for each accepted or discarded row; the duplicates are the rest. */
  ghost predicate Balanced(inputs: seq<Input>, st: Store) {
    CountsBalance(inputs, st) && KeysBalance(inputs, st)
  }

  ghost predicate CountsBalance(inputs: seq<Input>, st: Store) {
    && |st.raw| == |inputs|
    && WithStatus(st.raw, DECRYPT_FAILED) == |st.decryptDlq| == Count(inputs, IsUndecryptable)
    && WithStatus(st.raw, SCHEMA_FAILED) == |st.schemaDlq| == Count(inputs, IsInvalid)
    && WithStatus(st.raw, ACCEPTED) == |st.leadReceived|
  }

  ghost predicate KeysBalance(inputs: seq<Input>, st: Store) {
    && st.processed == Keys(inputs)
    && |st.processed| == WithStatus(st.raw, ACCEPTED) + WithStatus(st.raw, DISCARDED)
    && WithStatus(st.raw, DUPLICATE) == Count(inputs, IsFine) - |Keys(inputs)|
  }

  lemma EmptyBalances()
    ensures Balanced([], EMPTY_STORE)
  {
    assert Keys([]) == {};
  }

  lemma {:induction false} BatchBalances(inputs: seq<Input>)
    requires Proper(inputs)
    ensures Balanced(inputs, ServeAll(inputs))
  {
    hide Balanced, ServeOne;
    if inputs == [] {
      EmptyBalances();
    } else {
      var front, i := inputs[..|inputs| - 1], inputs[|inputs| - 1];
      BatchBalances(front);
      BalanceStep(front, i, ServeAll(front));
      assert inputs == front + [i];
    }
  }

  lemma CountsStep(front: seq<Input>, i: Input, st: Store, st': Store)
    requires CountsBalance(front, st) && Adds(st, i, st')
    ensures CountsBalance(front + [i], st')
  {
    hide Judge, Count;
    CountAppend(front, i, IsUndecryptable);
    CountAppend(front, i, IsInvalid);
  }

  lemma KeysStep(front: seq<Input>, i: Input, st: Store, st': Store)
    requires KeysBalance(front, st) && Adds(st, i, st')
    ensures KeysBalance(front + [i], st')
  {
    hide Judge, Count, Keys;
    KeysAppend(front, i);
    CountAppend(front, i, IsFine);
    if IsFine(i) {
      CardPlusOne(st.processed, InputKey(i));
    }
  }

  lemma CardPlusOne(s: set<Key>, k: Key)
    ensures |s + {k}| == |s| + One(k !in s)
  {
    if k in s { assert s + {k} == s; }
  }

  lemma BalanceStep(front: seq<Input>, i: Input, st: Store)
    requires Balanced(front, st) && i.gateway in VALID_GATEWAYS && i.json
    ensures Balanced(front + [i], ServeOne(st, i))
  {
    hide ServeOne, Judge, CountsBalance, KeysBalance;
    ServeOneAdds(st, i);
    CountsStep(front, i, st, ServeOne(st, i));
    KeysStep(front, i, st, ServeOne(st, i));
  }

  // -- Permutations -----------------------------------------------------------------------------------

  lemma {:induction false} CountSplit<T>(a: seq<T>, b: seq<T>, p: T -> bool)
    ensures Count(a + b, p) == Count(a, p) + Count(b, p)
  {
    if b == [] {
      assert a + b == a;
    } else {
      CountSplit(a, b[..|b| - 1], p);
      assert (a + b)[..|a + b| - 1] == a + b[..|b| - 1];
    }
  }

  lemma CountMiddle<T>(l: seq<T>, x: T, r: seq<T>, p: T -> bool)
    ensures Count(l + [x] + r, p) == Count(l + r, p) + One(p(x))
  {
    hide Count;
    CountSplit(l, r, p);
    CountSplit(l + [x], r, p);
    CountAppend(l, x, p);
  }

  lemma TakeOut<T>(b: seq<T>, x: T) returns (l: seq<T>, r: seq<T>)
    requires x in b
    ensures b == l + [x] + r && multiset(b) == multiset(l + r) + multiset{x}
  {
    var j :| 0 <= j < |b| && b[j] == x;
    l, r := b[..j], b[j + 1..];
    assert b == l + [x] + r;
  }

  /** Counts do not depend on the order. */
  lemma {:induction false} CountPermutes<T>(a: seq<T>, b: seq<T>, p: T -> bool)
    requires multiset(a) == multiset(b)
    ensures Count(a, p) == Count(b, p)
    decreases |a|
  {
    hide Count;
    if a == [] {
      assert |multiset(b)| == 0;
    } else {
      var front, x := a[..|a| - 1], a[|a| - 1];
      assert a == front + [x];
      assert x in multiset(b);
      var l, r := TakeOut(b, x);
      assert multiset(front) == multiset(a) - multiset{x} == multiset(l + r);
      CountPermutes(front, l + r, p);
      CountMiddle(l, x, r, p);
      CountAppend(front, x, p);
    }
  }

  lemma SameMembers(a: seq<Input>, b: seq<Input>)
    requires multiset(a) == multiset(b)
    ensures Keys(a) == Keys(b) && (Proper(a) ==> Proper(b))
  {
    forall i
      ensures i in a <==> i in b
    {
      assert i in multiset(a) <==> i in multiset(b);
    }
  }

  /** The committed keys, the number of duplicates and of both kinds of failure, and the total survive any
      permutation of the batch. */
  lemma OrderOfBatchIrrelevant(a: seq<Input>, b: seq<Input>)
    requires Proper(a) && multiset(a) == multiset(b)
    ensures var (s, t) := (ServeAll(a), ServeAll(b));
            && s.processed == t.processed && |s.raw| == |t.raw|
            && WithStatus(s.raw, DUPLICATE) == WithStatus(t.raw, DUPLICATE)
            && WithStatus(s.raw, DECRYPT_FAILED) == WithStatus(t.raw, DECRYPT_FAILED)
            && WithStatus(s.raw, SCHEMA_FAILED) == WithStatus(t.raw, SCHEMA_FAILED)
  {
    SameMembers(a, b);
    BatchBalances(a);
    BatchBalances(b);
    assert |a| == |multiset(a)| == |multiset(b)| == |b|;
    CountPermutes(a, b, IsFine);
    CountPermutes(a, b, IsUndecryptable);
    CountPermutes(a, b, IsInvalid);
  }

  // -- What does depend on the order ------------------------------------------------------------------

  function Accepted(inputs: seq<Input>): nat {
    WithStatus(ServeAll(inputs).raw, ACCEPTED)
  }

  /** Requests with the same key agree on whether they are approved. */
  ghost predicate Agree(inputs: seq<Input>) {
    forall i, j | i in inputs && j in inputs && IsFine(i) && IsFine(j) && InputKey(i) == InputKey(j) ::
      Approves(i) == Approves(j)
  }

  ghost function ApprovedKeys(inputs: seq<Input>): set<Key> {
    set i | i in inputs && Approves(i) :: InputKey(i)
  }

  /** When they agree, the accepted requests are one for each approved key. */
  lemma {:induction false} AcceptedWhenAgreed(inputs: seq<Input>)
    requires Proper(inputs) && Agree(inputs)
    ensures Accepted(inputs) == |ApprovedKeys(inputs)|
  {
    hide ServeOne, Judge, Balanced;
    if inputs == [] {
      assert ApprovedKeys([]) == {};
    } else {
      var front, i := inputs[..|inputs| - 1], inputs[|inputs| - 1];
      assert inputs == front + [i];
      assert forall j :: j in front ==> j in inputs;
      AcceptedWhenAgreed(front);
      KeysOfBatch(front);
      ServeOneAdds(ServeAll(front), i);
      ApprovedAppend(front, i);
    }
  }

  lemma KeysOfBatch(inputs: seq<Input>)
    requires Proper(inputs)
    ensures ServeAll(inputs).processed == Keys(inputs)
  {
    BatchBalances(inputs);
  }

  lemma ApprovedAppend(front: seq<Input>, i: Input)
    requires Agree(front + [i])
    ensures ApprovedKeys(front + [i]) == ApprovedKeys(front) + if Approves(i) then {InputKey(i)} else {}
    ensures Approves(i) ==> (InputKey(i) in ApprovedKeys(front) <==> InputKey(i) in Keys(front))
  {
    hide Judge;
    assert i in front + [i];
    assert forall j :: j in front ==> j in front + [i];
    if Approves(i) && InputKey(i) in Keys(front) {
      var j :| j in front && IsFine(j) && InputKey(j) == InputKey(i);
      assert Approves(j);
    }
  }

  lemma ServeTwo(x: Input, y: Input)
    ensures ServeAll([x, y]) == ServeOne(ServeOne(EMPTY_STORE, x), y)
  {
    assert [x, y][..1] == [x] && [x][..0] == [];
    assert ServeAll([x]) == ServeOne(EMPTY_STORE, x);
  }

  lemma PairStatuses(x: Input, y: Input)
    requires Proper([x]) && Proper([y]) && IsFine(x) && IsFine(y) && InputKey(x) == InputKey(y)
    ensures ServeAll([x, y]).processed == {InputKey(x)}
    ensures Accepted([x, y]) == One(Approves(x))
  {
    hide ServeOne, Judge;
    assert x in [x] && y in [y];
    ServeTwo(x, y);
    ServeOneAdds(EMPTY_STORE, x);
    ServeOneAdds(ServeOne(EMPTY_STORE, x), y);
  }

  lemma ServeAppend(front: seq<Input>, i: Input)
    ensures ServeAll(front + [i]) == ServeOne(ServeAll(front), i)
  {
    assert (front + [i])[..|front|] == front;
  }

  /** Two requests with one key that disagree: whichever comes first decides, and the rest follows alike. */
  lemma {:induction false} FirstDecides(x: Input, y: Input, rest: seq<Input>)
    requires Proper([x]) && Proper([y]) && Proper(rest)
    requires IsFine(y) && Approves(x) && !Approves(y) && InputKey(x) == InputKey(y)
    ensures ServeAll([x, y] + rest).processed == ServeAll([y, x] + rest).processed
    ensures Accepted([x, y] + rest) == Accepted([y, x] + rest) + 1
  {
    hide ServeOne, Judge, ServeAll;
    if rest == [] {
      assert [x, y] + rest == [x, y] && [y, x] + rest == [y, x];
      PairStatuses(x, y);
      PairStatuses(y, x);
    } else {
      var front, i := rest[..|rest| - 1], rest[|rest| - 1];
      assert [x, y] + rest == [x, y] + front + [i] && [y, x] + rest == [y, x] + front + [i];
      FirstDecides(x, y, front);
      ServeAppend([x, y] + front, i);
      ServeAppend([y, x] + front, i);
      ServeOneAdds(ServeAll([x, y] + front), i);
      ServeOneAdds(ServeAll([y, x] + front), i);
    }
  }

  lemma Extract(a: seq<Input>, x: Input) returns (rest: seq<Input>)
    requires x in a
    ensures multiset(a) == multiset(rest) + multiset{x}
    ensures forall y :: y in a && y != x ==> y in rest
    ensures forall y :: y in rest ==> y in a
  {
    var l, r := TakeOut(a, x);
    rest := l + r;
  }

  lemma AgreedIsStable(a: seq<Input>, b: seq<Input>)
    requires Proper(a) && Agree(a) && multiset(b) == multiset(a)
    ensures Accepted(b) == Accepted(a)
  {
    hide Judge, ServeAll;
    forall i
      ensures i in a <==> i in b
    {
      assert i in multiset(a) <==> i in multiset(b);
    }
    AcceptedWhenAgreed(a);
    AcceptedWhenAgreed(b);
    assert ApprovedKeys(a) == ApprovedKeys(b);
  }

  lemma DisagreedIsNot(a: seq<Input>) returns (b: seq<Input>, c: seq<Input>)
    requires Proper(a) && !Agree(a)
    ensures multiset(b) == multiset(a) == multiset(c) && Accepted(b) != Accepted(c)
  {
    hide Judge, ServeAll, Accepted;
    var x, y :| x in a && y in a && IsFine(x) && IsFine(y) && InputKey(x) == InputKey(y) && Approves(x) && !Approves(y);
    var r1 := Extract(a, x);
    var rest := Extract(r1, y);
    b, c := [x, y] + rest, [y, x] + rest;
    assert multiset(b) == multiset{x, y} + multiset(rest) == multiset(a);
    assert multiset(c) == multiset{x, y} + multiset(rest) == multiset(a);
    assert x in [x] && y in [y];
    FirstDecides(x, y, rest);
  }

  /** The number of accepted requests survives every permutation exactly when no two requests of the batch
      share a key and disagree on approval. */
  lemma AcceptedStableIff(a: seq<Input>)
    requires Proper(a)
    ensures (forall b | multiset(b) == multiset(a) :: Accepted(b) == Accepted(a)) <==> Agree(a)
  {
    hide Agree, Accepted;
    if Agree(a) {
      forall b | multiset(b) == multiset(a)
        ensures Accepted(b) == Accepted(a)
      {
        AgreedIsStable(a, b);
      }
    } else {
      var b, c := DisagreedIsNot(a);
    }
  }
}
