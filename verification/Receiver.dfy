/** Webhook requests at the receiver (routes.py `receive_webhook`, db.py, dependencies.py), interleaved
    over the shared database and broker. */
module Receiver {
  import opened Wrappers
  import opened Config

  datatype Status = ACCEPTED | DECRYPT_FAILED | SCHEMA_FAILED | DUPLICATE | DISCARDED

  /** What is known of a request: decryption and schema validation are stateless, so their results are
      part of the input. `payload` is the validated body, if it validates. */
  datatype Input = Input(gateway: string, json: bool, encrypted: bool, decrypts: bool, payload: Option<Payload>)

  datatype Verdict = BadGateway | BadJson | CannotDecrypt | BadSchema | Fine(payload: Payload)

  function Judge(i: Input): Verdict {
    if i.gateway !in VALID_GATEWAYS then BadGateway
    else if !i.json then BadJson
    else if i.gateway == GATEWAY_GRUMMER && i.encrypted && !i.decrypts then CannotDecrypt
    else match i.payload
      case None => BadSchema
      case Some(p) => Fine(p)
  }

  /** A row of `raw_payloads`. */
  datatype Raw = Raw(gateway: string, status: Status)

  /** Committed tables and everything enqueued. `processed` is `processed_events`, by natural key. */
  datatype Store = Store(processed: set<Key>, raw: seq<Raw>, leadReceived: seq<LeadMsg>,
                         decryptDlq: seq<Input>, schemaDlq: seq<Input>)

  const EMPTY_STORE := Store({}, [], [], [], [])

  /** Program points of a request: idempotency insert, raw insert, publish, end of the handler with the
      commit still to come, and the two ways the session ends. */
  datatype Pc = Checking | Inserting(status: Status) | Sending(status: Status) | Replied(code: int)
              | Committed(code: int) | RolledBack(code: int)

  /** A request. `answer` is what the idempotency insert said, `raw` the uncommitted raw row. */
  datatype Req = Req(input: Input, pc: Pc, answer: Option<bool>, raw: Option<Status>, published: bool)

  function Arrive(i: Input): Req {
    Req(i, match Judge(i)
           case BadGateway => RolledBack(422)
           case BadJson => RolledBack(400)
           case CannotDecrypt => Inserting(DECRYPT_FAILED)
           case BadSchema => Inserting(SCHEMA_FAILED)
           case Fine(_) => Checking,
        None, None, false)
  }

  predicate Closed(pc: Pc) {
    pc.Committed? || pc.RolledBack?
  }

  function InputKey(i: Input): Key
    requires Judge(i).Fine?
  {
    Key(i.gateway, i.payload.value.transactionId, i.payload.value.event)
  }

  predicate HasKey(r: Req, k: Key) {
    Judge(r.input).Fine? && InputKey(r.input) == k
  }

  /** One step of request `r`. `ok` says whether its statement, publish or commit goes through; a publish
      that raises enqueued nothing, and every exception of the handler becomes a 503 reply, after which
      the session still commits. */
  function Step(st: Store, r: Req, ok: bool, eventId: Id): (Store, Req)
    requires !Closed(r.pc)
    requires r.pc.Checking? || r.answer.Some? ==> Judge(r.input).Fine?
    requires r.pc == Sending(ACCEPTED) ==> Judge(r.input).Fine?
  {
    match r.pc
    case Checking =>
      if !ok then (st, r.(pc := Replied(503)))
      else
        var isNew := InputKey(r.input) !in st.processed;
        (st, r.(answer := Some(isNew),
                pc := Inserting(if !isNew then DUPLICATE
                                else if IsApproved(r.input.payload.value) then ACCEPTED else DISCARDED)))
    case Inserting(s) =>
      if !ok then (st, r.(pc := Replied(503)))
      else (st, r.(raw := Some(s), pc := if s == DUPLICATE || s == DISCARDED then Replied(200) else Sending(s)))
    case Sending(s) =>
      if !ok then (st, r.(pc := Replied(503)))
      else if s == ACCEPTED then
        (st.(leadReceived := st.leadReceived + [LeadMsg(eventId, r.input.gateway, r.input.payload.value)]),
         r.(published := true, pc := Replied(200)))
      else if s == DECRYPT_FAILED then (st.(decryptDlq := st.decryptDlq + [r.input]), r.(pc := Replied(202)))
      else (st.(schemaDlq := st.schemaDlq + [r.input]), r.(pc := Replied(202)))
    case Replied(code) =>
      if !ok then (st, r.(pc := RolledBack(code)))
      else (st.(processed := st.processed + (if r.answer == Some(true) then {InputKey(r.input)} else {}),
                raw := st.raw + (if r.raw.Some? then [Raw(r.input.gateway, r.raw.value)] else [])),
            r.(pc := Committed(code)))
  }

  // -- Any number of requests -----------------------------------------------------------------------

  datatype State = State(store: Store, reqs: seq<Req>)

  datatype Choice = Open(input: Input) | Act(i: nat, ok: bool, eventId: Id)

  const INITIAL := State(EMPTY_STORE, [])

  /** An idempotency insert, new or duplicate, holds its key until the session ends. */
  predicate Holds(r: Req, k: Key) {
    HasKey(r, k) && r.answer.Some? && !Closed(r.pc)
  }

  /** What the program point says about the rest of a request. */
  predicate ReqOk(r: Req) {
    && (r.pc.Checking? || r.answer.Some? ==> Judge(r.input).Fine?)
    && (r.published ==> r.answer == Some(true) && IsApproved(r.input.payload.value))
    && match r.pc
       case Checking => r.answer.None? && !r.published
       case Inserting(s) =>
         && !r.published
         && (match s
             case ACCEPTED => r.answer == Some(true) && IsApproved(r.input.payload.value)
             case DISCARDED => r.answer == Some(true) && !IsApproved(r.input.payload.value)
             case DUPLICATE => r.answer == Some(false)
             case DECRYPT_FAILED => r.answer.None?
             case SCHEMA_FAILED => r.answer.None?)
       case Sending(s) =>
         && !r.published
         && (s == ACCEPTED ==> r.answer == Some(true) && IsApproved(r.input.payload.value))
       case Replied(code) => Honest(r, code)
       case Committed(code) => Honest(r, code)
       case RolledBack(code) => Honest(r, code)
  }

  /** For a new approved event, 200 says that its message was published and any other reply that it was not. */
  predicate Honest(r: Req, code: int) {
    r.answer == Some(true) && Judge(r.input).Fine? && IsApproved(r.input.payload.value) ==>
      (r.published <==> code == 200)
  }

  /** A step of request `i` is possible when it is not over; its idempotency insert waits for the key. */
  predicate Enabled(s: State, c: Choice) {
    match c
    case Open(_) => true
    case Act(i, ok, _) =>
      && i < |s.reqs| && !Closed(s.reqs[i].pc) && ReqOk(s.reqs[i])
      && (s.reqs[i].pc.Checking? && ok ==>
            forall j | 0 <= j < |s.reqs| :: !Holds(s.reqs[j], InputKey(s.reqs[i].input)))
  }

  function Apply(s: State, c: Choice): State
    requires Enabled(s, c)
  {
    match c
    case Open(input) => s.(reqs := s.reqs + [Arrive(input)])
    case Act(i, ok, eventId) =>
      var (store', r') := Step(s.store, s.reqs[i], ok, eventId);
      State(store', s.reqs[i := r'])
  }

  predicate Valid(s: State, cs: seq<Choice>)
    decreases |cs|
  {
    cs == [] || (Enabled(s, cs[0]) && Valid(Apply(s, cs[0]), cs[1..]))
  }

  function Exec(s: State, cs: seq<Choice>): State
    requires Valid(s, cs)
    decreases |cs|
  {
    if cs == [] then s else Exec(Apply(s, cs[0]), cs[1..])
  }

  // -- Invariant --------------------------------------------------------------------------------------

  /** `lead.received` messages for key `k`. */
  function Messages(log: seq<LeadMsg>, k: Key): nat {
    Count(log, (m: LeadMsg) => KeyOf(m) == k)
  }

  predicate CommittedNew(r: Req, k: Key) {
    HasKey(r, k) && r.pc.Committed? && r.answer == Some(true)
  }

  predicate PublishedFor(r: Req, k: Key) {
    HasKey(r, k) && r.published
  }

  function NewCommits(reqs: seq<Req>, k: Key): nat {
    Count(reqs, (r: Req) => CommittedNew(r, k))
  }

  function Publishers(reqs: seq<Req>, k: Key): nat {
    Count(reqs, (r: Req) => PublishedFor(r, k))
  }

  predicate ShapesOk(s: State) {
    forall i | 0 <= i < |s.reqs| :: ReqOk(s.reqs[i])
  }

  /** At most one open request holds a key. */
  ghost predicate OneHolder(s: State) {
    forall i, j, k | 0 <= i < |s.reqs| && 0 <= j < |s.reqs| && Holds(s.reqs[i], k) && Holds(s.reqs[j], k) :: i == j
  }

  /** While a request holds a "new" answer, its key is not committed. */
  ghost predicate NewIsAbsent(s: State) {
    forall i, k | 0 <= i < |s.reqs| && Holds(s.reqs[i], k) && s.reqs[i].answer == Some(true) :: k !in s.store.processed
  }

  /** Committed keys are those of committed new requests, one each; messages are those of publishers. */
  ghost predicate Ledger(s: State) {
    forall k :: KeyLedger(s, k)
  }

  predicate KeyLedger(s: State, k: Key) {
    && NewCommits(s.reqs, k) == (if k in s.store.processed then 1 else 0)
    && Messages(s.store.leadReceived, k) == Publishers(s.reqs, k)
  }

  /** Only approved orders of valid gateways are on `lead.received`. */
  predicate OnlyApproved(s: State) {
    forall m | m in s.store.leadReceived :: IsApproved(m.payload) && m.gateway in VALID_GATEWAYS
  }

  ghost predicate Inv(s: State) {
    ShapesOk(s) && OneHolder(s) && NewIsAbsent(s) && Ledger(s) && OnlyApproved(s)
  }

  lemma OpenKeeps(s: State, input: Input)
    requires Inv(s)
    ensures Inv(Apply(s, Open(input)))
  {
    var s' := Apply(s, Open(input));
    forall k
      ensures KeyLedger(s', k)
    {
      assert KeyLedger(s, k);
      CountAppend(s.reqs, Arrive(input), (r: Req) => CommittedNew(r, k));
      CountAppend(s.reqs, Arrive(input), (r: Req) => PublishedFor(r, k));
    }
  }

  predicate Commits(r: Req, ok: bool) {
    r.pc.Replied? && ok && r.answer == Some(true)
  }

  predicate Publishes(r: Req, ok: bool) {
    r.pc == Sending(ACCEPTED) && ok
  }

  /** What one step means for the ledger of a key. */
  lemma StepLedger(st: Store, r: Req, ok: bool, eventId: Id, k: Key)
    requires ReqOk(r) && !Closed(r.pc)
    ensures var (st', r') := Step(st, r, ok, eventId);
            && !CommittedNew(r, k) && (CommittedNew(r', k) <==> Commits(r, ok) && HasKey(r, k))
            && (k in st'.processed <==> k in st.processed || CommittedNew(r', k))
            && (PublishedFor(r', k) <==> PublishedFor(r, k) || (Publishes(r, ok) && HasKey(r, k)))
            && (Publishes(r, ok) ==> !r.published)
            && st'.leadReceived == st.leadReceived +
               (if Publishes(r, ok) then [LeadMsg(eventId, r.input.gateway, r.input.payload.value)] else [])
  {
  }

  lemma KeyLedgerKeeps(s: State, i: nat, ok: bool, eventId: Id, k: Key)
    requires Inv(s) && Enabled(s, Act(i, ok, eventId))
    ensures KeyLedger(Apply(s, Act(i, ok, eventId)), k)
  {
    var (r, s') := (s.reqs[i], Apply(s, Act(i, ok, eventId)));
    var r' := s'.reqs[i];
    StepLedger(s.store, r, ok, eventId, k);
    hide Step, ReqOk, CommittedNew, PublishedFor;
    CountUpdate(s.reqs, i, r', (q: Req) => CommittedNew(q, k));
    CountUpdate(s.reqs, i, r', (q: Req) => PublishedFor(q, k));
    assert KeyLedger(s, k);
    assert Commits(r, ok) && HasKey(r, k) ==> Holds(r, k);
    if Publishes(r, ok) {
      var m := LeadMsg(eventId, r.input.gateway, r.input.payload.value);
      CountAppend(s.store.leadReceived, m, (m: LeadMsg) => KeyOf(m) == k);
    }
  }

  lemma LedgerKeeps(s: State, i: nat, ok: bool, eventId: Id)
    requires Inv(s) && Enabled(s, Act(i, ok, eventId))
    ensures Ledger(Apply(s, Act(i, ok, eventId)))
  {
    hide Inv, Enabled, Apply, KeyLedger;
    forall k
      ensures KeyLedger(Apply(s, Act(i, ok, eventId)), k)
    {
      KeyLedgerKeeps(s, i, ok, eventId, k);
    }
  }

  lemma HoldersKeep(s: State, i: nat, ok: bool, eventId: Id)
    requires OneHolder(s) && NewIsAbsent(s) && Enabled(s, Act(i, ok, eventId))
    ensures OneHolder(Apply(s, Act(i, ok, eventId))) && NewIsAbsent(Apply(s, Act(i, ok, eventId)))
  {
    var (r, s') := (s.reqs[i], Apply(s, Act(i, ok, eventId)));
    forall j, k | 0 <= j < |s'.reqs| && Holds(s'.reqs[j], k)
      ensures Holds(s.reqs[j], k) || (j == i && r.pc.Checking? && k == InputKey(r.input))
    {
    }
    if r.pc.Replied? && ok && r.answer == Some(true) {
      assert Holds(r, InputKey(r.input));
    }
  }

  lemma ActKeeps(s: State, i: nat, ok: bool, eventId: Id)
    requires Inv(s) && Enabled(s, Act(i, ok, eventId))
    ensures Inv(Apply(s, Act(i, ok, eventId)))
  {
    LedgerKeeps(s, i, ok, eventId);
    HoldersKeep(s, i, ok, eventId);
  }

  lemma StepKeeps(s: State, c: Choice)
    requires Inv(s) && Enabled(s, c)
    ensures Inv(Apply(s, c))
  {
    match c
    case Open(input) => OpenKeeps(s, input);
    case Act(i, ok, eventId) => ActKeeps(s, i, ok, eventId);
  }

  lemma {:induction false} ExecKeeps(s: State, cs: seq<Choice>)
    requires Inv(s) && Valid(s, cs)
    ensures Inv(Exec(s, cs))
    decreases |cs|
  {
    if cs == [] {
    } else {
      StepKeeps(s, cs[0]);
      ExecKeeps(Apply(s, cs[0]), cs[1..]);
    }
  }

  // -- Theorems over every interleaving ---------------------------------------------------------------

  /** However the requests interleave and whatever fails: two open requests never both hold a "new"
      answer for a key, and at most one committed request per key had one, namely one exactly when the
      key is committed. */
  lemma OneNewPerKey(cs: seq<Choice>, k: Key)
    requires Valid(INITIAL, cs)
    ensures var s := Exec(INITIAL, cs);
            && (forall i, j | 0 <= i < |s.reqs| && 0 <= j < |s.reqs|
                  && Holds(s.reqs[i], k) && Holds(s.reqs[j], k) :: i == j)
            && NewCommits(s.reqs, k) == (if k in s.store.processed then 1 else 0)
            && (forall i | 0 <= i < |s.reqs| && Holds(s.reqs[i], k) && s.reqs[i].answer == Some(true) ::
                  k !in s.store.processed)
  {
    ExecKeeps(INITIAL, cs);
    assert KeyLedger(Exec(INITIAL, cs), k);
  }

  predicate OpenPublisher(r: Req, k: Key) {
    PublishedFor(r, k) && !Closed(r.pc)
  }

  predicate CommittedPublisher(r: Req, k: Key) {
    PublishedFor(r, k) && r.pc.Committed?
  }

  predicate RolledBackPublisher(r: Req, k: Key) {
    PublishedFor(r, k) && r.pc.RolledBack?
  }

  lemma {:induction false} PublisherKinds(reqs: seq<Req>, k: Key)
    ensures Publishers(reqs, k) == Count(reqs, (r: Req) => CommittedPublisher(r, k))
                                 + Count(reqs, (r: Req) => RolledBackPublisher(r, k))
                                 + Count(reqs, (r: Req) => OpenPublisher(r, k))
  {
    if reqs == [] {
    } else {
      PublisherKinds(reqs[..|reqs| - 1], k);
    }
  }

  predicate CommittedUnpublished(r: Req, k: Key) {
    CommittedNew(r, k) && !r.published
  }

  /** A committed new request published or it did not. */
  lemma {:induction false} CommittedKinds(reqs: seq<Req>, k: Key)
    requires forall r | r in reqs :: ReqOk(r)
    ensures NewCommits(reqs, k) == Count(reqs, (r: Req) => CommittedPublisher(r, k))
                                 + Count(reqs, (r: Req) => CommittedUnpublished(r, k))
  {
    if reqs == [] {
    } else {
      CommittedKinds(reqs[..|reqs| - 1], k);
      assert ReqOk(reqs[|reqs| - 1]);
    }
  }

  /** The publish ledger of a key: its `lead.received` messages are one if the committed new request
      published, one for each request that published and was rolled back, and one if the request that
      holds the key now has published. */
  lemma PublishLedger(cs: seq<Choice>, k: Key)
    requires Valid(INITIAL, cs)
    ensures var s := Exec(INITIAL, cs);
            var committed := Count(s.reqs, (r: Req) => CommittedPublisher(r, k));
            && committed <= (if k in s.store.processed then 1 else 0)
            && Messages(s.store.leadReceived, k) == committed + Count(s.reqs, (r: Req) => RolledBackPublisher(r, k))
                                                  + Count(s.reqs, (r: Req) => OpenPublisher(r, k))
  {
    ExecKeeps(INITIAL, cs);
    var s := Exec(INITIAL, cs);
    PublisherKinds(s.reqs, k);
    CommittedKinds(s.reqs, k);
    assert KeyLedger(s, k);
  }

  /** The idempotency insert of a request, whatever the others do meanwhile: the answer is new exactly when
      the key is not stored, and a new event is on its way to acceptance exactly when it is "order.approved"
      with an approved payment. */
  lemma IdempotencyStep(s: State, i: nat, eventId: Id)
    requires Enabled(s, Act(i, true, eventId)) && s.reqs[i].pc.Checking?
    ensures var s' := Apply(s, Act(i, true, eventId));
            var (input, p) := (s.reqs[i].input, s.reqs[i].input.payload.value);
            var isNew := Key(input.gateway, p.transactionId, p.event) !in s.store.processed;
            && s'.store == s.store && |s'.reqs| == |s.reqs|
            && (forall j | 0 <= j < |s.reqs| && j != i :: s'.reqs[j] == s.reqs[j])
            && s'.reqs[i].input == input && s'.reqs[i].answer == Some(isNew)
            && s'.reqs[i].pc == Inserting(
                 if !isNew then DUPLICATE
                 else if p.event == "order.approved" && p.sale.status == Approved then ACCEPTED
                 else DISCARDED)
  {
  }

  /** The reply of a request, once its handler is done. */
  function Reply(pc: Pc): Option<int> {
    if pc.Replied? || pc.Committed? || pc.RolledBack? then Some(pc.code) else None
  }

  predicate NewApproved(r: Req, k: Key) {
    && HasKey(r, k) && r.answer == Some(true)
    && r.input.payload.value.event == "order.approved" && r.input.payload.value.sale.status == Approved
  }

  predicate Accepts(r: Req, k: Key) {
    NewApproved(r, k) && Reply(r.pc) == Some(200)
  }

  lemma AcceptsIsPublished(r: Req, k: Key)
    requires ReqOk(r)
    ensures Accepts(r, k) == PublishedFor(r, k)
  {
  }

  /** Replies tell the truth about messages: however requests interleave and whatever fails, the
      `lead.received` messages of a key number exactly the new approved requests whose reply is 200. */
  lemma MessagesAreAcceptedReplies(cs: seq<Choice>, k: Key)
    requires Valid(INITIAL, cs)
    ensures var s := Exec(INITIAL, cs); Messages(s.store.leadReceived, k) == Count(s.reqs, (r: Req) => Accepts(r, k))
  {
    ExecKeeps(INITIAL, cs);
    var s := Exec(INITIAL, cs);
    assert KeyLedger(s, k);
    forall i | 0 <= i < |s.reqs|
      ensures Accepts(s.reqs[i], k) == PublishedFor(s.reqs[i], k)
    {
      AcceptsIsPublished(s.reqs[i], k);
    }
    CountCongruent(s.reqs, (r: Req) => Accepts(r, k), (r: Req) => PublishedFor(r, k));
  }

  /** A key has one committed new request, so that request decides whether a committed publisher exists. */
  lemma OneCommittedPublisher(s: State, i: nat, k: Key)
    requires Inv(s) && i < |s.reqs| && CommittedNew(s.reqs[i], k)
    ensures Count(s.reqs, (r: Req) => CommittedPublisher(r, k)) == One(s.reqs[i].published)
  {
    var (p, q) := ((r: Req) => CommittedPublisher(r, k), (r: Req) => CommittedUnpublished(r, k));
    CommittedKinds(s.reqs, k);
    CountWitness(s.reqs, p);
    CountWitness(s.reqs, q);
    assert KeyLedger(s, k);
    assert p(s.reqs[i]) || q(s.reqs[i]);
  }

  lemma CommittedKeyIsStored(s: State, i: nat, k: Key)
    requires Inv(s) && i < |s.reqs| && CommittedNew(s.reqs[i], k)
    ensures k in s.store.processed
  {
    var p := (r: Req) => CommittedNew(r, k);
    assert p(s.reqs[i]);
    CountWitness(s.reqs, p);
    assert KeyLedger(s, k);
  }

  lemma OpenPublisherHolds(r: Req, k: Key)
    requires ReqOk(r)
    ensures OpenPublisher(r, k) ==> Holds(r, k) && r.answer == Some(true)
  {
  }

  lemma NoOpenPublisher(s: State, k: Key)
    requires Inv(s) && k in s.store.processed
    ensures Count(s.reqs, (r: Req) => OpenPublisher(r, k)) == 0
  {
    var p := (r: Req) => OpenPublisher(r, k);
    CountWitness(s.reqs, p);
    forall i | 0 <= i < |s.reqs|
      ensures !p(s.reqs[i])
    {
      OpenPublisherHolds(s.reqs[i], k);
    }
  }

  /** Row and message over every interleaving: once a new approved request `i` is committed, its key has
      its own message exactly when its reply is 200, plus one for each publisher that was rolled back. A
      503 means that the key is used up without a message of its own. */
  lemma CommittedReplyDecides(cs: seq<Choice>, i: nat, k: Key)
    requires Valid(INITIAL, cs)
    requires var s := Exec(INITIAL, cs); i < |s.reqs| && s.reqs[i].pc.Committed? && NewApproved(s.reqs[i], k)
    ensures var s := Exec(INITIAL, cs);
            && k in s.store.processed
            && (s.reqs[i].published <==> s.reqs[i].pc.code == 200)
            && Messages(s.store.leadReceived, k) == One(s.reqs[i].pc.code == 200)
                                                  + Count(s.reqs, (r: Req) => RolledBackPublisher(r, k))
  {
    ExecKeeps(INITIAL, cs);
    var s := Exec(INITIAL, cs);
    hide Exec, Valid;
    CommittedKeyIsStored(s, i, k);
    assert KeyLedger(s, k);
    OneCommittedPublisher(s, i, k);
    NoOpenPublisher(s, k);
    PublisherKinds(s.reqs, k);
    assert ReqOk(s.reqs[i]);
  }

  lemma StepFrozen(s: State, c: Choice, k: Key)
    requires Inv(s) && Enabled(s, c) && k in s.store.processed
    ensures k in Apply(s, c).store.processed
    ensures Messages(Apply(s, c).store.leadReceived, k) == Messages(s.store.leadReceived, k)
  {
    if c.Act? && s.reqs[c.i].pc == Sending(ACCEPTED) && c.ok {
      var r := s.reqs[c.i];
      assert Holds(r, InputKey(r.input));
      var m := LeadMsg(c.eventId, r.input.gateway, r.input.payload.value);
      CountAppend(s.store.leadReceived, m, (m: LeadMsg) => KeyOf(m) == k);
    }
  }

  /** Once a key is committed, no later request publishes for it: a request that committed without its
      message, because the publish raised, has used the key up. */
  lemma {:induction false} CommittedKeyIsFrozen(s: State, cs: seq<Choice>, k: Key)
    requires Inv(s) && Valid(s, cs) && k in s.store.processed
    ensures k in Exec(s, cs).store.processed
    ensures Messages(Exec(s, cs).store.leadReceived, k) == Messages(s.store.leadReceived, k)
    decreases |cs|
  {
    if cs == [] {
    } else {
      StepFrozen(s, cs[0], k);
      StepKeeps(s, cs[0]);
      CommittedKeyIsFrozen(Apply(s, cs[0]), cs[1..], k);
    }
  }

  /** Behind every message stands a request that published it. */
  lemma MessageHasPublisher(s: State, m: LeadMsg) returns (i: nat)
    requires Inv(s) && m in s.store.leadReceived
    ensures i < |s.reqs| && PublishedFor(s.reqs[i], KeyOf(m))
  {
    var (k, log) := (KeyOf(m), s.store.leadReceived);
    var p := (q: LeadMsg) => KeyOf(q) == k;
    var published := (r: Req) => PublishedFor(r, k);
    var j :| 0 <= j < |log| && log[j] == m;
    assert p(log[j]);
    CountWitness(log, p);
    assert KeyLedger(s, k);
    assert Messages(log, k) > 0;
    CountWitness(s.reqs, published);
    i :| 0 <= i < |s.reqs| && published(s.reqs[i]);
  }
}
