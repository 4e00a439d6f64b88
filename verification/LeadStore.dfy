/** `sp_insert_lead` as the sequence of statements it is, and what sequences of calls amount to. */
module LeadStore {
  import opened Wrappers
  import opened Config
  import opened Schema
  import opened StoredProc
  import opened StoredRows

  /** The database as the worker's connections share it. */
  class Database {
    var leads: Leads
    var orders: Orders
    var events: Events
    var dist: Dists

    function Contents(): Tables
      reads this
    {
      Tables(leads, orders, events, dist)
    }

    constructor ()
      ensures Contents() == EMPTY && Inv(Contents())
    {
      leads, orders, events, dist := map[], map[], map[], map[];
    }

    method Restore(t: Tables)
      modifies this
      ensures Contents() == t
    {
      leads, orders, events, dist := t.leads, t.orders, t.events, t.dist;
    }

    // The statements of the procedure. A `SELECT id INTO v` returns the new value of `v`.

    method InsertLead(id: Id, p: Payload)
      requires UniqueLeads(leads) && id !in leads
      modifies this`leads
      ensures leads == UpsertLead(old(leads), id, p)
    {
      if i :| i in leads && LeadAt(leads, i, p.email) {
        leads := leads[i := leads[i].(contact := p.contact)];
      } else {
        leads := leads[id := Lead(p.email, p.contact)];
      }
    }

    method SelectLeadId(email: string, v: Id) returns (leadId: Id)
      requires UniqueLeads(leads)
      ensures leadId == SelectLead(leads, email, v)
    {
      leadId := v;
      if i :| i in leads && LeadAt(leads, i, email) {
        leadId := i;
      }
    }

    method InsertOrder(id: Id, leadId: Id, g: string, p: Payload)
      requires UniqueOrders(orders) && id !in orders
      modifies this`orders
      ensures orders == UpsertOrder(old(orders), id, leadId, g, p)
    {
      if i :| i in orders && OrderAt(orders, i, g, p.transactionId) {
        UpsertOrderCases(orders, id, leadId, g, p, i);
        orders := orders[i := orders[i].(sale := p.sale)];
      } else {
        UpsertOrderCases(orders, id, leadId, g, p, id);
        orders := orders[id := Order(leadId, g, p.transactionId, p.transactionTime, p.event, p.sale)];
      }
    }

    method SelectOrderId(g: string, x: string, v: Id) returns (orderId: Id)
      requires UniqueOrders(orders)
      ensures orderId == SelectOrder(orders, g, x, v)
    {
      orderId := v;
      if i :| i in orders && OrderAt(orders, i, g, x) {
        orderId := i;
      }
    }

    method CountEvents(orderId: Id, event: string) returns (n: nat)
      ensures n == 0 <==> !HasEvent(events, orderId, event)
    {
      var found := set i | i in events && EventAt(events, i, orderId, event);
      assert forall i :: EventAt(events, i, orderId, event) <==> i in found;
      n := |found|;
    }

    /** The statements between START TRANSACTION and COMMIT. `failAt` names the one at which MySQL
        raises for outside reasons (none when it is above 7); what ran before stays pending. */
    method Statements(ids: Ids, m: LeadMsg, failAt: nat) returns (r: Reply)
      requires UniqueLeads(leads) && UniqueOrders(orders) && Fresh(Contents(), ids)
      modifies this
      ensures r.Row? ==> (Contents(), r) == Call(old(Contents()), ids, m)
      ensures failAt > 7 ==> r == Call(old(Contents()), ids, m).1
    {
      hide UniqueEvents, UniqueDist, ExtendsLeads, ExtendsOrders, InsertStatusRows, UpsertLead,
           UpsertOrder, LeadAt, OrderAt;
      var p := m.payload;
      if failAt == 1 { return SqlError; }
      UpsertLeadKeeps(leads, ids.lead, p);
      InsertLead(ids.lead, p);
      if failAt == 2 { return SqlError; }
      var leadId := SelectLeadId(p.email, ids.lead);
      if failAt == 3 { return SqlError; }
      UpsertOrderKeeps(orders, ids.order, leadId, m.gateway, p);
      InsertOrder(ids.order, leadId, m.gateway, p);
      if failAt == 4 { return SqlError; }
      var orderId := SelectOrderId(m.gateway, p.transactionId, ids.order);
      if failAt == 5 { return SqlError; }
      var existing := CountEvents(orderId, p.event);
      var isNew := false;
      if existing == 0 {
        if failAt == 6 || m.eventId in events { return SqlError; }
        events := events[m.eventId := LeadEvent(orderId, p.event)];
        if failAt == 7 { return SqlError; }
        dist := InsertStatusRows(dist, ids, orderId);
        isNew := true;
      }
      r := Row(orderId, leadId, isNew);
    }

    /** The procedure: the exit handler rolls back and resignals, so an error leaves every table as it
        was; without an outside failure the result is the specification's, and a row returned says which
        rows of the four tables were written. */
    method SpInsertLead(ids: Ids, m: LeadMsg, failAt: nat) returns (r: Reply)
      requires Inv(Contents()) && Fresh(Contents(), ids)
      modifies this
      ensures Inv(Contents())
      ensures failAt > 7 ==> (Contents(), r) == Call(old(Contents()), ids, m)
      ensures Contents() == if r.SqlError? then old(Contents()) else Call(old(Contents()), ids, m).0
      ensures r.Row? ==> r == Call(old(Contents()), ids, m).1
      ensures r.Row? ==> Written(old(Contents()), ids, m, Contents(), r)
    {
      CallMeaning(Contents(), ids, m);
      CallWrites(Contents(), ids, m);
      hide Call, Written;
      var snapshot := Contents();
      r := Statements(ids, m, failAt);
      if r.SqlError? {
        Restore(snapshot);
      }
    }
  }

  // -- Sequences of calls ---------------------------------------------------------------------------

  /** How a `CALL` can end for the worker: rolled back, committed, or committed with the reply lost. */
  datatype Ending = RolledBack | Committed | ReplyLost

  datatype Invocation = Invocation(ids: Ids, msg: LeadMsg, ending: Ending)

  ghost function Step(t: Tables, c: Invocation): Tables {
    if c.ending.RolledBack? then t else Call(t, c.ids, c.msg).0
  }

  ghost function Run(calls: seq<Invocation>): Tables {
    if calls == [] then EMPTY else Step(Run(calls[..|calls| - 1]), calls[|calls| - 1])
  }

  /** Ids are fresh when they are used. */
  ghost predicate Runnable(calls: seq<Invocation>) {
    calls == [] ||
    (Runnable(calls[..|calls| - 1]) && Fresh(Run(calls[..|calls| - 1]), calls[|calls| - 1].ids))
  }

  /** An event id is never reused for another event: redeliveries repeat the message they carry. */
  ghost predicate EventIdsIdentify(calls: seq<Invocation>) {
    forall c, d :: c in calls && d in calls && c.msg.eventId == d.msg.eventId ==> KeyOf(c.msg) == KeyOf(d.msg)
  }

  /** Some call for the key was not rolled back. */
  ghost predicate CommittedKey(calls: seq<Invocation>, k: Key) {
    exists c :: c in calls && !c.ending.RolledBack? && KeyOf(c.msg) == k
  }

  /** Event row `e` is the event `k` of the order it refers to. */
  ghost predicate Names(t: Tables, e: Id, k: Key) {
    e in t.events && t.events[e].event == k.event && OrderAt(t.orders, t.events[e].orderId, k.gateway, k.transactionId)
  }

  /** Where an event row's id came from. */
  ghost predicate EventIdsTraced(calls: seq<Invocation>, t: Tables) {
    forall e :: e in t.events ==> exists c :: c in calls && c.msg.eventId == e && Names(t, e, KeyOf(c.msg))
  }

  lemma CommittedKeyAppend(front: seq<Invocation>, c: Invocation, k: Key)
    ensures CommittedKey(front + [c], k) <==> CommittedKey(front, k) || (!c.ending.RolledBack? && KeyOf(c.msg) == k)
  {
    assert c in front + [c];
    if CommittedKey(front, k) {
      var d :| d in front && !d.ending.RolledBack? && KeyOf(d.msg) == k;
      assert d in front + [c];
    }
  }

  /** A call whose event id was used before finds its key recorded, so the event insert cannot clash. */
  lemma NoClash(front: seq<Invocation>, c: Invocation, t: Tables)
    requires EventIdsIdentify(front + [c]) && EventIdsTraced(front, t) && c.msg.eventId in t.events
    ensures Recorded(t, KeyOf(c.msg))
  {
    var e := c.msg.eventId;
    var d :| d in front && d.msg.eventId == e && Names(t, e, KeyOf(d.msg));
    assert d in front + [c] && c in front + [c];
    assert EventAt(t.events, e, t.events[e].orderId, t.events[e].event);
  }

  lemma TracedAppend(front: seq<Invocation>, c: Invocation, t: Tables, t': Tables)
    requires EventIdsTraced(front, t) && ExtendsOrders(t.orders, t'.orders) && ExtendsEvents(t.events, t'.events)
    requires forall e :: e in t'.events ==> e in t.events || (e == c.msg.eventId && Names(t', e, KeyOf(c.msg)))
    ensures EventIdsTraced(front + [c], t')
  {
    forall e | e in t'.events
      ensures exists d :: d in front + [c] && d.msg.eventId == e && Names(t', e, KeyOf(d.msg))
    {
      if e in t.events {
        var d :| d in front && d.msg.eventId == e && Names(t, e, KeyOf(d.msg));
        assert d in front + [c] && Names(t', e, KeyOf(d.msg));
      } else {
        assert c in front + [c];
      }
    }
  }

  /** From the empty database, exactly the keys of the calls that were not rolled back are recorded,
      and every relational invariant holds. */
  ghost predicate Summary(calls: seq<Invocation>, t: Tables) {
    && Inv(t) && EventIdsTraced(calls, t)
    && forall k :: Recorded(t, k) <==> CommittedKey(calls, k)
  }

  lemma SummaryStep(front: seq<Invocation>, c: Invocation, t: Tables)
    requires Summary(front, t) && Fresh(t, c.ids) && EventIdsIdentify(front + [c])
    ensures Summary(front + [c], Step(t, c))
  {
    hide Call, Inv, Recorded, Fresh, Persisted, EventIdsIdentify;
    CallMeaning(t, c.ids, c.msg);
    var (t', r) := Call(t, c.ids, c.msg);
    if c.msg.eventId in t.events { NoClash(front, c, t); }
    if c.ending.RolledBack? {
      TracedAppend(front, c, t, t);
    } else {
      TracedAppend(front, c, t, t');
    }
    forall k
      ensures Recorded(Step(t, c), k) <==> CommittedKey(front + [c], k)
    {
      CommittedKeyAppend(front, c, k);
    }
  }

  lemma SummaryEmpty()
    ensures Summary([], EMPTY)
  {
  }

  lemma {:induction false} RunMeaning(calls: seq<Invocation>)
    requires Runnable(calls) && EventIdsIdentify(calls)
    ensures Summary(calls, Run(calls))
  {
    if calls == [] {
      SummaryEmpty();
    } else {
      var front, c := calls[..|calls| - 1], calls[|calls| - 1];
      assert calls == front + [c];
      assert EventIdsIdentify(front) by { assert forall d :: d in front ==> d in calls; }
      RunMeaning(front);
      SummaryStep(front, c, Run(front));
    }
  }

  /** Reordering or repeating messages does not change what ends up recorded: two sequences that
      commit the same set of keys leave the same set, whatever ids, faults and order they had. */
  lemma OrderAndRepetitionIrrelevant(a: seq<Invocation>, b: seq<Invocation>)
    requires Runnable(a) && EventIdsIdentify(a) && Runnable(b) && EventIdsIdentify(b)
    requires forall k :: CommittedKey(a, k) <==> CommittedKey(b, k)
    ensures forall k :: Recorded(Run(a), k) <==> Recorded(Run(b), k)
  {
    RunMeaning(a);
    RunMeaning(b);
  }

  // -- The last call decides ------------------------------------------------------------------------

  /** The contact fields of the last call for the email that was not rolled back. */
  function LastContact(calls: seq<Invocation>, email: string): Option<Contact> {
    if calls == [] then None
    else
      var c := calls[|calls| - 1];
      if !c.ending.RolledBack? && c.msg.payload.email == email then Some(c.msg.payload.contact)
      else LastContact(calls[..|calls| - 1], email)
  }

  /** The sale of the last call for the gateway and transaction id that was not rolled back. */
  function LastSale(calls: seq<Invocation>, g: string, x: string): Option<Sale> {
    if calls == [] then None
    else
      var c := calls[|calls| - 1];
      if !c.ending.RolledBack? && c.msg.gateway == g && c.msg.payload.transactionId == x then Some(c.msg.payload.sale)
      else LastSale(calls[..|calls| - 1], g, x)
  }

  ghost predicate ContactsFollow(calls: seq<Invocation>, leads: Leads) {
    && (forall l, e :: LeadAt(leads, l, e) ==> LastContact(calls, e) == Some(leads[l].contact))
    && (forall e :: LastContact(calls, e).Some? ==> HasLead(leads, e))
  }

  ghost predicate SalesFollow(calls: seq<Invocation>, orders: Orders) {
    && (forall o, g, x :: OrderAt(orders, o, g, x) ==> LastSale(calls, g, x) == Some(orders[o].sale))
    && (forall g, x :: LastSale(calls, g, x).Some? ==> HasOrder(orders, g, x))
  }

  lemma LastAppend(front: seq<Invocation>, c: Invocation)
    ensures forall e :: LastContact(front + [c], e) ==
              if !c.ending.RolledBack? && c.msg.payload.email == e then Some(c.msg.payload.contact)
              else LastContact(front, e)
    ensures forall g, x :: LastSale(front + [c], g, x) ==
              if !c.ending.RolledBack? && c.msg.gateway == g && c.msg.payload.transactionId == x
              then Some(c.msg.payload.sale)
              else LastSale(front, g, x)
  {
    assert (front + [c])[..|front|] == front;
  }

  lemma ContactsStep(front: seq<Invocation>, c: Invocation, leads: Leads, leads': Leads, l: Id)
    requires ContactsFollow(front, leads) && UniqueLeads(leads) && c.ids.lead !in leads && !c.ending.RolledBack?
    requires LeadWritten(leads, c.ids.lead, c.msg.payload, leads', l)
    ensures ContactsFollow(front + [c], leads')
  {
    LastAppend(front, c);
    hide LastContact;
    assert LeadAt(leads', l, c.msg.payload.email);
    forall j, e | LeadAt(leads', j, e)
      ensures LastContact(front + [c], e) == Some(leads'[j].contact)
    {
      if j != l { assert LeadAt(leads, j, e) && HasLead(leads, e); }
    }
    forall e | LastContact(front + [c], e).Some?
      ensures HasLead(leads', e)
    {
      if e != c.msg.payload.email {
        var j :| LeadAt(leads, j, e);
        assert LeadAt(leads', j, e);
      }
    }
  }

  lemma SalesStep(front: seq<Invocation>, c: Invocation, orders: Orders, orders': Orders, l: Id, o: Id)
    requires SalesFollow(front, orders) && UniqueOrders(orders) && c.ids.order !in orders && !c.ending.RolledBack?
    requires OrderWritten(orders, c.ids.order, l, c.msg, orders', o)
    ensures SalesFollow(front + [c], orders')
  {
    LastAppend(front, c);
    hide LastSale;
    var (g, x) := (c.msg.gateway, c.msg.payload.transactionId);
    assert OrderAt(orders', o, g, x);
    forall j, g', x' | OrderAt(orders', j, g', x')
      ensures LastSale(front + [c], g', x') == Some(orders'[j].sale)
    {
      if j != o { assert OrderAt(orders, j, g', x') && HasOrder(orders, g', x'); }
    }
    forall g', x' | LastSale(front + [c], g', x').Some?
      ensures HasOrder(orders', g', x')
    {
      if (g', x') != (g, x) {
        var j :| OrderAt(orders, j, g', x');
        assert OrderAt(orders', j, g', x');
      }
    }
  }

  /** Over any sequence of calls with any endings: a lead has the contact fields of the last committed call
      with its email, an order the sale of the last committed call with its key, and every such email and
      key has its row. */
  lemma {:induction false} LastCallDecides(calls: seq<Invocation>)
    requires Runnable(calls) && EventIdsIdentify(calls)
    ensures ContactsFollow(calls, Run(calls).leads) && SalesFollow(calls, Run(calls).orders)
  {
    hide Call, Inv, Recorded, ContactsFollow, SalesFollow, EventIdsTraced,
         LeadWritten, OrderWritten, StatusWritten, EventWritten;
    if calls == [] {
      NothingFollows();
    } else {
      var front, c := calls[..|calls| - 1], calls[|calls| - 1];
      assert calls == front + [c];
      assert EventIdsIdentify(front) by { assert forall d :: d in front ==> d in calls; }
      LastCallDecides(front);
      RunMeaning(front);
      var t := Run(front);
      CallWrites(t, c.ids, c.msg);
      if c.msg.eventId in t.events { NoClash(front, c, t); }
      if c.ending.RolledBack? {
        RollbackFollows(front, c, t);
      } else {
        var (t', r) := Call(t, c.ids, c.msg);
        InvUnique(t, c.ids);
        ContactsStep(front, c, t.leads, t'.leads, r.leadId);
        SalesStep(front, c, t.orders, t'.orders, r.leadId, r.orderId);
      }
    }
  }

  lemma NothingFollows()
    ensures ContactsFollow([], map[]) && SalesFollow([], map[])
  {
  }

  lemma RollbackFollows(front: seq<Invocation>, c: Invocation, t: Tables)
    requires c.ending.RolledBack? && ContactsFollow(front, t.leads) && SalesFollow(front, t.orders)
    ensures ContactsFollow(front + [c], t.leads) && SalesFollow(front + [c], t.orders)
  {
    LastAppend(front, c);
  }

  lemma InvUnique(t: Tables, ids: Ids)
    requires Inv(t) && Fresh(t, ids)
    ensures UniqueLeads(t.leads) && UniqueOrders(t.orders) && ids.lead !in t.leads && ids.order !in t.orders
  {
  }
}
