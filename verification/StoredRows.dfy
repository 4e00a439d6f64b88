/** What `sp_insert_lead` writes, row by row: the four tables after a call as explicit updates of the four
    tables before it. */
module StoredRows {
  import opened Wrappers
  import opened Config
  import opened Schema
  import opened StoredProc

  /** The lead under the email, or the fresh one, has exactly the message's contact fields. */
  ghost predicate LeadWritten(leads: Leads, id: Id, p: Payload, leads': Leads, l: Id) {
    && (if HasLead(leads, p.email) then LeadAt(leads, l, p.email) else l == id)
    && leads' == leads[l := Lead(p.email, p.contact)]
  }

  /** A known order has its sale columns replaced and nothing else; a new one is the message's in full. */
  ghost predicate OrderWritten(orders: Orders, id: Id, l: Id, m: LeadMsg, orders': Orders, o: Id) {
    var p := m.payload;
    if HasOrder(orders, m.gateway, p.transactionId) then
      OrderAt(orders, o, m.gateway, p.transactionId) && orders' == orders[o := orders[o].(sale := p.sale)]
    else
      && o == id
      && orders' == orders[o := Order(l, m.gateway, p.transactionId, p.transactionTime, p.event, p.sale)]
  }

  /** An event the order does not have is stored under the message's event id; `isNew` says so. */
  ghost predicate EventWritten(events: Events, m: LeadMsg, events': Events, o: Id, isNew: bool) {
    && (isNew <==> !HasEvent(events, o, m.payload.event))
    && events' == if isNew then events[m.eventId := LeadEvent(o, m.payload.event)] else events
  }

  /** A new order gets its four status rows, pending with no attempts; no other row is touched. */
  ghost predicate StatusWritten(t: Tables, ids: Ids, dist': Dists, o: Id) {
    var row := Progress(PENDING, 0, None);
    dist' == if o in t.orders then t.dist
             else t.dist[ids.sms := Dist(o, SMS, row)][ids.email := Dist(o, EMAIL, row)]
                        [ids.callCenter := Dist(o, CALL_CENTER, row)][ids.whatsApp := Dist(o, WHATSAPP, row)]
  }

  /** The tables after a call that returned row `r`. */
  ghost predicate Written(t: Tables, ids: Ids, m: LeadMsg, t': Tables, r: Reply)
    requires r.Row?
  {
    && LeadWritten(t.leads, ids.lead, m.payload, t'.leads, r.leadId)
    && OrderWritten(t.orders, ids.order, r.leadId, m, t'.orders, r.orderId)
    && EventWritten(t.events, m, t'.events, r.orderId, r.isNew)
    && StatusWritten(t, ids, t'.dist, r.orderId)
  }

  lemma UpsertLeadWrites(leads: Leads, id: Id, p: Payload)
    requires UniqueLeads(leads) && id !in leads
    ensures var leads' := UpsertLead(leads, id, p); LeadWritten(leads, id, p, leads', SelectLead(leads', p.email, id))
  {
    UpsertLeadKeeps(leads, id, p);
    var leads' := UpsertLead(leads, id, p);
    var l := SelectLead(leads', p.email, id);
    hide UpsertLead, SelectLead, UniqueLeads;
    assert leads' == leads[l := Lead(p.email, p.contact)];
    if HasLead(leads, p.email) {
      var j :| LeadAt(leads, j, p.email);
      assert LeadAt(leads', j, p.email);
    } else {
      assert !LeadAt(leads, l, p.email);
    }
  }

  lemma UpsertOrderWrites(orders: Orders, id: Id, l: Id, m: LeadMsg)
    requires UniqueOrders(orders) && id !in orders
    ensures var orders' := UpsertOrder(orders, id, l, m.gateway, m.payload);
            OrderWritten(orders, id, l, m, orders', SelectOrder(orders', m.gateway, m.payload.transactionId, id))
  {
    var (g, x) := (m.gateway, m.payload.transactionId);
    UpsertOrderKeeps(orders, id, l, g, m.payload);
    var orders' := UpsertOrder(orders, id, l, g, m.payload);
    var o := SelectOrder(orders', g, x, id);
    hide UpsertOrder, SelectOrder, UniqueOrders;
    if HasOrder(orders, g, x) {
      var j :| OrderAt(orders, j, g, x);
      assert OrderAt(orders', j, g, x);
      assert orders' == orders[o := orders[o].(sale := m.payload.sale)];
    } else {
      assert !OrderAt(orders, o, g, x);
      assert orders' == orders[o := Order(l, g, x, m.payload.transactionTime, m.payload.event, m.payload.sale)];
    }
  }

  lemma StatusRowsWrites(t: Tables, ids: Ids, o: Id)
    requires Inv(t) && Fresh(t, ids)
    ensures StatusWritten(t, ids, InsertStatusRows(t.dist, ids, o), o)
  {
    if o in t.orders {
      assert HasAllChannels(t.dist, o);
      StatusRowsIgnored(t.dist, ids, o);
    } else {
      Unreferenced(t, o);
      forall i, c
        ensures !DistAt(t.dist, i, o, c)
      {
        assert !HasDist(t.dist, o, c);
      }
      StatusRowsInserted(t, ids, o);
    }
  }

  /** The procedure, for new and repeated events alike: a row returned describes the tables exactly, and an
      error leaves them as they were. */
  lemma CallWrites(t: Tables, ids: Ids, m: LeadMsg)
    requires Inv(t) && Fresh(t, ids)
    ensures var (t', r) := Call(t, ids, m);
            && (r.Row? ==> Written(t, ids, m, t', r))
            && (r.SqlError? ==> t' == t)
            && (r.SqlError? <==> m.eventId in t.events && !Recorded(t, KeyOf(m)))
  {
    hide UpsertLead, UpsertOrder, SelectLead, SelectOrder, InsertStatusRows,
         LeadWritten, OrderWritten, StatusWritten, Fresh;
    var p := m.payload;
    var leads := UpsertLead(t.leads, ids.lead, p);
    var l := SelectLead(leads, p.email, ids.lead);
    var orders := UpsertOrder(t.orders, ids.order, l, m.gateway, p);
    var o := SelectOrder(orders, m.gateway, p.transactionId, ids.order);
    IdsUnused(t, ids);
    UpsertLeadWrites(t.leads, ids.lead, p);
    UpsertOrderWrites(t.orders, ids.order, l, m);
    UpsertsMeaning(t, ids, m);
    RecordedBefore(t, ids, m, leads, orders, o, l);
    if HasEvent(t.events, o, p.event) {
      EventHasOrder(t, o, p.event);
      KnownOrderUntouched(t, ids, o);
    } else {
      StatusRowsWrites(t, ids, o);
    }
  }

  lemma IdsUnused(t: Tables, ids: Ids)
    requires Fresh(t, ids)
    ensures ids.lead !in t.leads && ids.order !in t.orders
  {
  }

  lemma KnownOrderUntouched(t: Tables, ids: Ids, o: Id)
    requires o in t.orders
    ensures StatusWritten(t, ids, t.dist, o)
  {
  }
}
