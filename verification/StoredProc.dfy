/** `sp_insert_lead` (sql/003_stored_procs.sql): atomic upsert, resolve and insert-if-new. */
module StoredProc {
  import opened Wrappers
  import opened Config
  import opened Schema

  /** The UUIDs the worker generates for one call. */
  datatype Ids = Ids(lead: Id, order: Id, sms: Id, email: Id, callCenter: Id, whatsApp: Id)

  /** What the caller sees: an SQL error, or the result row. */
  datatype Reply = SqlError | Row(orderId: Id, leadId: Id, isNew: bool)

  /** Generated ids are fresh. */
  predicate Fresh(t: Tables, ids: Ids) {
    && ids.lead !in t.leads && ids.order !in t.orders
    && ids.sms !in t.dist && ids.email !in t.dist && ids.callCenter !in t.dist && ids.whatsApp !in t.dist
    && ids.sms != ids.email && ids.sms != ids.callCenter && ids.sms != ids.whatsApp
    && ids.email != ids.callCenter && ids.email != ids.whatsApp && ids.callCenter != ids.whatsApp
  }

  // -- Specification, statement by statement --------------------------------------------------

  /** `SELECT id INTO v FROM leads WHERE email = ...`: `v` keeps its value when nothing matches. */
  ghost function SelectLead(leads: Leads, email: string, v: Id): Id {
    if HasLead(leads, email) then (var i :| LeadAt(leads, i, email); i) else v
  }

  ghost function SelectOrder(orders: Orders, g: string, x: string, v: Id): Id {
    if HasOrder(orders, g, x) then (var i :| OrderAt(orders, i, g, x); i) else v
  }

  ghost function UpsertLead(leads: Leads, id: Id, p: Payload): Leads {
    if HasLead(leads, p.email) then
      var i :| LeadAt(leads, i, p.email);
      leads[i := leads[i].(contact := p.contact)]
    else
      leads[id := Lead(p.email, p.contact)]
  }

  ghost function UpsertOrder(orders: Orders, id: Id, leadId: Id, g: string, p: Payload): Orders {
    if HasOrder(orders, g, p.transactionId) then
      var i :| OrderAt(orders, i, g, p.transactionId);
      orders[i := orders[i].(sale := p.sale)]
    else
      orders[id := Order(leadId, g, p.transactionId, p.transactionTime, p.event, p.sale)]
  }

  /** One row of `INSERT IGNORE INTO distribution_status`. */
  function InsertIgnore(dist: Dists, id: Id, orderId: Id, channel: Channel): Dists {
    if id in dist || exists d :: d in dist && DistAt(dist, d, orderId, channel) then dist
    else dist[id := Dist(orderId, channel, FRESH_PROGRESS)]
  }

  function InsertStatusRows(dist: Dists, ids: Ids, orderId: Id): Dists {
    var d1 := InsertIgnore(dist, ids.sms, orderId, SMS);
    var d2 := InsertIgnore(d1, ids.email, orderId, EMAIL);
    var d3 := InsertIgnore(d2, ids.callCenter, orderId, CALL_CENTER);
    InsertIgnore(d3, ids.whatsApp, orderId, WHATSAPP)
  }

  /** The procedure when no statement fails for outside reasons. The event insert can still hit the
      primary key; the exit handler then rolls everything back. */
  ghost function Call(t: Tables, ids: Ids, m: LeadMsg): (Tables, Reply) {
    var p := m.payload;
    var leads := UpsertLead(t.leads, ids.lead, p);
    var leadId := SelectLead(leads, p.email, ids.lead);
    var orders := UpsertOrder(t.orders, ids.order, leadId, m.gateway, p);
    var orderId := SelectOrder(orders, m.gateway, p.transactionId, ids.order);
    if HasEvent(t.events, orderId, p.event) then
      (Tables(leads, orders, t.events, t.dist), Row(orderId, leadId, false))
    else if m.eventId in t.events then
      (t, SqlError)
    else
      var events := t.events[m.eventId := LeadEvent(orderId, p.event)];
      (Tables(leads, orders, events, InsertStatusRows(t.dist, ids, orderId)), Row(orderId, leadId, true))
  }

  // -- What each statement does -----------------------------------------------------------------

  /** After the lead upsert exactly one row carries the email, so `SELECT ... INTO` is determined. */
  lemma UpsertLeadKeeps(leads: Leads, id: Id, p: Payload)
    requires UniqueLeads(leads) && id !in leads
    ensures var leads' := UpsertLead(leads, id, p);
            var l := SelectLead(leads', p.email, id);
            && UniqueLeads(leads') && ExtendsLeads(leads, leads')
            && LeadAt(leads', l, p.email) && leads'[l] == Lead(p.email, p.contact)
            && (forall j :: LeadAt(leads', j, p.email) ==> j == l)
            && (forall j :: j in leads && j != l ==> leads'[j] == leads[j])
            && leads'.Keys == leads.Keys + {l}
            && (l in leads || l == id)
  {
    var leads' := UpsertLead(leads, id, p);
    forall i, e
      ensures LeadAt(leads', i, e) == (LeadAt(leads, i, e) || (i == id && e == p.email && !HasLead(leads, e)))
    {
    }
    if HasLead(leads, p.email) {
      var i :| LeadAt(leads, i, p.email);
      assert LeadAt(leads', i, p.email);
    } else {
      assert LeadAt(leads', id, p.email);
    }
  }

  /** With unique keys the upsert is an update of the one matching row, or an insert. */
  lemma UpsertOrderCases(orders: Orders, id: Id, leadId: Id, g: string, p: Payload, i: Id)
    requires UniqueOrders(orders) && id !in orders
    ensures OrderAt(orders, i, g, p.transactionId) ==>
              UpsertOrder(orders, id, leadId, g, p) == orders[i := orders[i].(sale := p.sale)]
    ensures !HasOrder(orders, g, p.transactionId) ==>
              UpsertOrder(orders, id, leadId, g, p) ==
              orders[id := Order(leadId, g, p.transactionId, p.transactionTime, p.event, p.sale)]
  {
  }

  /** Storing a row with key (g, x) at `o`, where no other row has that key, makes it the one match. */
  lemma StoreOrder(orders: Orders, o: Id, row: Order)
    requires UniqueOrders(orders)
    requires forall j :: OrderAt(orders, j, row.gateway, row.transactionId) ==> j == o
    requires o in orders ==> row.(sale := orders[o].sale) == orders[o]
    ensures var orders' := orders[o := row];
            && UniqueOrders(orders') && ExtendsOrders(orders, orders')
            && (forall j, g, x :: OrderAt(orders', j, g, x) ==
                 (OrderAt(orders, j, g, x) || (j == o && g == row.gateway && x == row.transactionId)))
            && SelectOrder(orders', row.gateway, row.transactionId, o) == o
            && orders'.Keys == orders.Keys + {o}
            && |orders'| == |orders| + (if o in orders then 0 else 1)
  {
    var orders' := orders[o := row];
    forall j, g, x
      ensures OrderAt(orders', j, g, x) ==
              (OrderAt(orders, j, g, x) || (j == o && g == row.gateway && x == row.transactionId))
    {
    }
    assert UniqueOrders(orders');
    assert OrderAt(orders', o, row.gateway, row.transactionId);
    assert orders'.Keys == orders.Keys + {o};
    if o in orders {
      assert orders'.Keys == orders.Keys;
    }
  }

  /** After the order upsert exactly one row carries (gateway, transaction_id); an order that was
      there keeps everything but its sale columns, its lead in particular. */
  lemma UpsertOrderKeeps(orders: Orders, id: Id, leadId: Id, g: string, p: Payload)
    requires UniqueOrders(orders) && id !in orders
    ensures var x := p.transactionId;
            var orders' := UpsertOrder(orders, id, leadId, g, p);
            var o := SelectOrder(orders', g, x, id);
            && UniqueOrders(orders') && ExtendsOrders(orders, orders')
            && OrderAt(orders', o, g, x) && orders'[o].sale == p.sale
            && (forall j :: OrderAt(orders', j, g, x) ==> j == o)
            && (forall j, g', x' :: OrderAt(orders', j, g', x') ==
                  (OrderAt(orders, j, g', x') || (j == o && g' == g && x' == x)))
            && (o !in orders ==> o == id && orders'[o] == Order(leadId, g, x, p.transactionTime, p.event, p.sale))
            && (forall j :: j in orders && j != o ==> orders'[j] == orders[j])
            && orders'.Keys == orders.Keys + {o}
            && |orders'| == |orders| + (if o in orders then 0 else 1)
  {
    var x := p.transactionId;
    if HasOrder(orders, g, x) {
      var i :| OrderAt(orders, i, g, x);
      UpsertOrderCases(orders, id, leadId, g, p, i);
      StoreOrder(orders, i, orders[i].(sale := p.sale));
      assert OrderAt(UpsertOrder(orders, id, leadId, g, p), i, g, x);
    } else {
      UpsertOrderCases(orders, id, leadId, g, p, id);
      StoreOrder(orders, id, Order(leadId, g, x, p.transactionTime, p.event, p.sale));
      assert OrderAt(UpsertOrder(orders, id, leadId, g, p), id, g, x);
    }
  }

  lemma InsertEventKeeps(events: Events, id: Id, o: Id, e: string)
    requires UniqueEvents(events) && id !in events && !HasEvent(events, o, e)
    ensures var events' := events[id := LeadEvent(o, e)];
            && UniqueEvents(events') && ExtendsEvents(events, events')
            && (forall o', e' :: HasEvent(events', o', e') == (HasEvent(events, o', e') || (o' == o && e' == e)))
            && |events'| == |events| + 1
  {
    var events' := events[id := LeadEvent(o, e)];
    forall i, o', e'
      ensures EventAt(events', i, o', e') == (EventAt(events, i, o', e') || (i == id && o' == o && e' == e))
    {
    }
    forall o', e'
      ensures HasEvent(events', o', e') == (HasEvent(events, o', e') || (o' == o && e' == e))
    {
      if HasEvent(events, o', e') { var i :| EventAt(events, i, o', e'); assert EventAt(events', i, o', e'); }
      if o' == o && e' == e { assert EventAt(events', id, o, e); }
    }
  }

  function StatusRowId(ids: Ids, c: Channel): Id {
    match c
    case SMS => ids.sms
    case EMAIL => ids.email
    case CALL_CENTER => ids.callCenter
    case WHATSAPP => ids.whatsApp
  }

  /** For an order that has its four rows the `INSERT IGNORE` changes nothing. */
  lemma StatusRowsIgnored(dist: Dists, ids: Ids, o: Id)
    requires HasAllChannels(dist, o)
    ensures InsertStatusRows(dist, ids, o) == dist
  {
    assert HasDist(dist, o, SMS) && HasDist(dist, o, EMAIL)
           && HasDist(dist, o, CALL_CENTER) && HasDist(dist, o, WHATSAPP);
  }

  function FourRows(dist: Dists, ids: Ids, o: Id): Dists {
    dist[ids.sms := Dist(o, SMS, FRESH_PROGRESS)]
        [ids.email := Dist(o, EMAIL, FRESH_PROGRESS)]
        [ids.callCenter := Dist(o, CALL_CENTER, FRESH_PROGRESS)]
        [ids.whatsApp := Dist(o, WHATSAPP, FRESH_PROGRESS)]
  }

  lemma InsertIgnoreFresh(dist: Dists, id: Id, o: Id, c: Channel)
    requires id !in dist && forall i :: !DistAt(dist, i, o, c)
    ensures InsertIgnore(dist, id, o, c) == dist[id := Dist(o, c, FRESH_PROGRESS)]
  {
  }

  /** For an order without rows it inserts all four. */
  lemma StatusRowsInserted(t: Tables, ids: Ids, o: Id)
    requires Fresh(t, ids) && forall i, c :: !DistAt(t.dist, i, o, c)
    ensures InsertStatusRows(t.dist, ids, o) == FourRows(t.dist, ids, o)
  {
    var d1 := t.dist[ids.sms := Dist(o, SMS, FRESH_PROGRESS)];
    var d2 := d1[ids.email := Dist(o, EMAIL, FRESH_PROGRESS)];
    var d3 := d2[ids.callCenter := Dist(o, CALL_CENTER, FRESH_PROGRESS)];
    forall i, c
      ensures c != SMS ==> !DistAt(d1, i, o, c)
      ensures c != SMS && c != EMAIL ==> !DistAt(d2, i, o, c)
      ensures c == WHATSAPP ==> !DistAt(d3, i, o, c)
    {
      assert !DistAt(t.dist, i, o, c);
    }
    InsertIgnoreFresh(t.dist, ids.sms, o, SMS);
    InsertIgnoreFresh(d1, ids.email, o, EMAIL);
    InsertIgnoreFresh(d2, ids.callCenter, o, CALL_CENTER);
    InsertIgnoreFresh(d3, ids.whatsApp, o, WHATSAPP);
  }

  lemma FourRowsMore(t: Tables, ids: Ids, o: Id)
    requires Fresh(t, ids)
    ensures |FourRows(t.dist, ids, o)| == |t.dist| + 4
  {
    var d1 := t.dist[ids.sms := Dist(o, SMS, FRESH_PROGRESS)];
    var d2 := d1[ids.email := Dist(o, EMAIL, FRESH_PROGRESS)];
    var d3 := d2[ids.callCenter := Dist(o, CALL_CENTER, FRESH_PROGRESS)];
    assert |d1| == |t.dist| + 1;
    assert |d2| == |d1| + 1;
    assert |d3| == |d2| + 1;
  }

  /** What the four inserts make of row `i`. */
  lemma FourRowsEntry(t: Tables, ids: Ids, o: Id, i: Id, c: Channel)
    requires Fresh(t, ids)
    ensures var dist' := FourRows(t.dist, ids, o);
            && (i in t.dist ==> i in dist' && dist'[i] == t.dist[i])
            && (i == StatusRowId(ids, c) ==> i in dist' && dist'[i] == Dist(o, c, FRESH_PROGRESS))
            && (forall o' :: DistAt(dist', i, o', c) ==
                  (DistAt(t.dist, i, o', c) || (o' == o && i == StatusRowId(ids, c))))
  {
  }

  lemma FourRowsShape(t: Tables, ids: Ids, o: Id)
    requires Fresh(t, ids)
    ensures var dist' := FourRows(t.dist, ids, o);
            && |dist'| == |t.dist| + 4
            && (forall i :: i in t.dist ==> i in dist' && dist'[i] == t.dist[i])
            && (forall i, o', c :: DistAt(dist', i, o', c) ==
                  (DistAt(t.dist, i, o', c) || (o' == o && i == StatusRowId(ids, c))))
            && (forall c :: StatusRowId(ids, c) in dist' && dist'[StatusRowId(ids, c)].progress == FRESH_PROGRESS)
  {
    hide FourRows, StatusRowId, DistAt;
    var dist' := FourRows(t.dist, ids, o);
    FourRowsMore(t, ids, o);
    forall i | i in t.dist
      ensures i in dist' && dist'[i] == t.dist[i]
    {
      FourRowsEntry(t, ids, o, i, SMS);
    }
    forall i, o', c
      ensures DistAt(dist', i, o', c) == (DistAt(t.dist, i, o', c) || (o' == o && i == StatusRowId(ids, c)))
    {
      FourRowsEntry(t, ids, o, i, c);
    }
    forall c
      ensures StatusRowId(ids, c) in dist' && dist'[StatusRowId(ids, c)].progress == FRESH_PROGRESS
    {
      FourRowsEntry(t, ids, o, StatusRowId(ids, c), c);
    }
  }

  /** The multi-row `INSERT IGNORE` on an order that has all its rows or none of them: afterwards the
      order has exactly one row a channel, and every row that was there is preserved. */
  lemma InsertStatusRowsKeeps(t: Tables, ids: Ids, o: Id)
    requires UniqueDist(t.dist) && Fresh(t, ids)
    requires HasAllChannels(t.dist, o) || forall c :: !HasDist(t.dist, o, c)
    ensures var dist' := InsertStatusRows(t.dist, ids, o);
            && UniqueDist(dist')
            && (forall i :: i in t.dist ==> i in dist' && dist'[i] == t.dist[i])
            && (forall o', c :: HasDist(dist', o', c) == (HasDist(t.dist, o', c) || o' == o))
            && |dist'| == |t.dist| + (if HasAllChannels(t.dist, o) then 0 else 4)
  {
    var dist' := InsertStatusRows(t.dist, ids, o);
    if HasAllChannels(t.dist, o) {
      StatusRowsIgnored(t.dist, ids, o);
      assert forall o', c :: HasDist(dist', o', c) == (HasDist(t.dist, o', c) || o' == o);
    } else {
      forall i, c ensures !DistAt(t.dist, i, o, c) { assert !HasDist(t.dist, o, c); }
      StatusRowsInserted(t, ids, o);
      FourRowsShape(t, ids, o);
      forall o', c
        ensures HasDist(dist', o', c) == (HasDist(t.dist, o', c) || o' == o)
      {
        if HasDist(t.dist, o', c) { var i :| DistAt(t.dist, i, o', c); assert DistAt(dist', i, o', c); }
        if o' == o { assert DistAt(dist', StatusRowId(ids, c), o, c); }
      }
      assert !HasAllChannels(t.dist, o) by { assert !HasDist(t.dist, o, SMS); }
    }
  }

  // -- The procedure as a whole -------------------------------------------------------------------

  /** Every table invariant holds and no row is lost; SMS rows of old orders are as they were, those
      of new orders are pending with no attempt made. */
  ghost predicate KeepsTables(t: Tables, t': Tables) {
    && Inv(t') && Extends(t, t')
    && (forall o :: o in t.orders ==> SmsRow(t'.dist, o) == SmsRow(t.dist, o))
    && (forall o :: o in t'.orders && o !in t.orders ==> SmsRow(t'.dist, o) == Some(FRESH_PROGRESS))
  }

  /** The natural key joins the recorded set, and `isNew` says whether it was absent. */
  ghost predicate AddsKey(t: Tables, k: Key, t': Tables, isNew: bool) {
    && (forall k' :: Recorded(t', k') == (Recorded(t, k') || k' == k))
    && (isNew <==> !Recorded(t, k))
    && Persisted(t', k)
  }

  /** The row returned: the order under the key and the lead under the email; an order already there
      keeps its lead, a new one gets the lead returned. */
  ghost predicate Resolves(t: Tables, m: LeadMsg, t': Tables, r: Reply)
    requires r.Row?
  {
    var (o, p) := (r.orderId, m.payload);
    && OrderAt(t'.orders, o, m.gateway, p.transactionId) && LeadAt(t'.leads, r.leadId, p.email)
    && t'.orders.Keys == t.orders.Keys + {o} && t'.orders[o].sale == p.sale
    && (o !in t.orders ==> t'.orders[o].event == p.event && t'.orders[o].leadId == r.leadId)
    && (forall j :: j in t.orders && j != o ==> t'.orders[j] == t.orders[j])
    && (r.isNew <==> !HasEvent(t.events, o, p.event))
    && (forall o', e :: HasEvent(t'.events, o', e) == (HasEvent(t.events, o', e) || (o' == o && e == p.event)))
    && |t'.orders| == |t.orders| + (if o in t.orders then 0 else 1)
    && |t'.events| == |t.events| + (if r.isNew then 1 else 0)
    && t'.events == (if r.isNew then t.events[m.eventId := LeadEvent(o, p.event)] else t.events)
  }

  ghost predicate Effect(t: Tables, m: LeadMsg, t': Tables, r: Reply) {
    && KeepsTables(t, t')
    && (r.SqlError? ==> t' == t && m.eventId in t.events && !Recorded(t, KeyOf(m)))
    && (r.Row? ==> AddsKey(t, KeyOf(m), t', r.isNew) && Resolves(t, m, t', r))
  }

  lemma SmsRowsAfter(t: Tables, ids: Ids, o: Id)
    requires Inv(t) && Fresh(t, ids)
    requires o in t.orders || forall c :: !HasDist(t.dist, o, c)
    ensures var dist' := InsertStatusRows(t.dist, ids, o);
            && (forall o' :: o' in t.orders ==> SmsRow(dist', o') == SmsRow(t.dist, o'))
            && (o !in t.orders ==> SmsRow(dist', o) == Some(FRESH_PROGRESS))
  {
    var dist' := InsertStatusRows(t.dist, ids, o);
    InsertStatusRowsKeeps(t, ids, o);
    forall o' | o' in t.orders
      ensures SmsRow(dist', o') == SmsRow(t.dist, o')
    {
      assert HasDist(t.dist, o', SMS);
      var i :| DistAt(t.dist, i, o', SMS);
      SmsRowIs(t.dist, i, o');
      SmsRowIs(dist', i, o');
    }
    if o !in t.orders {
      forall i, c ensures !DistAt(t.dist, i, o, c) { assert !HasDist(t.dist, o, c); }
      StatusRowsInserted(t, ids, o);
      FourRowsShape(t, ids, o);
      SmsRowIs(dist', StatusRowId(ids, SMS), o);
    }
  }

  /** An order that no row refers to has no events and no status rows. */
  lemma Unreferenced(t: Tables, o: Id)
    requires ForeignKeys(t) && o !in t.orders
    ensures forall e :: !HasEvent(t.events, o, e)
    ensures forall c :: !HasDist(t.dist, o, c)
  {
  }

  /** What the two upserts establish: `o` is the one order under the message's key, and everything
      else is as it was. */
  ghost predicate Upserted(t: Tables, ids: Ids, m: LeadMsg, leads: Leads, orders: Orders, o: Id, leadId: Id) {
    var (g, x) := (m.gateway, m.payload.transactionId);
    && UniqueLeads(leads) && UniqueOrders(orders)
    && ExtendsLeads(t.leads, leads) && ExtendsOrders(t.orders, orders)
    && leads.Keys == t.leads.Keys + {leadId} && orders.Keys == t.orders.Keys + {o}
    && (leadId in t.leads || leadId == ids.lead) && (o in t.orders || o == ids.order)
    && LeadAt(leads, leadId, m.payload.email) && OrderAt(orders, o, g, x)
    && orders[o].sale == m.payload.sale
    && (o !in t.orders ==> orders[o].event == m.payload.event && orders[o].leadId == leadId)
    && (forall j, g', x' :: OrderAt(orders, j, g', x') ==
          (OrderAt(t.orders, j, g', x') || (j == o && g' == g && x' == x)))
    && (forall j :: j in t.orders && j != o ==> orders[j] == t.orders[j])
    && |orders| == |t.orders| + (if o in t.orders then 0 else 1)
  }

  lemma UpsertsMeaning(t: Tables, ids: Ids, m: LeadMsg)
    requires Inv(t) && Fresh(t, ids)
    ensures var leads := UpsertLead(t.leads, ids.lead, m.payload);
            var leadId := SelectLead(leads, m.payload.email, ids.lead);
            var orders := UpsertOrder(t.orders, ids.order, leadId, m.gateway, m.payload);
            var o := SelectOrder(orders, m.gateway, m.payload.transactionId, ids.order);
            Upserted(t, ids, m, leads, orders, o, leadId)
  {
    var leads := UpsertLead(t.leads, ids.lead, m.payload);
    var leadId := SelectLead(leads, m.payload.email, ids.lead);
    UpsertLeadKeeps(t.leads, ids.lead, m.payload);
    UpsertOrderKeeps(t.orders, ids.order, leadId, m.gateway, m.payload);
  }

  /** Before the call, the key is recorded exactly when the resolved order already has the event. */
  lemma RecordedBefore(t: Tables, ids: Ids, m: LeadMsg, leads: Leads, orders: Orders, o: Id, leadId: Id)
    requires Inv(t) && Upserted(t, ids, m, leads, orders, o, leadId)
    ensures Recorded(t, KeyOf(m)) == HasEvent(t.events, o, m.payload.event)
  {
    var (g, x) := (m.gateway, m.payload.transactionId);
    if o in t.orders {
      assert OrderAt(t.orders, o, g, x);
    } else {
      Unreferenced(t, o);
      forall i
        ensures !OrderAt(t.orders, i, g, x)
      {
        assert OrderAt(orders, o, g, x) && (OrderAt(t.orders, i, g, x) ==> OrderAt(orders, i, g, x));
      }
    }
  }

  /** What the event insert establishes, in either branch. */
  ghost predicate StoredEvent(t: Tables, m: LeadMsg, events: Events, o: Id) {
    && UniqueEvents(events) && ExtendsEvents(t.events, events)
    && (forall o', e :: HasEvent(events, o', e) == (HasEvent(t.events, o', e) || (o' == o && e == m.payload.event)))
    && |events| == |t.events| + (if HasEvent(t.events, o, m.payload.event) then 0 else 1)
    && events == (if HasEvent(t.events, o, m.payload.event) then t.events
                  else t.events[m.eventId := LeadEvent(o, m.payload.event)])
  }

  /** What the status-row insert establishes, in either branch. */
  ghost predicate StoredDist(t: Tables, dist: Dists, o: Id) {
    && UniqueDist(dist) && ExtendsDist(t.dist, dist)
    && (forall o', c :: HasDist(dist, o', c) == (HasDist(t.dist, o', c) || o' == o))
    && |dist| == |t.dist| + (if o in t.orders then 0 else 4)
    && (forall o' :: o' in t.orders ==> SmsRow(dist, o') == SmsRow(t.dist, o'))
    && (o !in t.orders ==> SmsRow(dist, o) == Some(FRESH_PROGRESS))
  }

  ghost predicate Stored(t: Tables, m: LeadMsg, events: Events, dist: Dists, o: Id) {
    StoredEvent(t, m, events, o) && StoredDist(t, dist, o)
  }

  lemma StoredDuplicate(t: Tables, m: LeadMsg, o: Id)
    requires Inv(t) && HasEvent(t.events, o, m.payload.event)
    ensures Stored(t, m, t.events, t.dist, o)
  {
    assert o in t.orders by { var i :| EventAt(t.events, i, o, m.payload.event); }
    assert HasAllChannels(t.dist, o);
  }

  lemma StatusRowsStored(t: Tables, ids: Ids, o: Id)
    requires Inv(t) && Fresh(t, ids)
    ensures StoredDist(t, InsertStatusRows(t.dist, ids, o), o)
  {
    if o in t.orders {
      assert HasAllChannels(t.dist, o);
    } else {
      Unreferenced(t, o);
      assert !HasDist(t.dist, o, SMS);
    }
    InsertStatusRowsKeeps(t, ids, o);
    SmsRowsAfter(t, ids, o);
  }

  lemma StoredNew(t: Tables, ids: Ids, m: LeadMsg, o: Id)
    requires Inv(t) && Fresh(t, ids)
    requires !HasEvent(t.events, o, m.payload.event) && m.eventId !in t.events
    ensures Stored(t, m, t.events[m.eventId := LeadEvent(o, m.payload.event)], InsertStatusRows(t.dist, ids, o), o)
  {
    InsertEventKeeps(t.events, m.eventId, o, m.payload.event);
    StatusRowsStored(t, ids, o);
  }

  lemma EventHasOrder(t: Tables, o: Id, e: string)
    requires ForeignKeys(t) && HasEvent(t.events, o, e)
    ensures o in t.orders
  {
    var i :| EventAt(t.events, i, o, e);
  }

  lemma RecordedKey(t: Tables, ids: Ids, m: LeadMsg, t': Tables, o: Id, leadId: Id, k: Key)
    requires Inv(t) && Upserted(t, ids, m, t'.leads, t'.orders, o, leadId) && StoredEvent(t, m, t'.events, o)
    ensures Recorded(t', k) == (Recorded(t, k) || k == KeyOf(m))
  {
    hide UniqueLeads, UniqueOrders, UniqueEvents, ExtendsLeads, ExtendsEvents, UniqueKeys, Complete, LeadAt, HasEvent;
    assert OrderAt(t'.orders, o, m.gateway, m.payload.transactionId) && HasEvent(t'.events, o, m.payload.event);
    if Recorded(t', k) && k != KeyOf(m) {
      var j :| OrderAt(t'.orders, j, k.gateway, k.transactionId) && HasEvent(t'.events, j, k.event);
      if HasEvent(t.events, j, k.event) {
        EventHasOrder(t, j, k.event);
        assert OrderAt(t.orders, j, k.gateway, k.transactionId);
      }
    }
    if Recorded(t, k) {
      var j :| OrderAt(t.orders, j, k.gateway, k.transactionId) && HasEvent(t.events, j, k.event);
      assert OrderAt(t'.orders, j, k.gateway, k.transactionId) && HasEvent(t'.events, j, k.event);
    }
  }

  /** After the call, exactly the message's key has joined the recorded set. */
  lemma RecordedAfter(t: Tables, ids: Ids, m: LeadMsg, t': Tables, o: Id, leadId: Id)
    requires Inv(t) && Upserted(t, ids, m, t'.leads, t'.orders, o, leadId) && Stored(t, m, t'.events, t'.dist, o)
    ensures AddsKey(t, KeyOf(m), t', !HasEvent(t.events, o, m.payload.event))
  {
    hide Upserted, Recorded, Inv, StoredEvent, StoredDist, HasEvent;
    RecordedBefore(t, ids, m, t'.leads, t'.orders, o, leadId);
    PersistedAfter(t, ids, m, t', o, leadId);
    forall k
      ensures Recorded(t', k) == (Recorded(t, k) || k == KeyOf(m))
    {
      RecordedKey(t, ids, m, t', o, leadId, k);
    }
  }

  lemma PersistedAfter(t: Tables, ids: Ids, m: LeadMsg, t': Tables, o: Id, leadId: Id)
    requires Upserted(t, ids, m, t'.leads, t'.orders, o, leadId) && Stored(t, m, t'.events, t'.dist, o)
    ensures Persisted(t', KeyOf(m))
  {
    hide UniqueLeads, UniqueOrders, UniqueEvents, UniqueDist, ExtendsLeads, ExtendsOrders,
         ExtendsEvents, ExtendsDist, SmsRow;
    assert OrderAt(t'.orders, o, m.gateway, m.payload.transactionId) && HasEvent(t'.events, o, m.payload.event);
    assert HasAllChannels(t'.dist, o);
  }

  /** New rows refer to the order at hand; old ones to orders that are still there. */
  lemma ForeignKeysAfter(t: Tables, ids: Ids, m: LeadMsg, t': Tables, o: Id, leadId: Id)
    requires ForeignKeys(t)
    requires Upserted(t, ids, m, t'.leads, t'.orders, o, leadId) && Stored(t, m, t'.events, t'.dist, o)
    ensures ForeignKeys(t')
  {
    hide UniqueLeads, UniqueOrders, UniqueEvents, UniqueDist, ExtendsLeads, ExtendsEvents,
         ExtendsDist, LeadAt, OrderAt, SmsRow;
    LeadsStay(t, ids, m, t'.leads, t'.orders, o, leadId);
    forall i | i in t'.events
      ensures t'.events[i].orderId in t'.orders
    {
      var e := t'.events[i];
      assert EventAt(t'.events, i, e.orderId, e.event);
      assert HasEvent(t'.events, e.orderId, e.event);
      if HasEvent(t.events, e.orderId, e.event) { var j :| EventAt(t.events, j, e.orderId, e.event); }
    }
    forall i | i in t'.dist
      ensures t'.dist[i].orderId in t'.orders
    {
      var d := t'.dist[i];
      assert DistAt(t'.dist, i, d.orderId, d.channel);
      assert HasDist(t'.dist, d.orderId, d.channel);
      if HasDist(t.dist, d.orderId, d.channel) { var j :| DistAt(t.dist, j, d.orderId, d.channel); }
    }
  }

  /** The order at hand now has the event and all four status rows. */
  lemma CompleteAfter(t: Tables, ids: Ids, m: LeadMsg, t': Tables, o: Id, leadId: Id)
    requires Complete(t) && Upserted(t, ids, m, t'.leads, t'.orders, o, leadId) && Stored(t, m, t'.events, t'.dist, o)
    ensures Complete(t')
  {
    hide UniqueLeads, UniqueOrders, UniqueEvents, UniqueDist, ExtendsLeads, ExtendsOrders, ExtendsEvents, ExtendsDist,
         LeadAt, OrderAt, SmsRow;
    forall o' | o' in t'.orders
      ensures HasSomeEvent(t'.events, o') && HasAllChannels(t'.dist, o')
    {
      if o' == o {
        assert HasEvent(t'.events, o, m.payload.event);
      } else {
        assert HasSomeEvent(t.events, o') && HasAllChannels(t.dist, o');
        var e :| HasEvent(t.events, o', e);
        assert HasEvent(t'.events, o', e);
      }
    }
  }

  lemma ResolvesAfter(t: Tables, ids: Ids, m: LeadMsg, t': Tables, o: Id, leadId: Id)
    requires Upserted(t, ids, m, t'.leads, t'.orders, o, leadId) && StoredEvent(t, m, t'.events, o)
    ensures Resolves(t, m, t', Row(o, leadId, !HasEvent(t.events, o, m.payload.event)))
  {
  }

  /** Every order still has its lead. */
  lemma LeadsStay(t: Tables, ids: Ids, m: LeadMsg, leads: Leads, orders: Orders, o: Id, leadId: Id)
    requires ForeignKeys(t) && Upserted(t, ids, m, leads, orders, o, leadId)
    ensures forall j :: j in orders ==> orders[j].leadId in leads
  {
    assert o in t.orders ==> orders[o].leadId == t.orders[o].leadId;
  }

  lemma KeysAfter(t: Tables, ids: Ids, m: LeadMsg, t': Tables, o: Id, leadId: Id)
    requires Upserted(t, ids, m, t'.leads, t'.orders, o, leadId) && Stored(t, m, t'.events, t'.dist, o)
    ensures UniqueKeys(t') && Extends(t, t')
  {
    hide UniqueLeads, UniqueOrders, UniqueEvents, UniqueDist, ExtendsLeads, ExtendsOrders, ExtendsEvents, ExtendsDist;
  }

  lemma SmsRowsKept(t: Tables, ids: Ids, m: LeadMsg, t': Tables, o: Id, leadId: Id)
    requires Upserted(t, ids, m, t'.leads, t'.orders, o, leadId) && Stored(t, m, t'.events, t'.dist, o)
    ensures forall o' :: o' in t.orders ==> SmsRow(t'.dist, o') == SmsRow(t.dist, o')
    ensures forall o' :: o' in t'.orders && o' !in t.orders ==> SmsRow(t'.dist, o') == Some(FRESH_PROGRESS)
  {
    hide SmsRow, ExtendsLeads, ExtendsOrders, ExtendsDist, StoredEvent, UniqueDist;
  }

  lemma KeepsAfter(t: Tables, ids: Ids, m: LeadMsg, t': Tables, o: Id, leadId: Id)
    requires Inv(t) && Upserted(t, ids, m, t'.leads, t'.orders, o, leadId) && Stored(t, m, t'.events, t'.dist, o)
    ensures KeepsTables(t, t')
  {
    hide Upserted, Stored, UniqueKeys, ForeignKeys, Complete, Extends, SmsRow;
    KeysAfter(t, ids, m, t', o, leadId);
    SmsRowsKept(t, ids, m, t', o, leadId);
    ForeignKeysAfter(t, ids, m, t', o, leadId);
    CompleteAfter(t, ids, m, t', o, leadId);
  }

  lemma StoredEffect(t: Tables, ids: Ids, m: LeadMsg, t': Tables, o: Id, leadId: Id)
    requires Inv(t) && Upserted(t, ids, m, t'.leads, t'.orders, o, leadId) && Stored(t, m, t'.events, t'.dist, o)
    ensures Effect(t, m, t', Row(o, leadId, !HasEvent(t.events, o, m.payload.event)))
  {
    RecordedAfter(t, ids, m, t', o, leadId);
    ResolvesAfter(t, ids, m, t', o, leadId);
    KeepsAfter(t, ids, m, t', o, leadId);
  }

  /** The procedure refines insertion into the set of recorded keys and keeps every table invariant. */
  lemma CallMeaning(t: Tables, ids: Ids, m: LeadMsg)
    requires Inv(t) && Fresh(t, ids)
    ensures Effect(t, m, Call(t, ids, m).0, Call(t, ids, m).1)
  {
    var leads := UpsertLead(t.leads, ids.lead, m.payload);
    var leadId := SelectLead(leads, m.payload.email, ids.lead);
    var orders := UpsertOrder(t.orders, ids.order, leadId, m.gateway, m.payload);
    var o := SelectOrder(orders, m.gateway, m.payload.transactionId, ids.order);
    UpsertsMeaning(t, ids, m);
    var t' := Call(t, ids, m).0;
    if HasEvent(t.events, o, m.payload.event) {
      StoredDuplicate(t, m, o);
      StoredEffect(t, ids, m, t', o, leadId);
    } else if m.eventId !in t.events {
      StoredNew(t, ids, m, o);
      StoredEffect(t, ids, m, t', o, leadId);
    } else {
      RecordedBefore(t, ids, m, leads, orders, o, leadId);
    }
  }
}
