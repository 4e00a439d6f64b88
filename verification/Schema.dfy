/** The four relational tables the worker writes (sql/001_create_tables.sql), keyed by primary key. */
module Schema {
  import opened Wrappers
  import opened Config

  datatype Lead = Lead(email: string, contact: Contact)

  datatype Order = Order(leadId: Id, gateway: string, transactionId: string,
                         transactionTime: int, event: string, sale: Sale)

  datatype LeadEvent = LeadEvent(orderId: Id, event: string)

  datatype DistStatus = PENDING | DELIVERED | FAILED

  /** The columns of a `distribution_status` row that the SMS consumer rewrites.
      `nextRetry` stands for `next_retry_at`: the delay it was computed from. */
  datatype Progress = Progress(status: DistStatus, attempts: int, nextRetry: Option<nat>)

  const FRESH_PROGRESS: Progress := Progress(PENDING, 0, None)

  datatype Dist = Dist(orderId: Id, channel: Channel, progress: Progress)

  type Leads = map<Id, Lead>
  type Orders = map<Id, Order>
  type Events = map<Id, LeadEvent>
  type Dists = map<Id, Dist>

  datatype Tables = Tables(leads: Leads, orders: Orders, events: Events, dist: Dists)

  const EMPTY: Tables := Tables(map[], map[], map[], map[])

  // What a row must look like to match the WHERE clause or the unique key in question.

  predicate LeadAt(leads: Leads, i: Id, email: string) {
    i in leads && leads[i].email == email
  }

  predicate OrderAt(orders: Orders, i: Id, gateway: string, transactionId: string) {
    i in orders && orders[i].gateway == gateway && orders[i].transactionId == transactionId
  }

  predicate EventAt(events: Events, i: Id, orderId: Id, event: string) {
    i in events && events[i] == LeadEvent(orderId, event)
  }

  predicate DistAt(dist: Dists, i: Id, orderId: Id, channel: Channel) {
    i in dist && dist[i].orderId == orderId && dist[i].channel == channel
  }

  ghost predicate HasLead(leads: Leads, email: string) {
    exists i :: LeadAt(leads, i, email)
  }

  ghost predicate HasOrder(orders: Orders, gateway: string, transactionId: string) {
    exists i :: OrderAt(orders, i, gateway, transactionId)
  }

  ghost predicate HasEvent(events: Events, orderId: Id, event: string) {
    exists i :: EventAt(events, i, orderId, event)
  }

  ghost predicate HasDist(dist: Dists, orderId: Id, channel: Channel) {
    exists i :: DistAt(dist, i, orderId, channel)
  }

  // `uk_leads_email`, `uk_orders_gateway_txn`, `uk_lead_events_order_event`, `uk_dist_order_channel`.

  ghost predicate UniqueLeads(leads: Leads) {
    forall i, j, e :: LeadAt(leads, i, e) && LeadAt(leads, j, e) ==> i == j
  }

  ghost predicate UniqueOrders(orders: Orders) {
    forall i, j, g, x :: OrderAt(orders, i, g, x) && OrderAt(orders, j, g, x) ==> i == j
  }

  ghost predicate UniqueEvents(events: Events) {
    forall i, j, o, e :: EventAt(events, i, o, e) && EventAt(events, j, o, e) ==> i == j
  }

  ghost predicate UniqueDist(dist: Dists) {
    forall i, j, o, c :: DistAt(dist, i, o, c) && DistAt(dist, j, o, c) ==> i == j
  }

  ghost predicate UniqueKeys(t: Tables) {
    UniqueLeads(t.leads) && UniqueOrders(t.orders) && UniqueEvents(t.events) && UniqueDist(t.dist)
  }

  /** Every foreign key names an existing row. */
  ghost predicate ForeignKeys(t: Tables) {
    && (forall o :: o in t.orders ==> t.orders[o].leadId in t.leads)
    && (forall i :: i in t.events ==> t.events[i].orderId in t.orders)
    && (forall i :: i in t.dist ==> t.dist[i].orderId in t.orders)
  }

  ghost predicate HasSomeEvent(events: Events, orderId: Id) {
    exists e :: HasEvent(events, orderId, e)
  }

  ghost predicate HasAllChannels(dist: Dists, orderId: Id) {
    forall c :: HasDist(dist, orderId, c)
  }

  /** Every order has an event and a status row on each of the four channels. */
  ghost predicate Complete(t: Tables) {
    && (forall o :: o in t.orders ==> HasSomeEvent(t.events, o) && HasAllChannels(t.dist, o))
    && |t.dist| == 4 * |t.orders|
  }

  ghost predicate Inv(t: Tables) {
    UniqueKeys(t) && ForeignKeys(t) && Complete(t)
  }

  /** The set the tables stand for: the join of `orders` and `lead_events`. */
  ghost predicate Recorded(t: Tables, k: Key) {
    exists o :: OrderAt(t.orders, o, k.gateway, k.transactionId) && HasEvent(t.events, o, k.event)
  }

  /** The event is stored with its order, and the order has all four status rows. */
  ghost predicate Persisted(t: Tables, k: Key) {
    exists o :: && OrderAt(t.orders, o, k.gateway, k.transactionId)
                && HasEvent(t.events, o, k.event)
                && HasAllChannels(t.dist, o)
  }

  // Rows survive, and the columns that no statement rewrites keep their values.

  ghost predicate ExtendsLeads(a: Leads, b: Leads) {
    forall i :: i in a ==> i in b && b[i].email == a[i].email
  }

  ghost predicate ExtendsOrders(a: Orders, b: Orders) {
    forall i :: i in a ==> i in b && b[i].(sale := a[i].sale) == a[i]
  }

  ghost predicate ExtendsEvents(a: Events, b: Events) {
    forall i :: i in a ==> i in b && b[i] == a[i]
  }

  ghost predicate ExtendsDist(a: Dists, b: Dists) {
    forall i :: i in a ==> i in b && b[i].(progress := a[i].progress) == a[i]
  }

  ghost predicate Extends(t: Tables, t': Tables) {
    && ExtendsLeads(t.leads, t'.leads) && ExtendsOrders(t.orders, t'.orders)
    && ExtendsEvents(t.events, t'.events) && ExtendsDist(t.dist, t'.dist)
  }

  lemma ExtendsKeeps(t: Tables, t': Tables)
    requires Extends(t, t')
    ensures forall o, e :: HasEvent(t.events, o, e) ==> HasEvent(t'.events, o, e)
    ensures forall o, c :: HasDist(t.dist, o, c) ==> HasDist(t'.dist, o, c)
    ensures forall i, g, x :: OrderAt(t.orders, i, g, x) ==> OrderAt(t'.orders, i, g, x)
    ensures forall k :: Recorded(t, k) ==> Recorded(t', k)
    ensures forall k :: Persisted(t, k) ==> Persisted(t', k)
  {
    forall o, e | HasEvent(t.events, o, e)
      ensures HasEvent(t'.events, o, e)
    {
      var i :| EventAt(t.events, i, o, e);
      assert EventAt(t'.events, i, o, e);
    }
    forall o, c | HasDist(t.dist, o, c)
      ensures HasDist(t'.dist, o, c)
    {
      var i :| DistAt(t.dist, i, o, c);
      assert DistAt(t'.dist, i, o, c);
    }
  }

  // -- The SMS consumer's view: one row per order -------------------------------------------

  ghost function SmsRow(dist: Dists, orderId: Id): Option<Progress> {
    if HasDist(dist, orderId, SMS) then
      var i :| DistAt(dist, i, orderId, SMS);
      Some(dist[i].progress)
    else
      None
  }

  /** `UPDATE distribution_status SET ... WHERE order_id = :order_id AND channel = 'SMS'`. */
  function UpdateSms(dist: Dists, orderId: Id, p: Progress): Dists {
    map i | i in dist ::
      if dist[i].orderId == orderId && dist[i].channel == SMS then dist[i].(progress := p) else dist[i]
  }

  lemma UpdateSmsShape(dist: Dists, orderId: Id, p: Progress)
    ensures var d := UpdateSms(dist, orderId, p);
            && d.Keys == dist.Keys && |d| == |dist|
            && ExtendsDist(dist, d)
            && (forall i, o, c :: DistAt(d, i, o, c) == DistAt(dist, i, o, c))
            && (forall o, c :: HasDist(d, o, c) == HasDist(dist, o, c))
            && (forall o :: HasAllChannels(d, o) == HasAllChannels(dist, o))
  {
    var d := UpdateSms(dist, orderId, p);
    assert d.Keys == dist.Keys;
    assert |d| == |d.Keys| && |dist| == |dist.Keys|;
    forall o, c
      ensures HasDist(d, o, c) == HasDist(dist, o, c)
    {
      if HasDist(dist, o, c) { var i :| DistAt(dist, i, o, c); assert DistAt(d, i, o, c); }
      if HasDist(d, o, c) { var i :| DistAt(d, i, o, c); assert DistAt(dist, i, o, c); }
    }
  }

  /** With unique keys, `SmsRow` reads the one matching row. */
  lemma SmsRowIs(dist: Dists, i: Id, orderId: Id)
    requires UniqueDist(dist) && DistAt(dist, i, orderId, SMS)
    ensures SmsRow(dist, orderId) == Some(dist[i].progress)
  {
  }

  /** The SMS update keeps the relational invariant, records nothing new, changes exactly the row
      it names (when that row exists) and leaves every other order's row alone. */
  lemma UpdateSmsKeeps(t: Tables, orderId: Id, p: Progress)
    requires Inv(t)
    ensures var t' := t.(dist := UpdateSms(t.dist, orderId, p));
            && Inv(t') && Extends(t, t')
            && SmsRow(t'.dist, orderId) == (if SmsRow(t.dist, orderId).Some? then Some(p) else None)
            && (forall o :: o != orderId ==> SmsRow(t'.dist, o) == SmsRow(t.dist, o))
  {
    var d := UpdateSms(t.dist, orderId, p);
    UpdateSmsShape(t.dist, orderId, p);
    assert UniqueDist(d);
    forall o
      ensures SmsRow(d, o) == if o == orderId && SmsRow(t.dist, o).Some? then Some(p) else SmsRow(t.dist, o)
    {
      if HasDist(t.dist, o, SMS) {
        var i :| DistAt(t.dist, i, o, SMS);
        SmsRowIs(t.dist, i, o);
        SmsRowIs(d, i, o);
      }
    }
  }
}
