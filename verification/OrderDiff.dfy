// What a Trader did to their resting orders (src/epigone/order_diff.py,
// src/epigone/order_events.py), from streamed updates and from point-in-time resyncs,
// and the memory both are applied to (src/epigone/ws/order_lane.py).
module OrderDiff {
  import opened Wrappers
  import opened KeyedDiff

  type OrderId = int

  datatype Kind = Placed | Filled | Canceled | Rejected | Triggered | Gone | Other

  datatype Origin = Stream | Resync

  /** What `frontendOpenOrders` reports: the size is what remains, and what the order
      started as is not there. */
  datatype OpenOrder = OpenOrder(orderId: OrderId, coin: string, isBuy: bool, limitPrice: real, size: real,
                                 placedAt: int, orderType: string, isTrigger: bool, triggerPrice: Option<real>,
                                 isPositionTpsl: bool, reduceOnly: bool)

  /** One entry of an `orderUpdates` frame; it carries no trigger fields. */
  datatype OrderUpdate = OrderUpdate(orderId: OrderId, coin: string, isBuy: bool, limitPrice: real, size: real,
                                     originalSize: real, status: string, placedAt: int, statusAt: int,
                                     cloid: Option<string>)

  /** What the stream and REST agree to say of an order. */
  datatype Core = Core(coin: string, isBuy: bool, limitPrice: real, size: real, originalSize: real, placedAt: int)

  /** What only one of them observes; None is "not observed". */
  datatype Extras = Extras(cloid: Option<string>, orderType: Option<string>, isTrigger: Option<bool>,
                           triggerPrice: Option<real>, reduceOnly: Option<bool>, isPositionTpsl: Option<bool>)

  /** One order the lane believes is on the book. */
  datatype RestingOrder = RestingOrder(core: Core, extras: Extras)

  datatype OrderEvent = OrderEvent(kind: Kind, orderId: OrderId, origin: Origin, status: Option<string>,
                                   core: Core, extras: Extras, statusAt: Option<int>)

  type OrderChange = Change<OrderId, OrderEvent, RestingOrder>

  // ---------------------------------------------------------------------------
  // The status vocabulary
  // ---------------------------------------------------------------------------

  predicate StartsAt(s: string, part: string, i: int) {
    0 <= i <= |s| - |part| && s[i..i + |part|] == part
  }

  predicate Contains(s: string, part: string) {
    exists i :: 0 <= i <= |s| - |part| && StartsAt(s, part, i)
  }

  function Classify(status: string): Kind {
    if status == "open" then Placed
    else if status == "filled" then Filled
    else if status == "triggered" then Triggered
    else if Contains(status, "eject") then Rejected
    else if Contains(status, "ancel") then Canceled
    else Other
  }

  /** Three exact words, and two families neither of which they shadow; a status naming both
      families is a rejection, and anything else is not guessed at. */
  lemma FamiliesAreExact(status: string)
    ensures Classify(status) == Placed <==> status == "open"
    ensures Classify(status) == Filled <==> status == "filled"
    ensures Classify(status) == Triggered <==> status == "triggered"
    ensures Classify(status) == Rejected <==> Contains(status, "eject")
    ensures Classify(status) == Canceled <==> Contains(status, "ancel") && !Contains(status, "eject")
  {
    NotIn("open", "eject", 'j');
    NotIn("filled", "eject", 'j');
    NotIn("triggered", "eject", 'j');
    NotIn("open", "ancel", 'c');
    NotIn("filled", "ancel", 'c');
    NotIn("triggered", "ancel", 'c');
  }

  lemma NotIn(s: string, part: string, letter: char)
    requires letter in part && letter !in s
    ensures !Contains(s, part)
  {
    forall i | 0 <= i <= |s| - |part|
      ensures !StartsAt(s, part, i)
    {
      var k :| 0 <= k < |part| && part[k] == letter;
      assert s[i..i + |part|][k] == s[i + k];
    }
  }

  // ---------------------------------------------------------------------------
  // Decisions
  // ---------------------------------------------------------------------------

  function FromOpenOrder(o: OpenOrder): RestingOrder {
    RestingOrder(Core(o.coin, o.isBuy, o.limitPrice, o.size, o.size, o.placedAt),
                 Extras(None, Some(o.orderType), Some(o.isTrigger), o.triggerPrice, Some(o.reduceOnly),
                     Some(o.isPositionTpsl)))
  }

  function FromUpdate(u: OrderUpdate): RestingOrder {
    RestingOrder(Core(u.coin, u.isBuy, u.limitPrice, u.size, u.originalSize, u.placedAt),
                 Extras(u.cloid, None, None, None, None, None))
  }

  function ResyncEvent(kind: Kind, id: OrderId, order: RestingOrder): OrderEvent {
    OrderEvent(kind, id, Resync, None, order.core, order.extras, None)
  }

  /** A known order's starting size survives a resync, which cannot observe it. */
  function Resynced(known: Option<RestingOrder>, o: OpenOrder): RestingOrder {
    var seen := FromOpenOrder(o);
    if known.None? then seen else seen.(core := seen.core.(originalSize := known.value.core.originalSize))
  }

  /** A resync's decision about one order: placed, gone, filled when it shrank, or silence. */
  function DecideResync(id: OrderId, known: Option<RestingOrder>, order: Option<OpenOrder>): OrderChange {
    if known.None? && order.None? then Change(id, None, None)
    else if order.None? then Change(id, Some(ResyncEvent(Gone, id, known.value)), None)
    else
      var seen := Resynced(known, order.value);
      if known.None? then Change(id, Some(ResyncEvent(Placed, id, seen)), Some(seen))
      else if order.value.size < known.value.core.size then Change(id, Some(ResyncEvent(Filled, id, seen)), Some(seen))
      else Change(id, None, Some(seen))
  }

  function Resyncer(): (OrderId, Option<RestingOrder>, Option<OpenOrder>) -> OrderChange {
    (id, known, order) => DecideResync(id, known, order)
  }

  /** What a streamed update says to remember. */
  function StreamKeeps(remembered: Option<RestingOrder>, u: OrderUpdate): Option<RestingOrder> {
    match Classify(u.status)
    case Filled => if u.size > 0.0 then Some(FromUpdate(u)) else None
    case Canceled => None
    case Rejected => None
    case Other => remembered
    case _ => Some(FromUpdate(u))
  }

  function StreamChange(remembered: Option<RestingOrder>, u: OrderUpdate): OrderChange {
    var seen := FromUpdate(u);
    Change(u.orderId,
           Some(OrderEvent(Classify(u.status), u.orderId, Stream, Some(u.status), seen.core, seen.extras,
               Some(u.statusAt))),
           StreamKeeps(remembered, u))
  }

  function Known<T>(seen: Option<T>, stored: Option<T>): Option<T> { if seen.Some? then seen else stored }

  /** Writing a remembered order never blanks what an earlier observation learned. */
  function Coalesced(stored: Option<RestingOrder>, seen: RestingOrder): RestingOrder {
    if stored.None? then seen
    else
      var f, s := seen.extras, stored.value.extras;
      seen.(extras := Extras(Known(f.cloid, s.cloid), Known(f.orderType, s.orderType), Known(f.isTrigger, s.isTrigger),
                              Known(f.triggerPrice, s.triggerPrice), Known(f.reduceOnly, s.reduceOnly),
                              Known(f.isPositionTpsl, s.isPositionTpsl)))
  }

  function Coalesce(): (Option<RestingOrder>, RestingOrder) -> RestingOrder {
    (stored, seen) => Coalesced(stored, seen)
  }

  // ---------------------------------------------------------------------------
  // What each event says
  // ---------------------------------------------------------------------------

  /** The order as an update reports it, its trigger fields unobserved. */
  predicate AsUpdated(core: Core, extras: Extras, u: OrderUpdate) {
    && core.coin == u.coin && core.isBuy == u.isBuy && core.limitPrice == u.limitPrice && core.size == u.size
    && core.originalSize == u.originalSize && core.placedAt == u.placedAt
    && extras.cloid == u.cloid && extras.orderType == None && extras.isTrigger == None
    && extras.triggerPrice == None && extras.reduceOnly == None && extras.isPositionTpsl == None
  }

  /** The order as a read reports it, with a starting size the read cannot see. */
  predicate AsRead(core: Core, extras: Extras, o: OpenOrder, originalSize: real) {
    && core.coin == o.coin && core.isBuy == o.isBuy && core.limitPrice == o.limitPrice && core.size == o.size
    && core.originalSize == originalSize && core.placedAt == o.placedAt
    && extras.cloid == None && extras.orderType == Some(o.orderType) && extras.isTrigger == Some(o.isTrigger)
    && extras.triggerPrice == o.triggerPrice && extras.reduceOnly == Some(o.reduceOnly)
    && extras.isPositionTpsl == Some(o.isPositionTpsl)
  }

  /** Every update is news, with the exchange's own word and clock. It takes its order off the
      book when it names a cancellation or a rejection, or is a fill that left nothing; an
      unknown word leaves memory alone; and any other leaves the order as it says. */
  lemma StreamTellsTruly(remembered: Option<RestingOrder>, u: OrderUpdate)
    ensures var change := StreamChange(remembered, u);
            && change.key == u.orderId && change.event.Some?
            && var e := change.event.value;
            && e.kind == Classify(u.status) && e.orderId == u.orderId && e.origin == Stream
            && e.status == Some(u.status) && e.statusAt == Some(u.statusAt) && AsUpdated(e.core, e.extras, u)
            && var ended := Contains(u.status, "eject") || Contains(u.status, "ancel");
            && var known := ended || u.status == "open" || u.status == "filled" || u.status == "triggered";
            && (!known ==> change.keep == remembered)
            && (ended || (u.status == "filled" && u.size <= 0.0) ==> change.keep == None)
            && (known && !ended && !(u.status == "filled" && u.size <= 0.0) ==>
                  change.keep.Some? && AsUpdated(change.keep.value.core, change.keep.value.extras, u))
  {
    FamiliesAreExact(u.status);
  }

  /** A resync says an order is gone as memory knew it, and placed or filled as the read has
      it, without a word or a clock of the exchange's. */
  lemma ResyncTellsTruly(id: OrderId, known: Option<RestingOrder>, order: Option<OpenOrder>)
    ensures var change := DecideResync(id, known, order);
            && change.key == id
            && (change.event.Some? ==>
                  var e := change.event.value;
                  e.orderId == id && e.origin == Resync && e.status == None && e.statusAt == None)
            && (order.None? && known.Some? ==>
                  && change.event.Some? && change.keep == None
                  && change.event.value.kind == Gone && change.event.value.core == known.value.core
                  && change.event.value.extras == known.value.extras)
            && (order.Some? ==>
                  var start := if known.Some? then known.value.core.originalSize else order.value.size;
                  && change.keep.Some? && AsRead(change.keep.value.core, change.keep.value.extras, order.value, start)
                  && (change.event.Some? <==> known.None? || order.value.size < known.value.core.size)
                  && (change.event.Some? ==>
                        && change.event.value.kind == (if known.None? then Placed else Filled)
                        && AsRead(change.event.value.core, change.event.value.extras, order.value, start)))
  {
  }

  /** `later` knows all that `earlier` did. */
  predicate Knows(earlier: Extras, later: Extras) {
    && (earlier.cloid.Some? ==> later.cloid.Some?) && (earlier.orderType.Some? ==> later.orderType.Some?)
    && (earlier.isTrigger.Some? ==> later.isTrigger.Some?) && (earlier.triggerPrice.Some? ==> later.triggerPrice.Some?)
    && (earlier.reduceOnly.Some? ==> later.reduceOnly.Some?)
    && (earlier.isPositionTpsl.Some? ==> later.isPositionTpsl.Some?)
  }

  /** What was just observed stands, and what was not is as it was. */
  predicate Observes(was: Extras, seen: Extras, now: Extras) {
    && now.cloid == (if seen.cloid.Some? then seen.cloid else was.cloid)
    && now.orderType == (if seen.orderType.Some? then seen.orderType else was.orderType)
    && now.isTrigger == (if seen.isTrigger.Some? then seen.isTrigger else was.isTrigger)
    && now.triggerPrice == (if seen.triggerPrice.Some? then seen.triggerPrice else was.triggerPrice)
    && now.reduceOnly == (if seen.reduceOnly.Some? then seen.reduceOnly else was.reduceOnly)
    && now.isPositionTpsl == (if seen.isPositionTpsl.Some? then seen.isPositionTpsl else was.isPositionTpsl)
  }

  /** What a resync learned is never blanked: through any decisions that keep an order in
      memory, by streams or by resyncs, every field ever observed of it stays observed, and
      the last decision's own observations stand. */
  lemma {:induction false} LearnedIsKept(memory: map<OrderId, RestingOrder>, changes: seq<OrderChange>, id: OrderId)
    requires id in memory && forall i :: 0 <= i < |changes| && changes[i].key == id ==> changes[i].keep.Some?
    ensures var after := AllApplied(memory, changes, Coalesce());
            && id in after && Knows(memory[id].extras, after[id].extras)
            && (changes != [] && changes[|changes| - 1].key == id ==>
                  var before := AllApplied(memory, changes[..|changes| - 1], Coalesce());
                  && id in before
                  && Observes(before[id].extras, changes[|changes| - 1].keep.value.extras, after[id].extras)
                  && after[id].core == changes[|changes| - 1].keep.value.core)
  {
    if changes != [] { LearnedIsKept(memory, changes[..|changes| - 1], id); }
  }

  // ---------------------------------------------------------------------------
  // The resync
  // ---------------------------------------------------------------------------

  function Book(orders: seq<OpenOrder>): map<OrderId, OpenOrder> {
    DictOf(orders, (o: OpenOrder) => o.orderId)
  }

  function Order(orders: seq<OpenOrder>): (keys: seq<OrderId>)
    ensures forall k :: k in keys <==> k in Book(orders)
    ensures forall i, j :: 0 <= i < j < |keys| ==> keys[i] != keys[j]
  {
    KeyOrder(orders, (o: OpenOrder) => o.orderId)
  }

  method Departures(previous: map<OrderId, RestingOrder>, current: map<OrderId, OpenOrder>)
      returns (changes: seq<OrderChange>)
    ensures DeparturesOf(previous, current, previous.Keys, Resyncer(), changes)
  {
    changes := [];
    var todo := previous.Keys;
    while todo != {}
      invariant todo <= previous.Keys
      invariant DeparturesOf(previous, current, previous.Keys - todo, Resyncer(), changes)
      decreases todo
    {
      var id := AnyOf(todo);
      assert previous.Keys - (todo - {id}) == previous.Keys - todo + {id};
      if id !in current {
        var change := Change(id, Some(ResyncEvent(Gone, id, previous[id])), None);
        assert Owed(previous, current, Resyncer(), change);
        DepartureAdded(previous, current, previous.Keys - todo, Resyncer(), changes, change);
        changes := changes + [change];
      }
      todo := todo - {id};
    }
    assert previous.Keys - todo == previous.Keys;
  }

  method Present(previous: map<OrderId, RestingOrder>, current: map<OrderId, OpenOrder>, keys: seq<OrderId>)
      returns (changes: seq<OrderChange>)
    requires forall k :: k in keys ==> k in current
    ensures PresentOf(previous, current, keys, Resyncer(), changes)
  {
    changes := [];
    for k := 0 to |keys|
      invariant PresentOf(previous, current, keys[..k], Resyncer(), changes)
    {
      var id := keys[k];
      var order := current[id];
      var seen := FromOpenOrder(order);
      var change;
      if id !in previous {
        change := Change(id, Some(ResyncEvent(Placed, id, seen)), Some(seen));
      } else {
        seen := seen.(core := seen.core.(originalSize := previous[id].core.originalSize));
        if order.size < previous[id].core.size {
          change := Change(id, Some(ResyncEvent(Filled, id, seen)), Some(seen));
        } else {
          change := Change(id, None, Some(seen));
        }
      }
      assert Owed(previous, current, Resyncer(), change);
      PresentAdded(previous, current, keys[..k], Resyncer(), changes, change);
      assert keys[..k + 1] == keys[..k] + [id];
      changes := changes + [change];
    }
    assert keys[..|keys|] == keys;
  }

  /** A point-in-time book against memory: the departures, then the orders resting now in
      the book's own order. */
  method DiffOpenOrders(previous: map<OrderId, RestingOrder>, orders: seq<OpenOrder>)
      returns (changes: seq<OrderChange>)
    ensures IsDiff(previous, Book(orders), Resyncer(), changes)
    ensures |changes| >= |Order(orders)|
    ensures PresentOf(previous, Book(orders), Order(orders), Resyncer(), changes[|changes| - |Order(orders)|..])
  {
    var current, keys := Book(orders), Order(orders);
    var departures := Departures(previous, current);
    var present := Present(previous, current, keys);
    changes := departures + present;
    DiffAssembled(previous, current, keys, Resyncer(), departures, present);
  }
}
