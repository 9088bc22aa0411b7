// The order lane against the exchange's own book: a stream keeps memory equal to it in every
// order it hears of, and each resync says exactly what changed since memory last heard, the
// window between a resync's read and its subscription included (src/epigone/order_diff.py,
// src/epigone/ws/order_lane.py).
module OrderBook {
  import opened Wrappers
  import opened KeyedDiff
  import opened OrderDiff

  // ---------------------------------------------------------------------------
  // The exchange
  // ---------------------------------------------------------------------------

  /** A resting order as the exchange knows it; `open.size` is what remains. */
  datatype BookOrder = BookOrder(open: OpenOrder, originalSize: real, cloid: Option<string>)

  /** The book, and every order id ever used: an id is never minted twice. */
  datatype Exchange = Exchange(book: map<OrderId, BookOrder>, used: set<OrderId>)

  /** What can happen to an order, with the status word the exchange reports. */
  datatype Action =
    | Place(order: BookOrder, at: int)
    | Refuse(order: BookOrder, status: string, at: int)
    | Fill(id: OrderId, left: real, at: int)
    | Trigger(id: OrderId, at: int)
    | End(id: OrderId, status: string, at: int)

  function IdOf(a: Action): OrderId {
    if a.Place? || a.Refuse? then a.order.open.orderId else a.id
  }

  /** A fill leaves less than there was, or finishes the order; a cancellation or rejection
      ends one that rests, and a refused order never rested. */
  predicate Possible(ex: Exchange, a: Action) {
    match a
    case Place(order, _) => order.open.orderId !in ex.used && order.originalSize == order.open.size
    case Refuse(order, status, _) =>
      order.open.orderId !in ex.used && Classify(status) in {Rejected, Canceled}
    case Fill(id, left, _) => id in ex.book && 0.0 <= left && (left == 0.0 || left < ex.book[id].open.size)
    case Trigger(id, _) => id in ex.book
    case End(id, status, _) => id in ex.book && Classify(status) in {Rejected, Canceled}
  }

  function After(ex: Exchange, a: Action): Exchange
    requires Possible(ex, a)
  {
    match a
    case Place(order, _) => Exchange(ex.book[order.open.orderId := order], ex.used + {order.open.orderId})
    case Refuse(order, _, _) => ex.(used := ex.used + {order.open.orderId})
    case Fill(id, left, _) =>
      if left == 0.0 then ex.(book := ex.book - {id})
      else ex.(book := ex.book[id := ex.book[id].(open := ex.book[id].open.(size := left))])
    case Trigger(_, _) => ex
    case End(id, _, _) => ex.(book := ex.book - {id})
  }

  /** The streamed entry: the order as it then stood, a fill's at its new remainder. */
  function Report(ex: Exchange, a: Action): OrderUpdate
    requires Possible(ex, a)
  {
    match a
    case Place(order, at) => Entry(order, order.open.size, "open", at)
    case Refuse(order, status, at) => Entry(order, order.open.size, status, at)
    case Fill(id, left, at) => Entry(ex.book[id], left, "filled", at)
    case Trigger(id, at) => Entry(ex.book[id], ex.book[id].open.size, "triggered", at)
    case End(id, status, at) => Entry(ex.book[id], ex.book[id].open.size, status, at)
  }

  function Entry(o: BookOrder, size: real, status: string, at: int): OrderUpdate {
    OrderUpdate(o.open.orderId, o.open.coin, o.open.isBuy, o.open.limitPrice, size, o.originalSize, status,
                o.open.placedAt, at, o.cloid)
  }

  predicate AllPossible(ex: Exchange, run: seq<Action>)
    decreases run
  {
    run != [] ==> Possible(ex, run[0]) && AllPossible(After(ex, run[0]), run[1..])
  }

  function Outcome(ex: Exchange, run: seq<Action>): Exchange
    requires AllPossible(ex, run)
    decreases run
  {
    if run == [] then ex else Outcome(After(ex, run[0]), run[1..])
  }

  /** Orders are filed under their own ids, all used, and none rests at more than it
      started with. */
  predicate Sound(ex: Exchange) {
    forall id :: id in ex.book ==>
      var o := ex.book[id];
      o.open.orderId == id && id in ex.used && o.open.size <= o.originalSize
  }

  // ---------------------------------------------------------------------------
  // Memory against the book
  // ---------------------------------------------------------------------------

  function CoreOf(o: BookOrder): Core {
    Core(o.open.coin, o.open.isBuy, o.open.limitPrice, o.open.size, o.originalSize, o.open.placedAt)
  }

  /** Memory and book hold the same orders at the same sizes. What an order started at is
      only what memory knows: a REST read cannot observe it. */
  ghost predicate Agrees(memory: map<OrderId, RestingOrder>, book: map<OrderId, BookOrder>) {
    && (forall id :: id in memory <==> id in book)
    && (forall id :: id in memory ==>
          memory[id].core == CoreOf(book[id]).(originalSize := memory[id].core.originalSize))
  }

  /** They do about one order. */
  predicate AgreesAt(memory: map<OrderId, RestingOrder>, book: map<OrderId, BookOrder>, id: OrderId) {
    && (id in memory <==> id in book)
    && (id in memory ==> memory[id].core == CoreOf(book[id]).(originalSize := memory[id].core.originalSize))
  }

  lemma AgreesEverywhere(memory: map<OrderId, RestingOrder>, book: map<OrderId, BookOrder>)
    ensures Agrees(memory, book) <==> forall id :: AgreesAt(memory, book, id)
  {
    if forall id :: AgreesAt(memory, book, id) {
      forall id
        ensures id in memory <==> id in book
        ensures id in memory ==> memory[id].core == CoreOf(book[id]).(originalSize := memory[id].core.originalSize)
      {
        assert AgreesAt(memory, book, id);
      }
    }
  }

  /** What memory holds of an order is as that order once stood: no smaller than it now is,
      no different otherwise, and starting between what rests and the truth. */
  ghost predicate Behind(memory: map<OrderId, RestingOrder>, ex: Exchange) {
    forall id :: id in memory ==> BehindAt(memory[id].core, ex, id)
  }

  predicate BehindAt(held: Core, ex: Exchange, id: OrderId) {
    && id in ex.used
    && (id in ex.book ==>
          && held == CoreOf(ex.book[id]).(size := held.size, originalSize := held.originalSize)
          && ex.book[id].open.size <= held.size
          && ex.book[id].open.size <= held.originalSize <= ex.book[id].originalSize)
  }

  /** Each starting size in `now` is the true one, or the one `was` knew. */
  ghost predicate StartsKept(was: map<OrderId, RestingOrder>, now: map<OrderId, RestingOrder>,
                             book: map<OrderId, BookOrder>)
  {
    forall id :: id in now && id in book ==>
      || now[id].core.originalSize == book[id].originalSize
      || (id in was && now[id].core.originalSize == was[id].core.originalSize)
  }

  function Streamed(memory: map<OrderId, RestingOrder>, u: OrderUpdate): map<OrderId, RestingOrder> {
    Applied(memory, StreamChange(Look(memory, u.orderId), u), Coalesce())
  }

  function StreamedRun(memory: map<OrderId, RestingOrder>, ex: Exchange, run: seq<Action>): map<OrderId, RestingOrder>
    requires AllPossible(ex, run)
    decreases run
  {
    if run == [] then memory
    else StreamedRun(Streamed(memory, Report(ex, run[0])), After(ex, run[0]), run[1..])
  }

  lemma StreamStepAgrees(memory: map<OrderId, RestingOrder>, ex: Exchange, a: Action)
    requires Sound(ex) && Possible(ex, a) && Agrees(memory, ex.book)
    ensures var next := Streamed(memory, Report(ex, a));
            && Sound(After(ex, a)) && Agrees(next, After(ex, a).book)
            && StartsKept(memory, next, After(ex, a).book)
  {
    var u, id := Report(ex, a), IdOf(a);
    assert u.orderId == id;
    var keeps := StreamKeeps(Look(memory, id), u);
    assert keeps.Some? <==> id in After(ex, a).book;
    assert keeps.Some? ==> keeps.value.core == CoreOf(After(ex, a).book[id]);
  }

  /** A lossless stream. Folding every streamed update keeps memory equal to the book in
      ids and sizes through any run of placements, partial and full fills, triggers,
      cancellations and rejections, whatever starting sizes memory was anchored with; and
      it only ever replaces one of those by the truth. */
  lemma {:induction false} LosslessStream(memory: map<OrderId, RestingOrder>, ex: Exchange, run: seq<Action>)
    requires Sound(ex) && AllPossible(ex, run) && Agrees(memory, ex.book)
    ensures var end := StreamedRun(memory, ex, run);
            && Sound(Outcome(ex, run)) && Agrees(end, Outcome(ex, run).book)
            && StartsKept(memory, end, Outcome(ex, run).book)
    decreases run
  {
    if run != [] {
      var next := Streamed(memory, Report(ex, run[0]));
      StreamStepAgrees(memory, ex, run[0]);
      LosslessStream(next, After(ex, run[0]), run[1..]);
      forall id | id in Outcome(ex, run).book
        ensures id in After(ex, run[0]).book ==>
                  After(ex, run[0]).book[id].originalSize == Outcome(ex, run).book[id].originalSize
      {
        OrdersOnlyShrink(After(ex, run[0]), run[1..], id);
      }
    }
  }

  /** Some update of the run is about the order. */
  predicate Touches(run: seq<Action>, id: OrderId) { exists k :: 0 <= k < |run| && IdOf(run[k]) == id }

  lemma StreamStepHeals(memory: map<OrderId, RestingOrder>, ex: Exchange, a: Action, id: OrderId)
    requires Sound(ex) && Possible(ex, a)
    ensures Sound(After(ex, a))
    ensures AgreesAt(Streamed(memory, Report(ex, a)), After(ex, a).book, id) <==>
              AgreesAt(memory, ex.book, id) || IdOf(a) == id
  {
    var u := Report(ex, a);
    assert u.orderId == IdOf(a);
    var keeps := StreamKeeps(Look(memory, IdOf(a)), u);
    assert keeps.Some? <==> IdOf(a) in After(ex, a).book;
    assert keeps.Some? ==> keeps.value.core == CoreOf(After(ex, a).book[IdOf(a)]);
  }

  /** What a stream does to any memory, true or not: afterwards memory is true of an order if
      and only if it was before or the stream said anything about it. */
  lemma {:induction false} StreamTrueIffWasOrTouched(memory: map<OrderId, RestingOrder>, ex: Exchange,
      run: seq<Action>, id: OrderId)
    requires Sound(ex) && AllPossible(ex, run)
    ensures Sound(Outcome(ex, run))
    ensures AgreesAt(StreamedRun(memory, ex, run), Outcome(ex, run).book, id) <==>
              AgreesAt(memory, ex.book, id) || Touches(run, id)
    decreases run
  {
    if run != [] {
      StreamStepHeals(memory, ex, run[0], id);
      StreamTrueIffWasOrTouched(Streamed(memory, Report(ex, run[0])), After(ex, run[0]), run[1..], id);
      TouchesFirstOrRest(run, id);
    }
  }

  lemma TouchesFirstOrRest(run: seq<Action>, id: OrderId)
    requires run != []
    ensures Touches(run, id) <==> IdOf(run[0]) == id || Touches(run[1..], id)
  {
    if Touches(run, id) {
      var k :| 0 <= k < |run| && IdOf(run[k]) == id;
      assert k > 0 ==> run[1..][k - 1] == run[k];
    }
    if Touches(run[1..], id) {
      var k :| 0 <= k < |run[1..]| && IdOf(run[1..][k]) == id;
      assert run[k + 1] == run[1..][k];
    }
  }

  // ---------------------------------------------------------------------------
  // Resyncs
  // ---------------------------------------------------------------------------

  /** The book a REST read returns. */
  function OpenBook(book: map<OrderId, BookOrder>): map<OrderId, OpenOrder> {
    map id | id in book :: book[id].open
  }

  /** `changes` is the resync of `memory` against the exchange's book. */
  ghost predicate Resyncs(memory: map<OrderId, RestingOrder>, book: map<OrderId, BookOrder>,
      changes: seq<OrderChange>) {
    IsDiff(memory, OpenBook(book), Resyncer(), changes)
  }

  /** What the resync says of one order: one event for a departure, an arrival or a shrink,
      and silence for anything else. */
  lemma ResyncNews(memory: map<OrderId, RestingOrder>, book: map<OrderId, BookOrder>, changes: seq<OrderChange>,
      id: OrderId)
    requires Resyncs(memory, book, changes)
    ensures About(NewsOf(changes), id) ==
            if id in memory && id !in book then [ResyncEvent(Gone, id, memory[id])]
            else if id !in memory && id in book then [ResyncEvent(Placed, id, FromOpenOrder(book[id].open))]
            else if id in memory && id in book && book[id].open.size < memory[id].core.size
            then [ResyncEvent(Filled, id, Resynced(Some(memory[id]), book[id].open))]
            else []
  {
    NewsAbout(memory, OpenBook(book), Resyncer(), changes, id);
    assert Mentions(changes, id) ==>
             exists i :: 0 <= i < |changes| && changes[i].key == id
                         && Owed(memory, OpenBook(book), Resyncer(), changes[i]);
  }

  /** The order as the book has it, but starting at the size memory knew, or failing that at
      what remained. */
  function ResyncedCore(memory: map<OrderId, RestingOrder>, book: map<OrderId, BookOrder>, id: OrderId): Core
    requires id in book
  {
    CoreOf(book[id]).(originalSize := if id in memory then memory[id].core.originalSize else book[id].open.size)
  }

  /** What memory holds of one order once the resync is applied. */
  lemma ResyncedAt(memory: map<OrderId, RestingOrder>, book: map<OrderId, BookOrder>, changes: seq<OrderChange>,
      id: OrderId)
    requires Resyncs(memory, book, changes)
    ensures var after := AllApplied(memory, changes, Coalesce());
            && (id in after <==> id in book)
            && (id in after ==> after[id].core == ResyncedCore(memory, book, id))
  {
    var after := AllApplied(memory, changes, Coalesce());
    DiffAppliedAt(memory, OpenBook(book), Resyncer(), changes, Coalesce(), id);
    assert id in after <==> Look(after, id).Some?;
  }

  /** Applying the resync makes memory the book, and keeps the starting size of every order
      already known. */
  lemma ResyncedMemory(memory: map<OrderId, RestingOrder>, book: map<OrderId, BookOrder>, changes: seq<OrderChange>)
    requires Resyncs(memory, book, changes)
    ensures var after := AllApplied(memory, changes, Coalesce());
            && Agrees(after, book)
            && (forall id :: id in after ==>
                  after[id].core.originalSize ==
                  if id in memory then memory[id].core.originalSize else book[id].open.size)
  {
    forall id
      ensures var after := AllApplied(memory, changes, Coalesce());
              && (id in after <==> id in book)
              && (id in after ==> after[id].core == ResyncedCore(memory, book, id))
    {
      ResyncedAt(memory, book, changes, id);
    }
  }

  lemma FirstNewsIsAbout(news: seq<News<OrderId, OrderEvent>>)
    requires news != []
    ensures About(news, news[0].key) != []
  {
  }

  /** A resync of memory that already agrees with the book says nothing. */
  lemma AgreementIsQuiet(memory: map<OrderId, RestingOrder>, book: map<OrderId, BookOrder>, changes: seq<OrderChange>)
    requires Agrees(memory, book) && Resyncs(memory, book, changes)
    ensures NewsOf(changes) == []
  {
    var news := NewsOf(changes);
    if news != [] {
      FirstNewsIsAbout(news);
      ResyncNews(memory, book, changes, news[0].key);
    }
  }

  ghost predicate SameCores(a: map<OrderId, RestingOrder>, b: map<OrderId, RestingOrder>) {
    (forall id :: id in a <==> id in b) && (forall id :: id in a ==> a[id].core == b[id].core)
  }

  /** And moves nothing. */
  lemma AgreementIsKept(memory: map<OrderId, RestingOrder>, book: map<OrderId, BookOrder>, changes: seq<OrderChange>)
    requires Agrees(memory, book) && Resyncs(memory, book, changes)
    ensures SameCores(AllApplied(memory, changes, Coalesce()), memory)
  {
    ResyncedMemory(memory, book, changes);
  }

  /** After a lossless stream a resync is silent: it emits nothing, and leaves every order
      as memory had it. */
  lemma SilentResync(memory: map<OrderId, RestingOrder>, ex: Exchange, run: seq<Action>, changes: seq<OrderChange>)
    requires Sound(ex) && AllPossible(ex, run) && Agrees(memory, ex.book)
    requires Resyncs(StreamedRun(memory, ex, run), Outcome(ex, run).book, changes)
    ensures NewsOf(changes) == []
    ensures SameCores(AllApplied(StreamedRun(memory, ex, run), changes, Coalesce()), StreamedRun(memory, ex, run))
  {
    LosslessStream(memory, ex, run);
    AgreementIsQuiet(StreamedRun(memory, ex, run), Outcome(ex, run).book, changes);
    AgreementIsKept(StreamedRun(memory, ex, run), Outcome(ex, run).book, changes);
  }

  predicate ShrunkFrom(was: BookOrder, now: BookOrder) {
    now.open.size <= was.open.size && now == was.(open := was.open.(size := now.open.size))
  }

  lemma OneActionShrinks(ex: Exchange, a: Action, id: OrderId)
    requires Sound(ex) && Possible(ex, a)
    ensures Sound(After(ex, a)) && (id in ex.used ==> id in After(ex, a).used)
    ensures id in ex.book && id in After(ex, a).book ==> ShrunkFrom(ex.book[id], After(ex, a).book[id])
    ensures id in ex.used && id !in ex.book ==> id !in After(ex, a).book
  {
  }

  /** On the exchange an order can only shrink while it rests and nothing else about it
      moves; an id that left never returns. */
  lemma {:induction false} OrdersOnlyShrink(ex: Exchange, run: seq<Action>, id: OrderId)
    requires Sound(ex) && AllPossible(ex, run)
    ensures id in ex.book && id in Outcome(ex, run).book ==> ShrunkFrom(ex.book[id], Outcome(ex, run).book[id])
    ensures id in ex.used && id !in ex.book ==> id !in Outcome(ex, run).book
    decreases run
  {
    if run != [] {
      var next := After(ex, run[0]);
      OneActionShrinks(ex, run[0], id);
      OrdersOnlyShrink(next, run[1..], id);
    }
  }

  /** What a resync across a gap says of one order, from the book before the gap to the
      book after it: gone if it departed, placed if it arrived, filled if it shrank, each
      with what memory knew it to have started at, and nothing if it is as it was. */
  ghost predicate SaysExactly(memory: map<OrderId, RestingOrder>, before: map<OrderId, BookOrder>,
                              after: map<OrderId, BookOrder>, changes: seq<OrderChange>, id: OrderId)
  {
    var news := About(NewsOf(changes), id);
    && (news == [] || |news| == 1)
    && (id in before && id !in after <==> news != [] && news[0].kind == Gone)
    && (id !in before && id in after <==> news != [] && news[0].kind == Placed)
    && (id in before && id in after && after[id] != before[id] <==> news != [] && news[0].kind == Filled)
    && (news != [] && news[0].kind == Filled && id in memory ==>
          news[0].core == CoreOf(after[id]).(originalSize := memory[id].core.originalSize))
  }

  /** Whatever else memory gets wrong, of an order it had right a resync says what became of
      that order since. */
  lemma ResyncSaysSince(memory: map<OrderId, RestingOrder>, before: map<OrderId, BookOrder>,
      after: map<OrderId, BookOrder>, changes: seq<OrderChange>, id: OrderId)
    requires AgreesAt(memory, before, id) && Resyncs(memory, after, changes)
    requires id in before && id in after ==> ShrunkFrom(before[id], after[id])
    ensures SaysExactly(memory, before, after, changes, id)
  {
    ResyncNews(memory, after, changes, id);
  }

  /** A gap. Lose any run of updates, then resync: the resync says exactly what the gap did
      to each order; afterwards memory agrees with the book in ids and sizes, and every
      order known before the gap keeps the starting size it was known by. */
  lemma ResyncAfterLoss(memory: map<OrderId, RestingOrder>, ex: Exchange, lost: seq<Action>, changes: seq<OrderChange>)
    requires Sound(ex) && AllPossible(ex, lost) && Agrees(memory, ex.book)
    requires Resyncs(memory, Outcome(ex, lost).book, changes)
    ensures forall id :: SaysExactly(memory, ex.book, Outcome(ex, lost).book, changes, id)
    ensures var after := AllApplied(memory, changes, Coalesce());
            && Agrees(after, Outcome(ex, lost).book)
            && (forall id :: id in after && id in memory ==>
                  after[id].core.originalSize == memory[id].core.originalSize)
            && (forall id :: id in after && id !in memory ==>
                  after[id].core.originalSize == Outcome(ex, lost).book[id].open.size)
  {
    forall id ensures SaysExactly(memory, ex.book, Outcome(ex, lost).book, changes, id) {
      OrdersOnlyShrink(ex, lost, id);
      ResyncSaysSince(memory, ex.book, Outcome(ex, lost).book, changes, id);
    }
    ResyncedMemory(memory, Outcome(ex, lost).book, changes);
  }

  // ---------------------------------------------------------------------------
  // A lane's whole life
  // ---------------------------------------------------------------------------

  /** The first observation: the ladder is remembered, and nothing is emitted. */
  function Baseline(orders: seq<OpenOrder>): map<OrderId, RestingOrder> {
    if orders == [] then map[]
    else
      var before, last := Baseline(orders[..|orders| - 1]), orders[|orders| - 1];
      before[last.orderId := Coalesced(Look(before, last.orderId), FromOpenOrder(last))]
  }

  lemma {:induction false} BaselineAt(orders: seq<OpenOrder>, id: OrderId)
    ensures CoreAt(Baseline(orders), id) ==
            if id in Book(orders) then Some(FromOpenOrder(Book(orders)[id]).core) else None
  {
    if orders != [] { BaselineAt(orders[..|orders| - 1], id); }
  }

  lemma BaselineAgrees(orders: seq<OpenOrder>, ex: Exchange)
    requires Sound(ex) && Book(orders) == OpenBook(ex.book)
    ensures Agrees(Baseline(orders), ex.book) && Behind(Baseline(orders), ex)
  {
    forall id
      ensures CoreAt(Baseline(orders), id) ==
              if id in ex.book then Some(CoreOf(ex.book[id]).(originalSize := ex.book[id].open.size)) else None
    {
      BaselineAt(orders, id);
      assert id in Book(orders) <==> id in OpenBook(ex.book);
    }
    forall id ensures id in Baseline(orders) <==> CoreAt(Baseline(orders), id).Some? { }
  }

  /** A connection's life: what changed between the read it opened with and its subscription
      taking effect, what it then streamed, what was lost once it dropped, and the resync
      the next one opens with. */
  datatype Connection =
    Connection(unheard: seq<Action>, streamed: seq<Action>, lost: seq<Action>, resync: seq<OrderChange>)

  predicate Happens(ex: Exchange, c: Connection) {
    && AllPossible(ex, c.unheard)
    && AllPossible(Outcome(ex, c.unheard), c.streamed)
    && AllPossible(Outcome(Outcome(ex, c.unheard), c.streamed), c.lost)
  }

  /** The exchange as the subscription takes effect, as the connection drops, and at the next
      read. */
  function Subscribed(ex: Exchange, c: Connection): Exchange
    requires Happens(ex, c)
  {
    Outcome(ex, c.unheard)
  }

  function Dropped(ex: Exchange, c: Connection): Exchange
    requires Happens(ex, c)
  {
    Outcome(Subscribed(ex, c), c.streamed)
  }

  function NextRead(ex: Exchange, c: Connection): Exchange
    requires Happens(ex, c)
  {
    Outcome(Dropped(ex, c), c.lost)
  }

  /** Memory as the connection drops: it heard the stream alone. */
  function Heard(memory: map<OrderId, RestingOrder>, ex: Exchange, c: Connection): map<OrderId, RestingOrder>
    requires Happens(ex, c)
  {
    StreamedRun(memory, Subscribed(ex, c), c.streamed)
  }

  ghost predicate Follows(memory: map<OrderId, RestingOrder>, ex: Exchange, c: Connection) {
    Happens(ex, c) && Resyncs(Heard(memory, ex, c), NextRead(ex, c).book, c.resync)
  }

  function MemoryAfter(memory: map<OrderId, RestingOrder>, ex: Exchange, c: Connection): map<OrderId, RestingOrder>
    requires Happens(ex, c)
  {
    AllApplied(Heard(memory, ex, c), c.resync, Coalesce())
  }

  /** Memory and exchange through any number of connections; None when one of them could
      not have happened. */
  ghost function Life(memory: map<OrderId, RestingOrder>, ex: Exchange, life: seq<Connection>):
    Option<(map<OrderId, RestingOrder>, Exchange)>
  {
    if life == [] then Some((memory, ex))
    else
      var before, last := Life(memory, ex, life[..|life| - 1]), life[|life| - 1];
      if before.None? || !Follows(before.value.0, before.value.1, last) then None
      else Some((MemoryAfter(before.value.0, before.value.1, last), NextRead(before.value.1, last)))
  }

  /** The order rests as it did, or still does not. */
  predicate Unmoved(before: map<OrderId, BookOrder>, after: map<OrderId, BookOrder>, id: OrderId) {
    (id in before <==> id in after) && (id in before ==> before[id].open.size == after[id].open.size)
  }

  /** While a connection streams, memory is true of an order if and only if the window left
      that order alone or the stream has said anything about it since. */
  lemma TrueIffUnmovedOrHeardOf(memory: map<OrderId, RestingOrder>, ex: Exchange, unheard: seq<Action>,
      streamed: seq<Action>, id: OrderId)
    requires Sound(ex) && Agrees(memory, ex.book)
    requires AllPossible(ex, unheard) && AllPossible(Outcome(ex, unheard), streamed)
    ensures var subscribed := Outcome(ex, unheard);
            AgreesAt(StreamedRun(memory, subscribed, streamed), Outcome(subscribed, streamed).book, id) <==>
              Unmoved(ex.book, subscribed.book, id) || Touches(streamed, id)
  {
    RunsStaySound(ex, unheard);
    OrdersOnlyShrink(ex, unheard, id);
    StreamTrueIffWasOrTouched(memory, Outcome(ex, unheard), streamed, id);
  }

  lemma {:induction false} RunsStaySound(ex: Exchange, run: seq<Action>)
    requires Sound(ex) && AllPossible(ex, run)
    ensures Sound(Outcome(ex, run))
    decreases run
  {
    if run != [] {
      OneActionShrinks(ex, run[0], IdOf(run[0]));
      RunsStaySound(After(ex, run[0]), run[1..]);
    }
  }

  /** Updates nobody hears leave memory behind. */
  lemma SilenceStaysBehind(memory: map<OrderId, RestingOrder>, ex: Exchange, run: seq<Action>)
    requires Sound(ex) && AllPossible(ex, run) && Behind(memory, ex)
    ensures Behind(memory, Outcome(ex, run))
  {
    forall id | id in memory ensures BehindAt(memory[id].core, Outcome(ex, run), id) {
      OrdersOnlyShrink(ex, run, id);
      UsedStaysUsed(ex, run, id);
    }
  }

  lemma {:induction false} UsedStaysUsed(ex: Exchange, run: seq<Action>, id: OrderId)
    requires Sound(ex) && AllPossible(ex, run) && id in ex.used
    ensures id in Outcome(ex, run).used
    decreases run
  {
    if run != [] {
      OneActionShrinks(ex, run[0], id);
      UsedStaysUsed(After(ex, run[0]), run[1..], id);
    }
  }

  lemma StreamStepStaysBehind(memory: map<OrderId, RestingOrder>, ex: Exchange, a: Action)
    requires Sound(ex) && Possible(ex, a) && Behind(memory, ex)
    ensures Sound(After(ex, a)) && Behind(Streamed(memory, Report(ex, a)), After(ex, a))
  {
    var u, next := Report(ex, a), Streamed(memory, Report(ex, a));
    var keeps := StreamKeeps(Look(memory, IdOf(a)), u);
    assert keeps.Some? <==> IdOf(a) in After(ex, a).book;
    assert keeps.Some? ==> keeps.value.core == CoreOf(After(ex, a).book[IdOf(a)]);
    OneActionShrinks(ex, a, IdOf(a));
    forall id | id in next ensures BehindAt(next[id].core, After(ex, a), id) {
      OneActionShrinks(ex, a, id);
      assert id != IdOf(a) ==> id in memory && next[id] == memory[id];
    }
  }

  /** So do streamed ones, at worst. */
  lemma {:induction false} StreamStaysBehind(memory: map<OrderId, RestingOrder>, ex: Exchange, run: seq<Action>)
    requires Sound(ex) && AllPossible(ex, run) && Behind(memory, ex)
    ensures Behind(StreamedRun(memory, ex, run), Outcome(ex, run))
    decreases run
  {
    if run != [] {
      StreamStepStaysBehind(memory, ex, run[0]);
      StreamStaysBehind(Streamed(memory, Report(ex, run[0])), After(ex, run[0]), run[1..]);
    }
  }

  /** A resync makes it true. */
  lemma ResyncCatchesUp(memory: map<OrderId, RestingOrder>, ex: Exchange, changes: seq<OrderChange>)
    requires Sound(ex) && Behind(memory, ex) && Resyncs(memory, ex.book, changes)
    ensures Agrees(AllApplied(memory, changes, Coalesce()), ex.book)
    ensures Behind(AllApplied(memory, changes, Coalesce()), ex)
  {
    ResyncedMemory(memory, ex.book, changes);
  }

  /** A resync is silent if and only if memory was true. */
  lemma ResyncSilentIffTrue(memory: map<OrderId, RestingOrder>, ex: Exchange, changes: seq<OrderChange>)
    requires Behind(memory, ex) && Resyncs(memory, ex.book, changes)
    ensures NewsOf(changes) == [] <==> Agrees(memory, ex.book)
  {
    if Agrees(memory, ex.book) { AgreementIsQuiet(memory, ex.book, changes); }
    if NewsOf(changes) == [] {
      forall id ensures AgreesAt(memory, ex.book, id) {
        ResyncNews(memory, ex.book, changes, id);
        assert id in memory ==> BehindAt(memory[id].core, ex, id);
      }
      AgreesEverywhere(memory, ex.book);
    }
  }

  /** The book as memory last heard of an order: as the connection dropped if its stream said
      anything of it, and otherwise at the read the connection opened with. */
  function LastHeardOf(ex: Exchange, c: Connection, id: OrderId): map<OrderId, BookOrder>
    requires Happens(ex, c)
  {
    if Touches(c.streamed, id) then Dropped(ex, c).book else ex.book
  }

  lemma {:induction false} UntouchedIsKept(memory: map<OrderId, RestingOrder>, ex: Exchange, run: seq<Action>,
      id: OrderId)
    requires Sound(ex) && AllPossible(ex, run) && !Touches(run, id)
    ensures CoreAt(StreamedRun(memory, ex, run), id) == CoreAt(memory, id)
    decreases run
  {
    if run != [] {
      TouchesFirstOrRest(run, id);
      OneActionShrinks(ex, run[0], id);
      assert Report(ex, run[0]).orderId == IdOf(run[0]);
      UntouchedIsKept(Streamed(memory, Report(ex, run[0])), After(ex, run[0]), run[1..], id);
    }
  }

  lemma ShrinksThroughout(ex: Exchange, c: Connection, id: OrderId)
    requires Sound(ex) && Happens(ex, c)
    ensures var before, after := LastHeardOf(ex, c, id), NextRead(ex, c).book;
            id in before && id in after ==> ShrunkFrom(before[id], after[id])
  {
    RunsStaySound(ex, c.unheard);
    RunsStaySound(Subscribed(ex, c), c.streamed);
    OrdersOnlyShrink(ex, c.unheard, id);
    OrdersOnlyShrink(Subscribed(ex, c), c.streamed, id);
    OrdersOnlyShrink(Dropped(ex, c), c.lost, id);
    if id in ex.book && id in NextRead(ex, c).book {
      UsedStaysUsed(ex, c.unheard, id);
      UsedStaysUsed(Subscribed(ex, c), c.streamed, id);
    }
  }

  /** What the resync after a connection says of one order: exactly what became of it since
      memory last heard of it. */
  lemma ConnectionSaysExactly(memory: map<OrderId, RestingOrder>, ex: Exchange, c: Connection, id: OrderId)
    requires Sound(ex) && Agrees(memory, ex.book) && Follows(memory, ex, c)
    ensures SaysExactly(Heard(memory, ex, c), LastHeardOf(ex, c, id), NextRead(ex, c).book, c.resync, id)
  {
    var heard := Heard(memory, ex, c);
    RunsStaySound(ex, c.unheard);
    if Touches(c.streamed, id) {
      StreamTrueIffWasOrTouched(memory, Subscribed(ex, c), c.streamed, id);
    } else {
      UntouchedIsKept(memory, Subscribed(ex, c), c.streamed, id);
      assert AgreesAt(memory, ex.book, id);
    }
    ShrinksThroughout(ex, c, id);
    ResyncSaysSince(heard, LastHeardOf(ex, c, id), NextRead(ex, c).book, c.resync, id);
  }

  /** One connection, whatever its window swallowed: the next resync makes memory true
      again. */
  lemma ConnectionEndsTrue(memory: map<OrderId, RestingOrder>, ex: Exchange, c: Connection)
    requires Sound(ex) && Behind(memory, ex) && Follows(memory, ex, c)
    ensures Behind(Heard(memory, ex, c), Dropped(ex, c)) && Behind(Heard(memory, ex, c), NextRead(ex, c))
    ensures Sound(NextRead(ex, c)) && Agrees(MemoryAfter(memory, ex, c), NextRead(ex, c).book)
    ensures Behind(MemoryAfter(memory, ex, c), NextRead(ex, c))
  {
    RunsStaySound(ex, c.unheard);
    RunsStaySound(Subscribed(ex, c), c.streamed);
    RunsStaySound(Dropped(ex, c), c.lost);
    SilenceStaysBehind(memory, ex, c.unheard);
    StreamStaysBehind(memory, Subscribed(ex, c), c.streamed);
    SilenceStaysBehind(Heard(memory, ex, c), Dropped(ex, c), c.lost);
    ResyncCatchesUp(Heard(memory, ex, c), NextRead(ex, c), c.resync);
  }

  /** A lane's whole life. From its baseline, through any number of windows, streams, gaps and
      resyncs, memory equals the exchange's book in ids and sizes right after every resync,
      whatever a window swallowed before it; in between memory is only ever behind. */
  lemma {:induction false} LifeStaysTrue(orders: seq<OpenOrder>, ex: Exchange, life: seq<Connection>)
    requires Sound(ex) && Book(orders) == OpenBook(ex.book) && Life(Baseline(orders), ex, life).Some?
    ensures var end := Life(Baseline(orders), ex, life).value;
            Sound(end.1) && Agrees(end.0, end.1.book) && Behind(end.0, end.1)
  {
    if life == [] {
      BaselineAgrees(orders, ex);
    } else {
      var before := life[..|life| - 1];
      LifeStaysTrue(orders, ex, before);
      var reached := Life(Baseline(orders), ex, before).value;
      ConnectionEndsTrue(reached.0, reached.1, life[|life| - 1]);
    }
  }

  /** And every resync of that life, each being the last of its own prefix, says of each order
      exactly what became of it since memory last heard of it; across a gap that lost nothing
      it is silent if and only if every order its window moved was heard of again. */
  lemma EveryResyncIsExact(orders: seq<OpenOrder>, ex: Exchange, life: seq<Connection>)
    requires Sound(ex) && Book(orders) == OpenBook(ex.book)
    requires life != [] && Life(Baseline(orders), ex, life).Some?
    ensures var before, last := Life(Baseline(orders), ex, life[..|life| - 1]).value, life[|life| - 1];
            var heard, after := Heard(before.0, before.1, last), NextRead(before.1, last).book;
            && (forall id :: SaysExactly(heard, LastHeardOf(before.1, last, id), after, last.resync, id))
            && (last.lost == [] ==> (NewsOf(last.resync) == [] <==> WindowHeals(before.1, last)))
  {
    var prefix, last := life[..|life| - 1], life[|life| - 1];
    LifeStaysTrue(orders, ex, prefix);
    var before := Life(Baseline(orders), ex, prefix).value;
    forall id ensures SaysExactly(Heard(before.0, before.1, last), LastHeardOf(before.1, last, id),
                                  NextRead(before.1, last).book, last.resync, id)
    {
      ConnectionSaysExactly(before.0, before.1, last, id);
    }
    if last.lost == [] { LosslessGapIsSilentIffHealed(before.0, before.1, last); }
  }

  /** Every order the window moved was heard of again. */
  ghost predicate WindowHeals(ex: Exchange, c: Connection)
    requires Happens(ex, c)
  {
    forall id :: HealsAt(ex, c, id)
  }

  predicate HealsAt(ex: Exchange, c: Connection, id: OrderId)
    requires Happens(ex, c)
  {
    Unmoved(ex.book, Subscribed(ex, c).book, id) || Touches(c.streamed, id)
  }

  lemma LosslessGapIsSilentIffHealed(memory: map<OrderId, RestingOrder>, ex: Exchange, c: Connection)
    requires Sound(ex) && Agrees(memory, ex.book) && Behind(memory, ex) && Follows(memory, ex, c) && c.lost == []
    ensures NewsOf(c.resync) == [] <==> WindowHeals(ex, c)
  {
    var heard, end := Heard(memory, ex, c), NextRead(ex, c);
    ConnectionEndsTrue(memory, ex, c);
    ResyncSilentIffTrue(heard, end, c.resync);
    AgreesEverywhere(heard, end.book);
    forall id ensures AgreesAt(heard, end.book, id) <==> HealsAt(ex, c, id) {
      TrueIffUnmovedOrHeardOf(memory, ex, c.unheard, c.streamed, id);
    }
  }

  /** A departure the window swallows is never heard of again: memory holds the order for the
      whole connection, and the next resync says it is gone, however little its own gap
      lost. */
  lemma SwallowedDepartureLingers(memory: map<OrderId, RestingOrder>, ex: Exchange, c: Connection, id: OrderId)
    requires Sound(ex) && Agrees(memory, ex.book) && Follows(memory, ex, c)
    requires id in ex.book && id !in Subscribed(ex, c).book
    ensures id in Heard(memory, ex, c) && id !in Dropped(ex, c).book
    ensures |About(NewsOf(c.resync), id)| == 1 && About(NewsOf(c.resync), id)[0].kind == Gone
  {
    RunsStaySound(ex, c.unheard);
    UsedStaysUsed(ex, c.unheard, id);
    DepartedIsUntouched(Subscribed(ex, c), c.streamed, id);
    UntouchedIsKept(memory, Subscribed(ex, c), c.streamed, id);
    assert id in memory && CoreAt(memory, id).Some?;
    RunsStaySound(Subscribed(ex, c), c.streamed);
    OrdersOnlyShrink(Subscribed(ex, c), c.streamed, id);
    UsedStaysUsed(Subscribed(ex, c), c.streamed, id);
    OrdersOnlyShrink(Dropped(ex, c), c.lost, id);
    ConnectionSaysExactly(memory, ex, c, id);
  }

  lemma {:induction false} DepartedIsUntouched(ex: Exchange, run: seq<Action>, id: OrderId)
    requires Sound(ex) && AllPossible(ex, run) && id in ex.used && id !in ex.book
    ensures !Touches(run, id)
    decreases run
  {
    if run != [] {
      OneActionShrinks(ex, run[0], id);
      DepartedIsUntouched(After(ex, run[0]), run[1..], id);
      TouchesFirstOrRest(run, id);
    }
  }

  // ---------------------------------------------------------------------------
  // Frames
  // ---------------------------------------------------------------------------

  /** A frame as the lane applies it: every update classified against the memory read once
      at its start, then the decisions written in order. */
  function FrameChanges(memory: map<OrderId, RestingOrder>, updates: seq<OrderUpdate>): seq<OrderChange> {
    if updates == [] then []
    else
      var last := updates[|updates| - 1];
      FrameChanges(memory, updates[..|updates| - 1]) + [StreamChange(Look(memory, last.orderId), last)]
  }

  function FrameApplied(memory: map<OrderId, RestingOrder>, updates: seq<OrderUpdate>): map<OrderId, RestingOrder> {
    AllApplied(memory, FrameChanges(memory, updates), Coalesce())
  }

  /** The same updates applied one at a time. */
  function OneByOne(memory: map<OrderId, RestingOrder>, updates: seq<OrderUpdate>): map<OrderId, RestingOrder> {
    if updates == [] then memory
    else Streamed(OneByOne(memory, updates[..|updates| - 1]), updates[|updates| - 1])
  }

  function CoreAt(memory: map<OrderId, RestingOrder>, id: OrderId): Option<Core> {
    if id in memory then Some(memory[id].core) else None
  }

  predicate Recognised(u: OrderUpdate) { Classify(u.status) != Other }

  /** What a recognised update leaves of its order, whatever memory held. */
  function Leaves(u: OrderUpdate): Option<Core>
    requires Recognised(u)
  {
    match Classify(u.status)
    case Filled => if u.size > 0.0 then Some(FromUpdate(u).core) else None
    case Canceled => None
    case Rejected => None
    case _ => Some(FromUpdate(u).core)
  }

  /** The last update about `id`, and the last recognised one. */
  function LastAbout(updates: seq<OrderUpdate>, id: OrderId): Option<OrderUpdate> {
    if updates == [] then None
    else if updates[|updates| - 1].orderId == id then Some(updates[|updates| - 1])
    else LastAbout(updates[..|updates| - 1], id)
  }

  function LastRecognised(updates: seq<OrderUpdate>, id: OrderId): (u: Option<OrderUpdate>)
    ensures u.Some? ==> Recognised(u.value)
  {
    if updates == [] then None
    else if updates[|updates| - 1].orderId == id && Recognised(updates[|updates| - 1]) then Some(updates[|updates| - 1])
    else LastRecognised(updates[..|updates| - 1], id)
  }

  /** One at a time, an order ends as its last recognised update left it. */
  lemma {:induction false} OneByOneAt(memory: map<OrderId, RestingOrder>, updates: seq<OrderUpdate>, id: OrderId)
    ensures CoreAt(OneByOne(memory, updates), id) ==
            var last := LastRecognised(updates, id); if last.Some? then Leaves(last.value) else CoreAt(memory, id)
  {
    if updates != [] {
      OneByOneAt(memory, updates[..|updates| - 1], id);
    }
  }

  /** As a frame, it ends as its last update left it, and an unrecognised one leaves what
      memory held before the frame. */
  lemma {:induction false} FrameAt(memory: map<OrderId, RestingOrder>, updates: seq<OrderUpdate>, id: OrderId)
    ensures CoreAt(FrameApplied(memory, updates), id) ==
            var last := LastAbout(updates, id);
            if last.Some? && Recognised(last.value) then Leaves(last.value) else CoreAt(memory, id)
  {
    if updates != [] {
      var before, last := updates[..|updates| - 1], updates[|updates| - 1];
      FrameAt(memory, before, id);
      var changes := FrameChanges(memory, updates);
      assert changes[..|changes| - 1] == FrameChanges(memory, before);
    }
  }

  /** The caller's check: no order's unrecognised update closes a frame that also carried a
      recognised one about it. */
  predicate FrameIsSafe(updates: seq<OrderUpdate>) {
    forall i :: 0 <= i < |updates| ==>
      var id := updates[i].orderId;
      LastAbout(updates, id).Some? && !Recognised(LastAbout(updates, id).value) ==> LastRecognised(updates, id).None?
  }

  ghost predicate SameBook(a: map<OrderId, RestingOrder>, b: map<OrderId, RestingOrder>) {
    forall id :: CoreAt(a, id) == CoreAt(b, id)
  }

  lemma {:induction false} LastAboutIsThere(updates: seq<OrderUpdate>, id: OrderId)
    ensures LastAbout(updates, id).Some? <==> exists i :: 0 <= i < |updates| && updates[i].orderId == id
    ensures LastAbout(updates, id).Some? && Recognised(LastAbout(updates, id).value) ==>
              LastRecognised(updates, id) == LastAbout(updates, id)
    ensures LastRecognised(updates, id).Some? ==> LastAbout(updates, id).Some?
  {
    if updates != [] {
      LastAboutIsThere(updates[..|updates| - 1], id);
    }
  }

  /** Reading memory once per frame is right exactly for the safe frames: one applies as
      its updates in turn would, from every memory, if and only if it is safe. In an unsafe
      one an unrecognised status undoes what an earlier update of the same frame did. */
  lemma FrameMatchesStreamIffSafe(updates: seq<OrderUpdate>)
    ensures FrameIsSafe(updates) <==>
            forall memory: map<OrderId, RestingOrder> ::
                SameBook(FrameApplied(memory, updates), OneByOne(memory, updates))
  {
    if FrameIsSafe(updates) {
      forall memory: map<OrderId, RestingOrder>, id
        ensures CoreAt(FrameApplied(memory, updates), id) == CoreAt(OneByOne(memory, updates), id)
      {
        FrameAt(memory, updates, id);
        OneByOneAt(memory, updates, id);
        LastAboutIsThere(updates, id);
      }
    } else {
      var i :| 0 <= i < |updates|
               && var id := updates[i].orderId;
                  LastAbout(updates, id).Some? && !Recognised(LastAbout(updates, id).value)
                      && LastRecognised(updates, id).Some?;
      UnsafeFrameDiffers(updates, updates[i].orderId);
    }
  }

  lemma UnsafeFrameDiffers(updates: seq<OrderUpdate>, id: OrderId)
    requires LastAbout(updates, id).Some? && !Recognised(LastAbout(updates, id).value)
    requires LastRecognised(updates, id).Some?
    ensures exists memory: map<OrderId, RestingOrder> ::
        !SameBook(FrameApplied(memory, updates), OneByOne(memory, updates))
  {
    var u := LastRecognised(updates, id).value;
    var memory: map<OrderId, RestingOrder> := if Leaves(u).Some? then map[] else map[id := FromUpdate(u)];
    FrameAt(memory, updates, id);
    OneByOneAt(memory, updates, id);
    assert CoreAt(FrameApplied(memory, updates), id) != CoreAt(OneByOne(memory, updates), id);
  }
}
