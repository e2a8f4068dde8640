/** The matching rules over one plain value: each side of the book is a single sequence of resting
    orders in priority order (best price first, oldest first within a price). Both books of the
    repository are proved to compute exactly these functions. */
module BookSpec {
  import opened Types

  datatype Order = Order(id: nat, qty: nat, owner: nat, price: int)
  datatype Book = Book(bids: seq<Order>, asks: seq<Order>)
  datatype Outcome = Outcome(book: Book, events: seq<Event>)

  /** The incoming side of a sweep. */
  datatype Taker = Taker(symbol: nat, id: nat, owner: nat, side: Side, limit: int, stp: Stp)
  datatype SweepResult = SweepResult(queue: seq<Order>, left: nat, stop: bool, events: seq<Event>)

  const EmptyBook := Book([], [])

  function Resting(b: Book, side: Side): seq<Order> {
    if side == Buy then b.bids else b.asks
  }

  function WithResting(b: Book, side: Side, q: seq<Order>): Book {
    if side == Buy then b.(bids := q) else b.(asks := q)
  }

  /** Is price p strictly better than q for an order resting on `side`? */
  predicate Better(side: Side, p: int, q: int) {
    if side == Buy then p > q else p < q
  }

  /** May an incoming order of `side`, limited at `limit`, trade at `price`? */
  predicate Reaches(side: Side, limit: int, price: int) {
    if side == Buy then price <= limit else price >= limit
  }

  predicate Crosses(b: Book, side: Side, limit: int) {
    var q := Resting(b, Opposite(side));
    q != [] && Reaches(side, limit, q[0].price)
  }

  /** Matching: the incoming quantity consumes the opposite queue from its head. */
  function Sweep(q: seq<Order>, t: Taker, qty: nat): SweepResult
    decreases |q|, 1
  {
    if qty == 0 || q == [] || !Reaches(t.side, t.limit, q[0].price) then
      SweepResult(q, qty, false, [])
    else
      var o := q[0];
      if t.stp != NoStp && o.owner == t.owner then
        SweepSelf(q, t, qty)
      else if o.qty > qty then
        SweepResult([o.(qty := o.qty - qty)] + q[1..], 0, false,
                    [TradeEvent(t.symbol, t.id, o.id, t.side, o.price, qty, o.qty - qty)])
      else
        var r := Sweep(q[1..], t, qty - o.qty);
        r.(events := [TradeEvent(t.symbol, t.id, o.id, t.side, o.price, o.qty, 0)] + r.events)
  }

  /** One step of a sweep whose best opposite order belongs to the incoming order's owner. */
  function SweepSelf(q: seq<Order>, t: Taker, qty: nat): SweepResult
    requires q != [] && qty > 0
    decreases |q|, 0
  {
    var o := q[0];
    var maker := Opposite(t.side);
    if t.stp == CancelIncoming then
      SweepResult(q, qty, true, [])
    else if t.stp == DecrementCancel && o.qty > qty then
      SweepResult([o.(qty := o.qty - qty)] + q[1..], qty, true,
                  [StpDecrementEvent(t.symbol, o.id, maker, o.price, o.qty - qty)])
    else
      var gone := CanceledEvent(t.symbol, o.id, maker, o.price, o.qty, SelfTrade);
      if t.stp == DecrementCancel && o.qty == qty then
        SweepResult(q[1..], qty, true, [gone])
      else if t.stp == DecrementCancel then
        var r := Sweep(q[1..], t, qty - o.qty);
        r.(events := [gone, StpDecrementEvent(t.symbol, t.id, t.side, t.limit, qty - o.qty)] + r.events)
      else
        var r := Sweep(q[1..], t, qty);
        r.(events := [gone] + r.events)
  }

  /** Fill-or-kill's read-only walk, order by order. */
  predicate Fillable(q: seq<Order>, t: Taker, need: nat) {
    if q == [] || !Reaches(t.side, t.limit, q[0].price) then false
    else
      var o := q[0];
      if t.stp != NoStp && o.owner == t.owner then
        if t.stp == CancelIncoming then false
        else if t.stp == DecrementCancel then o.qty < need && Fillable(q[1..], t, need - o.qty)
        else Fillable(q[1..], t, need)
      else o.qty >= need || Fillable(q[1..], t, need - o.qty)
  }

  /** Puts an order behind every order of the same or a better price. */
  function Insert(q: seq<Order>, side: Side, o: Order): seq<Order> {
    if q == [] then [o]
    else if Better(side, o.price, q[0].price) then [o] + q
    else [q[0]] + Insert(q[1..], side, o)
  }

  predicate HasId(q: seq<Order>, id: nat) {
    exists k :: 0 <= k < |q| && q[k].id == id
  }

  predicate Contains(b: Book, id: nat) {
    HasId(b.bids, id) || HasId(b.asks, id)
  }

  /** The position of an id in a queue, or the queue's length. */
  function Find(q: seq<Order>, id: nat): (k: nat)
    ensures k <= |q|
    ensures k < |q| ==> q[k].id == id
    ensures forall i :: 0 <= i < k ==> q[i].id != id
  {
    if q == [] || q[0].id == id then 0 else 1 + Find(q[1..], id)
  }

  function SideOf(b: Book, id: nat): Side {
    if HasId(b.bids, id) then Buy else Sell
  }

  function RemoveAt(q: seq<Order>, k: nat): seq<Order>
    requires k < |q|
  {
    q[..k] + q[k + 1..]
  }

  /** What is left of an order after its sweep comes to rest, or is canceled when no slot is free. */
  function Rest(cfg: Config, b: Book, side: Side, o: Order): Outcome {
    if |b.bids| + |b.asks| >= cfg.maxOrders then
      Outcome(b, [CanceledEvent(cfg.symbol, o.id, side, o.price, o.qty, BookFull)])
    else
      Outcome(WithResting(b, side, Insert(Resting(b, side), side, o)), [])
  }

  /** Sweep the opposite side, then cancel or rest the remainder. */
  function Execute(cfg: Config, b: Book, t: Taker, px: int, qty: nat, mayRest: bool): Outcome {
    var r := Sweep(Resting(b, Opposite(t.side)), t, qty);
    var b1 := WithResting(b, Opposite(t.side), r.queue);
    if r.left == 0 then
      Outcome(b1, r.events)
    else if r.stop then
      Outcome(b1, r.events + [CanceledEvent(cfg.symbol, t.id, t.side, px, r.left, SelfTrade)])
    else if !mayRest then
      Outcome(b1, r.events + [CanceledEvent(cfg.symbol, t.id, t.side, px, r.left, IocExpired)])
    else
      var z := Rest(cfg, b1, t.side, Order(t.id, r.left, t.owner, t.limit));
      Outcome(z.book, r.events + z.events)
  }

  function LimitOf(cfg: Config, c: Command): int {
    if c.ordType == Limit then c.price
    else if c.side == Buy then MaxPrice(cfg)
    else cfg.minPrice
  }

  predicate InBand(cfg: Config, price: int) {
    cfg.minPrice <= price <= MaxPrice(cfg)
  }

  function AddTaker(cfg: Config, c: Command): Taker {
    Taker(cfg.symbol, c.orderId, c.owner, c.side, LimitOf(cfg, c), EffectiveStp(c.flags, cfg.stp))
  }

  /** The validation a new order passes through, in order; NoReason means accepted. */
  function AddReject(cfg: Config, b: Book, c: Command): Reason {
    if c.orderId == 0 then InvalidOrderId
    else if c.qty == 0 then InvalidQty
    else if c.ordType == Limit && !InBand(cfg, c.price) then InvalidPrice
    else if Contains(b, c.orderId) then DuplicateOrderId
    else if PostOnly(c.flags) && Crosses(b, c.side, LimitOf(cfg, c)) then WouldCross
    else NoReason
  }

  function Add(cfg: Config, b: Book, c: Command): Outcome {
    var bad := AddReject(cfg, b, c);
    if bad != NoReason then
      Outcome(b, [RejectedEvent(c, bad)])
    else
      var px := if c.ordType == Market then 0 else c.price;
      var t := AddTaker(cfg, c);
      var accepted := AcceptedEvent(cfg.symbol, c.orderId, c.side, px, c.qty);
      if c.tif == Fok && !Fillable(Resting(b, Opposite(c.side)), t, c.qty) then
        Outcome(b, [accepted, CanceledEvent(cfg.symbol, c.orderId, c.side, px, c.qty, FokUnfilled)])
      else
        var z := Execute(cfg, b, t, px, c.qty, c.ordType == Limit && c.tif == Day);
        Outcome(z.book, [accepted] + z.events)
  }

  function CancelOrder(cfg: Config, b: Book, c: Command): Outcome {
    if !Contains(b, c.orderId) then
      Outcome(b, [RejectedEvent(c, UnknownOrder)])
    else
      var side := SideOf(b, c.orderId);
      var q := Resting(b, side);
      var k := Find(q, c.orderId);
      FindHit(q, c.orderId);
      Outcome(WithResting(b, side, RemoveAt(q, k)),
              [CanceledEvent(cfg.symbol, c.orderId, side, q[k].price, q[k].qty, UserCanceled)])
  }

  function ModifyReject(cfg: Config, b: Book, c: Command): Reason {
    if c.qty == 0 then InvalidQty
    else if !Contains(b, c.orderId) then UnknownOrder
    else if !InBand(cfg, c.price) then InvalidPrice
    else NoReason
  }

  /** Shrinking at the same price keeps the place in the queue; any other change re-enters, under the
      book's own self-trade mode. */
  function ModifyOrder(cfg: Config, b: Book, c: Command): Outcome {
    var bad := ModifyReject(cfg, b, c);
    if bad != NoReason then
      Outcome(b, [RejectedEvent(c, bad)])
    else
      var side := SideOf(b, c.orderId);
      var q := Resting(b, side);
      var k := Find(q, c.orderId);
      FindHit(q, c.orderId);
      var modified := ModifiedEvent(cfg.symbol, c.orderId, side, c.price, c.qty);
      if c.price == q[k].price && c.qty <= q[k].qty then
        Outcome(WithResting(b, side, q[k := q[k].(qty := c.qty)]), [modified])
      else
        var t := Taker(cfg.symbol, c.orderId, q[k].owner, side, c.price, cfg.stp);
        var z := Execute(cfg, WithResting(b, side, RemoveAt(q, k)), t, c.price, c.qty, true);
        Outcome(z.book, [modified] + z.events)
  }

  function Apply(cfg: Config, b: Book, c: Command): Outcome {
    match c.kind
    case NewOrder => Add(cfg, b, c)
    case Cancel => CancelOrder(cfg, b, c)
    case Modify => ModifyOrder(cfg, b, c)
  }

  /** A whole command stream from an empty book: the final book and, command by command, the events. */
  datatype Run = Run(book: Book, events: seq<seq<Event>>)

  function RunAll(cfg: Config, cmds: seq<Command>): (r: Run)
    ensures |r.events| == |cmds|
  {
    if cmds == [] then Run(EmptyBook, [])
    else
      var before := RunAll(cfg, cmds[..|cmds| - 1]);
      var z := Apply(cfg, before.book, cmds[|cmds| - 1]);
      Run(z.book, before.events + [z.events])
  }

  lemma FindHit(q: seq<Order>, id: nat)
    ensures HasId(q, id) <==> Find(q, id) < |q|
  {
  }

  // What every reachable book satisfies.

  predicate Sorted(side: Side, q: seq<Order>) {
    forall i, j :: 0 <= i < j < |q| ==> !Better(side, q[j].price, q[i].price)
  }

  predicate UniqueIds(q: seq<Order>) {
    forall i, j :: 0 <= i < j < |q| ==> q[i].id != q[j].id
  }

  predicate OrdersOk(cfg: Config, q: seq<Order>) {
    forall k :: 0 <= k < |q| ==> q[k].id != 0 && q[k].qty > 0 && InBand(cfg, q[k].price)
  }

  predicate SideOk(cfg: Config, side: Side, q: seq<Order>) {
    Sorted(side, q) && UniqueIds(q) && OrdersOk(cfg, q)
  }

  predicate DisjointIds(p: seq<Order>, q: seq<Order>) {
    forall i, j :: 0 <= i < |p| && 0 <= j < |q| ==> p[i].id != q[j].id
  }

  predicate Uncrossed(b: Book) {
    b.bids != [] && b.asks != [] ==> b.bids[0].price < b.asks[0].price
  }

  predicate BookOk(cfg: Config, b: Book) {
    && SideOk(cfg, Buy, b.bids)
    && SideOk(cfg, Sell, b.asks)
    && DisjointIds(b.bids, b.asks)
    && Uncrossed(b)
    && |b.bids| + |b.asks| <= cfg.maxOrders
  }

  function TotalQty(q: seq<Order>): nat {
    if q == [] then 0 else q[0].qty + TotalQty(q[1..])
  }

  function BookQty(b: Book): nat {
    TotalQty(b.bids) + TotalQty(b.asks)
  }
}
