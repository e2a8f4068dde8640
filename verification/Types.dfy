/** The value types every component shares: commands in, events out. */
module Types {

  /** The slot value that means "no slot". */
  const NIL: nat := 0xFFFF_FFFF
  /** Quantities, level totals and ids are 64-bit words. */
  const U64: nat := 0x1_0000_0000_0000_0000

  datatype Option<+T> = None | Some(value: T)

  datatype Side = Buy | Sell
  datatype OrdType = Limit | Market
  datatype Tif = Day | Ioc | Fok
  datatype MsgType = NewOrder | Cancel | Modify

  /** Self-trade prevention: what happens when an order would match one of its own owner. */
  datatype Stp = NoStp | CancelResting | CancelIncoming | DecrementCancel

  datatype EventType = Accepted | Rejected | Trade | Canceled | Modified

  datatype Reason =
    | NoReason
    | InvalidOrderId | InvalidQty | InvalidPrice | DuplicateOrderId | UnknownOrder | UnknownSymbol
    | WouldCross | BookFull | UserCanceled | IocExpired | FokUnfilled | SelfTrade
    | RiskMaxQty | RiskMaxNotional | RiskCollar | RiskRateLimit | RiskHalted | UnknownOwner

  datatype Command = Command(
    kind: MsgType, orderId: nat, price: int, qty: nat, owner: nat, symbol: nat,
    side: Side, ordType: OrdType, tif: Tif, flags: nat, seq_: nat, ts: nat)

  /** An execution event, one flat record as on the wire; fields a kind does not use are zero. */
  datatype Event = Event(
    kind: EventType, orderId: nat, makerId: nat, price: int, qty: nat, leaves: nat,
    symbol: nat, reason: Reason, side: Side, request: Option<MsgType>)

  datatype Config = Config(symbol: nat, minPrice: int, numLevels: nat, maxOrders: nat, stp: Stp)

  function Opposite(s: Side): Side {
    if s == Buy then Sell else Buy
  }

  function MaxPrice(cfg: Config): int {
    cfg.minPrice + cfg.numLevels - 1
  }

  /** Bit 0 of the flags. */
  predicate PostOnly(flags: nat) {
    flags % 2 == 1
  }

  /** Bits 1-2 of the flags override the book's default mode unless they are zero. */
  function EffectiveStp(flags: nat, bookDefault: Stp): Stp {
    match (flags / 2) % 4
    case 1 => CancelResting
    case 2 => CancelIncoming
    case 3 => DecrementCancel
    case _ => bookDefault
  }

  function AcceptedEvent(sym: nat, id: nat, side: Side, px: int, qty: nat): Event {
    Event(Accepted, id, 0, px, qty, 0, sym, NoReason, side, None)
  }

  function RejectedEvent(c: Command, r: Reason): Event {
    Event(Rejected, c.orderId, 0, 0, 0, 0, c.symbol, r, c.side, Some(c.kind))
  }

  function TradeEvent(sym: nat, taker: nat, maker: nat, takerSide: Side, px: int, qty: nat, leaves: nat): Event {
    Event(Trade, taker, maker, px, qty, leaves, sym, NoReason, takerSide, None)
  }

  function CanceledEvent(sym: nat, id: nat, side: Side, px: int, qty: nat, r: Reason): Event {
    Event(Canceled, id, 0, px, qty, 0, sym, r, side, None)
  }

  function ModifiedEvent(sym: nat, id: nat, side: Side, px: int, qty: nat): Event {
    Event(Modified, id, 0, px, qty, 0, sym, NoReason, side, None)
  }

  /** Decrement-and-cancel reduced an order to `newQty` without a trade. */
  function StpDecrementEvent(sym: nat, id: nat, side: Side, px: int, newQty: nat): Event {
    ModifiedEvent(sym, id, side, px, newQty).(reason := SelfTrade)
  }
}
