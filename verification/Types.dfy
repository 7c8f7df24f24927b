/** Vocabulary shared by the order-book engine, its sinks and its feeds. */
module Types {

  datatype Option<+T> = None | Some(value: T)

  datatype Side = Sell | Buy {
    function Opposite(): Side {
      if this == Buy then Sell else Buy
    }
  }

  /** One value per side of the market (the source's paired fields, such as `bids` and `asks`). */
  datatype Sides<T> = Sides(sell: T, buy: T) {
    function At(side: Side): T {
      if side == Buy then buy else sell
    }

    function With(side: Side, value: T): Sides<T> {
      if side == Buy then this.(buy := value) else this.(sell := value)
    }
  }

  datatype UpdateType = Add | Delete | Subtract | Match | Set | AggressiveTrade

  datatype Source = Historical | Strategy | Unknown

  /** The order id that stands for "no id". */
  const UNKNOWN_ID: int := -1

  datatype Event = Event(side: Side, kind: UpdateType, source: Source, price: int, qty: int, id: int)

  datatype Fill = Fill(
    seq_: nat, price: int, qty: int,
    makerSide: Side, makerId: int, makerSource: Source,
    takerId: int, takerSource: Source)

  /** What the engine tells its sink. */
  datatype Record =
    | Applied(seq_: nat, event: Event)
    | Filled(fill: Fill)

  /** Life of a strategy order, in the engine and in the sinks' ledgers. */
  datatype PaperStatus = Open | PartiallyFilled | FullyFilled | Cancelled | Rejected

  function Min(a: int, b: int): int {
    if a <= b then a else b
  }

  function Max(a: int, b: int): int {
    if a >= b then a else b
  }

  /**
   * Price priority on one side: a higher rank trades first. It is also the number the engine
   * pushes on its max-heaps (asks with the sign reversed), and its own inverse.
   */
  function Rank(side: Side, price: int): int {
    if side == Buy then price else -price
  }

  /** Whether an aggressor with this limit reaches a resting price on side `maker`. */
  predicate Crosses(maker: Side, limit: int, price: int) {
    if maker == Sell then limit >= price else limit <= price
  }
}
