/**
 * The vocabulary of one bot's grid: level fields, order records, venue answers
 * and slot outcomes.
 *
 * Quantities are integers in 1e-8 units, so QTY_EPSILON is one unit; prices and
 * money are exact reals.
 */
module OrderState {
  import opened Options

  /** Tolerance under which two quantities are the same: 1e-8, one unit. */
  const QTY_EPSILON: int := 1

  datatype Side = Buy | Sell

  /** A client order id, as the triple its printed form determines (see ClientOrderIds.Recoverable). */
  datatype Cid = Cid(level: nat, side: Side, gen: nat) {
    function SlotOf(): Slot { Slot(level, side) }
  }

  /** One side of one level. */
  datatype Slot = Slot(level: nat, side: Side)

  /** An adapter handle: the id it was created under and which submission of that id it names. */
  datatype Handle = Handle(cid: Cid, instance: nat)

  datatype RecordState =
    | Intended | Submitting | Unknown | Open | Filled | NotFound | ExchangeUnavailable

  /** One local order record. Its level and side are those of its id. */
  datatype OrderRecord = OrderRecord(
    cid: Cid, price: real, quantity: int, filledQty: int,
    orderId: Option<Handle>, state: RecordState)

  /** One grid level; an absent optional field is None. */
  datatype GridLevel = GridLevel(
    price: real,
    buyOrderId: Option<Handle>, sellOrderId: Option<Handle>,
    filled: bool,
    entryPrice: Option<real>,
    buyGen: Option<nat>, sellGen: Option<nat>,
    heldQty: Option<int>,
    buyFilledQty: Option<int>, sellFilledQty: Option<int>,
    exitOnly: Option<bool>)
  {
    function HandleOf(side: Side): Option<Handle> {
      if side == Buy then buyOrderId else sellOrderId
    }

    function WithHandle(side: Side, h: Option<Handle>): GridLevel {
      if side == Buy then this.(buyOrderId := h) else this.(sellOrderId := h)
    }

    function Gen(side: Side): nat {
      (if side == Buy then buyGen else sellGen).GetOr(0)
    }

    function BumpGen(side: Side): GridLevel {
      if side == Buy then this.(buyGen := Some(Gen(Buy) + 1)) else this.(sellGen := Some(Gen(Sell) + 1))
    }

    function CumOf(side: Side): Option<int> {
      if side == Buy then buyFilledQty else sellFilledQty
    }

    function WithCum(side: Side, cum: int): GridLevel {
      if side == Buy then this.(buyFilledQty := Some(cum)) else this.(sellFilledQty := Some(cum))
    }

    /** Booked long quantity; an untouched level holds nothing. */
    function Held(): int { heldQty.GetOr(0) }

    predicate FullyLong(orderQuantity: int) { Held() >= orderQuantity - QTY_EPSILON }

    predicate IsExitOnly() { exitOnly == Some(true) }
  }

  function FreshLevel(price: real): GridLevel {
    GridLevel(price, None, None, false, None, None, None, None, None, None, None)
  }

  /** Why a submission or a lookup gave nothing; the text classifiers become these three. */
  datatype Reason = SizeRefusal | MarginRefusal | OtherReason

  datatype PendingFill = PendingFill(
    cumQty: int, delta: int, executedPrice: Option<real>, cid: Cid, orderId: Option<Handle>)

  datatype SlotOutcome =
    | OpenOrder(orderId: Handle)
    | FilledOrder(filledId: Option<Handle>, filledQty: Option<int>, fillDelta: int, fillPrice: Option<real>, fillCid: Cid)
    | PartiallyFilled(partId: Handle, cumQty: int, partDelta: int, partPrice: Option<real>, partCid: Cid)
    | SafeToRecreate(pendingFill: Option<PendingFill>)
    | Unavailable(reason: Reason)
}
