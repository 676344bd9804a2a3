/**
 * The venue as one level sees it: the orders submitted under the level's client
 * order ids. Everything it decides (fills, cancels, lost responses, silence, and
 * even false answers) is read off the `Move` of the call, so a statement about
 * all moves is a statement about every venue.
 */
module Venue {
  import opened Options
  import opened OrderState

  datatype Status = Live | Done | Dead

  /** One submission of an id. `cum` is what has executed so far. */
  datatype VenueOrder = VenueOrder(
    instance: nat, quantity: int, limit: real, cum: int, status: Status, reduceOnly: bool)

  type Book = map<Cid, VenueOrder>

  /** A listing row; executed price and cumulative are optional in the adapter contract. */
  datatype VenueRow = VenueRow(
    orderId: Handle, price: Option<real>, quantity: Option<int>, executedQuantity: Option<int>)

  datatype Lookup =
    | FoundOpen(row: VenueRow)
    | FoundFilled(row: VenueRow)
    | FoundCanceled(row: VenueRow)
    | Absent
    | Unreachable

  datatype RowStatus = RowFilled | RowDead | RowLive

  datatype HandleError = CommandError(retryable: bool) | HttpError(code: Option<int>) | OtherError

  datatype OrderReply =
    | OrderRow(status: RowStatus, orderId: Option<Handle>, executedQuantity: Option<int>, executedPrice: Option<real>)
    | Failed(error: HandleError)

  datatype CreateReply = Created(orderId: Handle) | Refused(reason: Reason)

  /**
   * What happens at one read of an order: it may execute `fill` more size steps
   * and change status first; the read may fail; a dead order that executed
   * nothing may have been forgotten; and the answer may be false altogether.
   */
  datatype Move = Move(
    fill: nat, next: Status, reachable: bool, forget: bool, exec: Option<real>,
    falseLookup: Option<Lookup>, falseReply: Option<OrderReply>)
  {
    predicate Honest() { falseLookup.None? && falseReply.None? }
  }

  /** What happens at one submission. */
  datatype CreateMove = CreateMove(accept: bool, answered: bool, refusal: Reason)

  /** Executions only grow, up to the size; only a fully executed order is done. */
  function Evolve(o: VenueOrder, step: nat, m: Move): VenueOrder {
    if o.status != Live then o
    else
      var cum := if o.cum + m.fill * step >= o.quantity then o.quantity else o.cum + m.fill * step;
      o.(cum := cum, status := if m.next == Done && cum < o.quantity then Live else m.next)
  }

  function EvolveAt(b: Book, step: nat, cid: Cid, m: Move): Book {
    if cid in b then b[cid := Evolve(b[cid], step, m)] else b
  }

  /** Look an order up by client order id; `b` is the book after the move. */
  function LookupReply(b: Book, cid: Cid, m: Move): Lookup {
    if m.falseLookup.Some? then m.falseLookup.value
    else if !m.reachable then Unreachable
    else if cid !in b then Absent
    else
      var o := b[cid];
      var row := VenueRow(Handle(cid, o.instance), m.exec, Some(o.quantity), Some(o.cum));
      match o.status
      case Live => FoundOpen(row)
      case Done => FoundFilled(row)
      case Dead => if o.cum == 0 && m.forget then Absent else FoundCanceled(row)
  }

  /** Read an order by handle; `b` is the book after the move. */
  function HandleReply(b: Book, h: Handle, m: Move): OrderReply {
    if m.falseReply.Some? then m.falseReply.value
    else if !m.reachable then Failed(OtherError)
    else if h.cid !in b || b[h.cid].instance != h.instance then Failed(HttpError(Some(404)))
    else
      var o := b[h.cid];
      if o.status == Dead && o.cum == 0 && m.forget then Failed(CommandError(false))
      else
        OrderRow(match o.status case Live => RowLive case Done => RowFilled case Dead => RowDead,
                 Some(h), Some(o.cum), m.exec)
  }

  /** A submission is taken only if the id has no open order and the size is positive. */
  predicate Takes(b: Book, cid: Cid, quantity: int, m: CreateMove) {
    m.accept && quantity > 0 && !(cid in b && b[cid].status == Live)
  }

  function NextInstance(b: Book, cid: Cid): nat {
    if cid in b then b[cid].instance + 1 else 0
  }

  function CreateBook(b: Book, cid: Cid, price: real, quantity: int, reduceOnly: bool, m: CreateMove): Book {
    if Takes(b, cid, quantity, m)
    then b[cid := VenueOrder(NextInstance(b, cid), quantity, price, 0, Live, reduceOnly)]
    else b
  }

  /** A taken submission may still lose its response; its loss carries no refusal text. */
  function CreateAnswer(b: Book, cid: Cid, quantity: int, m: CreateMove): CreateReply {
    if Takes(b, cid, quantity, m)
    then (if m.answered then Created(Handle(cid, NextInstance(b, cid))) else Refused(OtherReason))
    else Refused(m.refusal)
  }

  /** A confirmed cancel: the order moves one last time and is no longer live. */
  function CancelAt(b: Book, step: nat, h: Handle, m: Move): Book {
    if h.cid in b && b[h.cid].instance == h.instance then
      var o := Evolve(b[h.cid], step, m);
      b[h.cid := if o.status == Live then o.(status := Dead) else o]
    else b
  }

  /** The venue of a whole grid: one book a level. */
  class ExchangeClient {
    var books: seq<Book>
    const step: nat

    constructor (levels: nat, step: nat)
      ensures books == seq(levels, _ => map[]) && this.step == step
    {
      books := seq(levels, _ => map[]);
      this.step := step;
    }

    method QueryOrderByClientOrderId(cid: Cid, m: Move) returns (reply: Lookup)
      requires cid.level < |books|
      modifies this
      ensures books == old(books)[cid.level := EvolveAt(old(books)[cid.level], step, cid, m)]
      ensures reply == LookupReply(books[cid.level], cid, m)
    {
      books := books[cid.level := EvolveAt(books[cid.level], step, cid, m)];
      reply := LookupReply(books[cid.level], cid, m);
    }

    /** `i` is the level whose slot holds the handle. */
    method GetOrder(i: nat, h: Handle, m: Move) returns (reply: OrderReply)
      requires i < |books|
      modifies this
      ensures books == old(books)[i := EvolveAt(old(books)[i], step, h.cid, m)]
      ensures reply == HandleReply(books[i], h, m)
    {
      books := books[i := EvolveAt(books[i], step, h.cid, m)];
      reply := HandleReply(books[i], h, m);
    }

    method CreateOrder(cid: Cid, price: real, quantity: int, reduceOnly: bool, m: CreateMove)
      returns (reply: CreateReply)
      requires cid.level < |books|
      modifies this
      ensures books == old(books)[cid.level := CreateBook(old(books)[cid.level], cid, price, quantity, reduceOnly, m)]
      ensures reply == CreateAnswer(old(books)[cid.level], cid, quantity, m)
    {
      reply := CreateAnswer(books[cid.level], cid, quantity, m);
      books := books[cid.level := CreateBook(books[cid.level], cid, price, quantity, reduceOnly, m)];
    }

    /** True when the cancel is confirmed; false stands for the thrown error. */
    method CancelOrder(i: nat, h: Handle, confirmed: bool, m: Move) returns (ok: bool)
      requires i < |books|
      modifies this
      ensures ok == confirmed
      ensures books == if confirmed then old(books)[i := CancelAt(old(books)[i], step, h, m)] else old(books)
    {
      if confirmed {
        books := books[i := CancelAt(books[i], step, h, m)];
      }
      ok := confirmed;
    }
  }
}
