/** The order table, the trade table and the handlers of internal/trading/service.go, as functions
    of the state they start in. Trading.Service runs the same handlers step by step in TradingService.dfy. */
module Trading {
  import opened Ledger
  import opened Options

  type OrderId = nat
  datatype Side = Buy | Sell
  datatype Status = Open | Partial | Filled | Cancelled

  /** One row of the orders table. Rows are never deleted and an id is the row's number. */
  datatype Order = Order(user: UserId, base: Asset, quote: Asset, side: Side,
                         price: real, quantity: real, filled: real, status: Status)
  {
    predicate Live() { status == Open || status == Partial }

    function Remaining(): real { quantity - filled }

    /** The balance row an order of this side reserves funds on. */
    function FundingKey(): Key {
      if side == Sell then Key(user, base) else Key(user, quote)
    }

    /** What `quantity` units of this order tie up: base units for a SELL, quote units at the limit for a BUY. */
    function Cost(units: real): real {
      if side == Sell then units else units * price
    }
  }

  datatype Trade = Trade(buyOrder: OrderId, sellOrder: OrderId, buyUser: UserId, sellUser: UserId,
                         base: Asset, quote: Asset, price: real, quantity: real, takerSide: Side)

  /** A row of the trades table together with the limit the buy order had when the trade settled. */
  datatype Fill = Fill(trade: Trade, limit: real)

  /** Price and quantity the engine last accepted for an order. */
  datatype Terms = Terms(price: real, quantity: real)

  datatype State = State(table: Table, orders: seq<Order>, fills: seq<Fill>, terms: map<OrderId, Terms>)

  /** The engine's reply to a place or an amend call. */
  datatype Reply = Rejected | Accepted(trades: seq<Trade>, status: Status, filled: real)

  // ---------------------------------------------------------------- settlement

  datatype WalletCall = DebitFrozen(key: Key, amount: real) | Credit(key: Key, amount: real)

  /** The four wallet calls of one settlement, in order: first the taker's pair, then the maker's. */
  function SettlementCalls(tr: Trade, taker: UserId): seq<WalletCall> {
    var notional := tr.quantity * tr.price;
    if tr.takerSide == Buy then
      [DebitFrozen(Key(taker, tr.quote), notional), Credit(Key(taker, tr.base), tr.quantity),
       DebitFrozen(Key(tr.sellUser, tr.base), tr.quantity), Credit(Key(tr.sellUser, tr.quote), notional)]
    else
      [DebitFrozen(Key(taker, tr.base), tr.quantity), Credit(Key(taker, tr.quote), notional),
       DebitFrozen(Key(tr.buyUser, tr.quote), notional), Credit(Key(tr.buyUser, tr.base), tr.quantity)]
  }

  function Perform(t: Table, c: WalletCall): Move {
    match c
    case DebitFrozen(k, amount) => DebitFrozenMove(t, k, amount)
    case Credit(k, amount) => CreditMove(t, k, amount)
  }

  datatype Settlement = Settlement(table: Table, ok: bool)

  /** Calls run until one is refused; the ones before it stay done. */
  function PerformAll(t: Table, calls: seq<WalletCall>): Settlement
    decreases |calls|
  {
    if calls == [] then Settlement(t, true)
    else
      match Perform(t, calls[0])
      case Moved(t') => PerformAll(t', calls[1..])
      case Refused(_) => Settlement(t, false)
  }

  function SettleTrade(t: Table, tr: Trade, taker: UserId): Settlement {
    PerformAll(t, SettlementCalls(tr, taker))
  }

  /** The UPDATE of updateOrderStatus; the table's CHECK constraints refuse a fill outside [0, quantity]. */
  function UpdateOrderStatus(orders: seq<Order>, id: OrderId, status: Status, filled: real): seq<Order> {
    if id < |orders| && 0.0 <= filled <= orders[id].quantity
    then orders[id := orders[id].(status := status, filled := filled)]
    else orders
  }

  function MakerOf(tr: Trade, takerId: OrderId): OrderId {
    if tr.buyOrder == takerId then tr.sellOrder else tr.buyOrder
  }

  /** The maker row after one more fill. */
  function FillMaker(orders: seq<Order>, makerId: OrderId, quantity: real): seq<Order> {
    if makerId >= |orders| then orders
    else
      var filled := orders[makerId].filled + quantity;
      UpdateOrderStatus(orders, makerId, if filled >= orders[makerId].quantity then Filled else Partial, filled)
  }

  function FillOf(orders: seq<Order>, tr: Trade): Fill {
    Fill(tr, if tr.buyOrder < |orders| then orders[tr.buyOrder].price else tr.price)
  }

  /** One turn of the settlement loop: wallet moves, trade row, maker row. */
  function RunTrade(s: State, takerId: OrderId, taker: UserId, tr: Trade): State {
    s.(table := SettleTrade(s.table, tr, taker).table,
       fills := s.fills + [FillOf(s.orders, tr)],
       orders := FillMaker(s.orders, MakerOf(tr, takerId), tr.quantity))
  }

  function RunTrades(s: State, takerId: OrderId, taker: UserId, trades: seq<Trade>): State
    decreases |trades|
  {
    if trades == [] then s
    else RunTrades(RunTrade(s, takerId, taker, trades[0]), takerId, taker, trades[1..])
  }

  // ---------------------------------------------------------------- the engine's contract

  /** What the closed matching engine is trusted with, for one trade against the current rows. */
  predicate TradeOk(orders: seq<Order>, takerId: OrderId, tr: Trade) {
    && tr.buyOrder < |orders| && tr.sellOrder < |orders| && tr.buyOrder != tr.sellOrder
    && takerId == (if tr.takerSide == Buy then tr.buyOrder else tr.sellOrder)
    && var b, s := orders[tr.buyOrder], orders[tr.sellOrder];
    && b.side == Buy && s.side == Sell
    && b.base == s.base == tr.base && b.quote == s.quote == tr.quote
    && b.user == tr.buyUser && s.user == tr.sellUser
    && s.price <= tr.price <= b.price
    && var maker := orders[MakerOf(tr, takerId)];
    && maker.Live() && 0.0 < tr.quantity <= maker.Remaining()
  }

  /** Each trade is good against the rows its predecessors leave behind. */
  predicate TradesOk(orders: seq<Order>, takerId: OrderId, trades: seq<Trade>)
    decreases |trades|
  {
    trades == [] ||
    (&& TradeOk(orders, takerId, trades[0])
     && TradesOk(FillMaker(orders, MakerOf(trades[0], takerId), trades[0].quantity), takerId, trades[1..]))
  }

  function Volume(trades: seq<Trade>): real {
    if trades == [] then 0.0 else trades[0].quantity + Volume(trades[1..])
  }

  /** The contract of a whole reply for the taker row `orders[takerId]`, whose fills so far are `before`. */
  predicate ReplyOk(orders: seq<Order>, takerId: OrderId, before: real, reply: Reply) {
    reply.Accepted? ==>
      && takerId < |orders|
      && TradesOk(orders, takerId, reply.trades)
      && reply.filled == before + Volume(reply.trades)
      && reply.filled <= orders[takerId].quantity
      && reply.status != Cancelled
      && (reply.status == Filled <==> reply.filled == orders[takerId].quantity)
  }

  // ---------------------------------------------------------------- place

  datatype Pair = Pair(base: Asset, quote: Asset)
  datatype PlaceInput = PlaceInput(user: UserId, pair: string, side: Side, price: real, quantity: real)
  datatype Error = UnknownPair | InvalidPrice | InvalidQty | Insufficient | Engine
                 | NothingToAmend | NotFound | NotOwner | AlreadyClosed | InvalidAmount | WalletFailed | RowFailed
                 | CommitFailed
  datatype Result = Ok(id: OrderId, status: Status, filled: real) | Failed(error: Error)

  function NewOrder(pair: Pair, input: PlaceInput, filled: real, status: Status): Order {
    Order(input.user, pair.base, pair.quote, input.side, input.price, input.quantity, filled, status)
  }

  predicate PlaceOk(s: State, pairs: map<string, Pair>, input: PlaceInput, reply: Reply) {
    input.pair in pairs && reply.Accepted? ==>
      ReplyOk(s.orders + [NewOrder(pairs[input.pair], input, reply.filled, reply.status)], |s.orders|, 0.0, reply)
  }

  /** `refundFails`: the wallet call that takes the freeze back after an engine error fails; its error is dropped. */
  function PlaceOrder(s: State, pairs: map<string, Pair>, input: PlaceInput, reply: Reply, refundFails: bool)
    : (r: (State, Result))
    requires PlaceOk(s, pairs, input, reply)
  {
    if input.pair !in pairs then (s, Failed(UnknownPair))
    else if input.price <= 0.0 then (s, Failed(InvalidPrice))
    else if input.quantity <= 0.0 then (s, Failed(InvalidQty))
    else
      var draft := NewOrder(pairs[input.pair], input, 0.0, Open);
      var k, amount := draft.FundingKey(), draft.Cost(input.quantity);
      match FreezeMove(s.table, k, amount)
      case Refused(_) => (s, Failed(Insufficient))
      case Moved(t) =>
        match reply
        case Rejected =>
          (s.(table := if refundFails then t else After(UnfreezeMove(t, k, amount), t)), Failed(Engine))
        case Accepted(trades, status, filled) =>
          var id := |s.orders|;
          var inserted := State(t, s.orders + [draft.(filled := filled, status := status)], s.fills,
                                s.terms[id := Terms(input.price, input.quantity)]);
          var settled := RunTrades(inserted, id, input.user, trades);
          (settled.(orders := UpdateOrderStatus(settled.orders, id, status, filled)), Ok(id, status, filled))
  }

  // ---------------------------------------------------------------- amend

  /** A zero price or quantity means "leave unchanged". */
  datatype AmendInput = AmendInput(id: OrderId, user: UserId, price: real, quantity: real)

  /** Transient failures during one amend: of the wallet call, of the row UPDATE, of the wallet call that
      takes the first one back, of the engine call that restores the old terms, and of the commit, which nothing
      compensates. */
  datatype Faults = Faults(wallet: bool, row: bool, undo: bool, restore: bool, commit: bool)

  function AmendedRow(o: Order, input: AmendInput): Order {
    o.(price := if input.price == 0.0 then o.price else input.price,
       quantity := if input.quantity == 0.0 then o.quantity else input.quantity)
  }

  predicate AmendOk(s: State, input: AmendInput, reply: Reply) {
    input.id < |s.orders| && reply.Accepted? ==>
      var o := s.orders[input.id];
      ReplyOk(s.orders[input.id := AmendedRow(o, input)], input.id, o.filled, reply)
  }

  /** What the amended row ties up on top of the old one: positive is frozen, negative is released. */
  function AmendDiff(o: Order, input: AmendInput): real {
    var n := AmendedRow(o, input);
    n.Cost(n.Remaining()) - o.Cost(o.Remaining())
  }

  /** Move `diff` into the frozen part, or out of it when negative. */
  function ShiftMove(t: Table, k: Key, diff: real): Move {
    if diff > 0.0 then FreezeMove(t, k, diff)
    else if diff < 0.0 then UnfreezeMove(t, k, -diff)
    else Moved(t)
  }

  /** The error an amend returns before it reaches the engine, if any. */
  function AmendRefusal(s: State, input: AmendInput): Option<Error> {
    if input.price == 0.0 && input.quantity == 0.0 then Some(NothingToAmend)
    else if input.id >= |s.orders| then Some(NotFound)
    else
      var o := s.orders[input.id];
      if o.user != input.user then Some(NotOwner)
      else if !o.Live() then Some(AlreadyClosed)
      else if AmendedRow(o, input).price <= 0.0 || AmendedRow(o, input).quantity <= 0.0 then Some(InvalidPrice)
      else if AmendedRow(o, input).quantity < o.filled then Some(InvalidQty)
      else None
  }

  function Restored(s: State, id: OrderId, before: Terms, fault: bool): map<OrderId, Terms> {
    if fault then s.terms else s.terms[id := before]
  }

  /** From the engine's acceptance on: move the difference, write the row, settle the trades. */
  function AmendAccepted(s: State, input: AmendInput, reply: Reply, faults: Faults): (r: (State, Result))
    requires input.id < |s.orders| && reply.Accepted?
  {
    var o := s.orders[input.id];
    var n := AmendedRow(o, input);
    var k, diff, before := o.FundingKey(), AmendDiff(o, input), Terms(o.price, o.quantity);
    var agreed := s.(terms := s.terms[input.id := Terms(n.price, n.quantity)]);
    var moved := if faults.wallet && diff != 0.0 then Refused(InsufficientBalance) else ShiftMove(s.table, k, diff);
    if moved.Refused? then
      (agreed.(terms := Restored(agreed, input.id, before, faults.restore)), Failed(WalletFailed))
    else if faults.row then
      var back := if faults.undo then moved.table
                  else After(ShiftMove(moved.table, k, -diff), moved.table);
      (agreed.(table := back, terms := Restored(agreed, input.id, before, faults.restore)), Failed(RowFailed))
    else if faults.commit then (agreed.(table := moved.table), Failed(CommitFailed))
    else
      var written := agreed.(table := moved.table, orders := s.orders[input.id := n]);
      var settled := RunTrades(written, input.id, input.user, reply.trades);
      (settled.(orders := UpdateOrderStatus(settled.orders, input.id, reply.status, reply.filled)),
       Ok(input.id, reply.status, reply.filled))
  }

  function AmendOrder(s: State, input: AmendInput, reply: Reply, faults: Faults): (r: (State, Result))
    requires AmendOk(s, input, reply)
  {
    if AmendRefusal(s, input).Some? then (s, Failed(AmendRefusal(s, input).value))
    else
      var o := s.orders[input.id];
      if AmendedRow(o, input) == o then
        (s, if faults.commit then Failed(CommitFailed) else Ok(input.id, o.status, o.filled))
      else if reply.Rejected? then (s, Failed(Engine))
      else AmendAccepted(s, input, reply, faults)
  }

  // ---------------------------------------------------------------- cancel

  /** The amount CancelOrder asks back: what the row reserves, but never more than is frozen. */
  function CancelAmount(t: Table, o: Order): real {
    var amount := o.Cost(o.Remaining());
    if amount > 0.0 && o.FundingKey() in t && t[o.FundingKey()].frozen < amount
    then t[o.FundingKey()].frozen else amount
  }

  /** `refundFails`: the wallet call fails, which is only logged. */
  function CancelOrder(s: State, id: OrderId, user: UserId, refundFails: bool): (r: (State, Result)) {
    if id >= |s.orders| then (s, Failed(NotFound))
    else
      var o := s.orders[id];
      if o.user != user then (s, Failed(NotOwner))
      else if !o.Live() then (s, Failed(AlreadyClosed))
      else
        var amount := CancelAmount(s.table, o);
        if amount < 0.0 then (s, Failed(InvalidAmount))
        else
          (s.(orders := s.orders[id := o.(status := Cancelled)],
              table := if refundFails then s.table
                       else After(UnfreezeMove(s.table, o.FundingKey(), amount), s.table)),
           Ok(id, Cancelled, o.filled))
  }

  /** The optional pair filter of cancel-all. */
  datatype Filter = AnyPair | OnlyPair(pair: Pair)

  predicate Selected(o: Order, user: UserId, filter: Filter) {
    o.user == user && o.Live() && (filter.AnyPair? || filter.pair == Pair(o.base, o.quote))
  }

  /** Ids of the rows the SELECT of cancel-all locks. */
  function SelectedIds(orders: seq<Order>, user: UserId, filter: Filter): seq<OrderId> {
    if orders == [] then []
    else
      var n := |orders| - 1;
      SelectedIds(orders[..n], user, filter) + if Selected(orders[n], user, filter) then [n] else []
  }

  function Marked(o: Order, user: UserId, filter: Filter): Order {
    if Selected(o, user, filter) then o.(status := Cancelled) else o
  }

  /** The UPDATE of cancel-all. */
  function CancelRows(orders: seq<Order>, user: UserId, filter: Filter): seq<Order> {
    seq(|orders|, i requires 0 <= i < |orders| => Marked(orders[i], user, filter))
  }

  /** The refunds of cancel-all, computed from the rows as they were read; refused ones are skipped, and so are those
      whose wallet call fails. */
  function Refunds(t: Table, orders: seq<Order>, ids: seq<OrderId>, failing: set<OrderId>): Table
    requires forall i :: 0 <= i < |ids| ==> ids[i] < |orders|
    decreases |ids|
  {
    if ids == [] then t
    else
      var o := orders[ids[0]];
      var t' := if o.Remaining() <= 0.0 || ids[0] in failing then t
                else After(UnfreezeMove(t, o.FundingKey(), o.Cost(o.Remaining())), t);
      Refunds(t', orders, ids[1..], failing)
  }

  lemma {:induction false} SelectedIdsAre(orders: seq<Order>, user: UserId, filter: Filter)
    ensures forall id: nat :: id in SelectedIds(orders, user, filter) <==>
                              id < |orders| && Selected(orders[id], user, filter)
    ensures Ascending(SelectedIds(orders, user, filter))
  {
    if orders == [] {
    } else {
      var n := |orders| - 1;
      var pre := SelectedIds(orders[..n], user, filter);
      SelectedIdsAre(orders[..n], user, filter);
      AppendAscends(pre, n);
      forall id: nat ensures id in SelectedIds(orders, user, filter) <==> id < |orders| && Selected(orders[id], user, filter) {
        assert id in pre <==> id < n && Selected(orders[..n][id], user, filter);
      }
      assert pre + [] == pre;
    }
  }

  predicate Ascending(ids: seq<OrderId>) {
    forall i, j :: 0 <= i < j < |ids| ==> ids[i] < ids[j]
  }

  lemma AppendAscends(ids: seq<OrderId>, n: OrderId)
    requires Ascending(ids) && forall id <- ids :: id < n
    ensures Ascending(ids + [n])
  {
    assert forall i :: 0 <= i < |ids| ==> ids[i] in ids;
  }

  function CancelAllOrders(s: State, user: UserId, filter: Filter, failing: set<OrderId>): (r: (State, nat)) {
    var ids := SelectedIds(s.orders, user, filter);
    SelectedIdsAre(s.orders, user, filter);
    assert forall i :: 0 <= i < |ids| ==> ids[i] in ids;
    (s.(orders := CancelRows(s.orders, user, filter), table := Refunds(s.table, s.orders, ids, failing)), |ids|)
  }

  // ---------------------------------------------------------------- runs

  datatype Op =
    | Place(place: PlaceInput, placeReply: Reply, refundFails: bool)
    | Amend(amend: AmendInput, amendReply: Reply, faults: Faults)
    | Cancel(id: OrderId, user: UserId, refundFails: bool)
    | CancelAll(owner: UserId, filter: Filter, failing: set<OrderId>)

  predicate OpOk(s: State, pairs: map<string, Pair>, op: Op) {
    match op
    case Place(input, reply, _) => PlaceOk(s, pairs, input, reply)
    case Amend(input, reply, _) => AmendOk(s, input, reply)
    case _ => true
  }

  function Step(s: State, pairs: map<string, Pair>, op: Op): State
    requires OpOk(s, pairs, op)
  {
    match op
    case Place(input, reply, refundFails) => PlaceOrder(s, pairs, input, reply, refundFails).0
    case Amend(input, reply, faults) => AmendOrder(s, input, reply, faults).0
    case Cancel(id, user, refundFails) => CancelOrder(s, id, user, refundFails).0
    case CancelAll(user, filter, failing) => CancelAllOrders(s, user, filter, failing).0
  }

  predicate RunOk(s: State, pairs: map<string, Pair>, ops: seq<Op>)
    decreases |ops|
  {
    ops == [] || (OpOk(s, pairs, ops[0]) && RunOk(Step(s, pairs, ops[0]), pairs, ops[1..]))
  }

  function Run(s: State, pairs: map<string, Pair>, ops: seq<Op>): State
    requires RunOk(s, pairs, ops)
    decreases |ops|
  {
    if ops == [] then s else Run(Step(s, pairs, ops[0]), pairs, ops[1..])
  }
}
