/** The trading service as it runs: handlers that update the order rows and call the wallet step by step.
    Each is proved to end in the state that Trading gives for it, so everything TradingProofs says about those
    functions holds of these methods. */
module TradingService {
  import opened Ledger
  import opened Trading

  class Service {
    const pairs: map<string, Pair>
    const wallet: Wallet
    var orders: seq<Order>
    var fills: seq<Fill>
    var terms: map<OrderId, Terms>

    ghost function State(): Trading.State
      reads this, wallet
    {
      Trading.State(wallet.table, orders, fills, terms)
    }

    constructor (pairs: map<string, Pair>, wallet: Wallet)
      ensures this.pairs == pairs && this.wallet == wallet
      ensures State() == Trading.State(wallet.table, [], [], map[])
    {
      this.pairs, this.wallet := pairs, wallet;
      orders, fills, terms := [], [], map[];
    }

    method SettleTrade(tr: Trade, taker: UserId) returns (ok: bool)
      modifies wallet
      ensures Settlement(wallet.table, ok) == Trading.SettleTrade(old(wallet.table), tr, taker)
    {
      var notional, baseAmt := tr.quantity * tr.price, tr.quantity;
      var takerIsBuyer := tr.takerSide == Buy;
      ghost var calls, t := SettlementCalls(tr, taker), wallet.table;
      assert calls[1..][1..] == calls[2..] && calls[2..][1..] == calls[3..] && calls[3..][1..] == [];

      if takerIsBuyer {
        ok := wallet.DebitFrozen(Key(taker, tr.quote), notional);
        assert Perform(t, calls[0]).Moved? <==> ok;
        if !ok { return; }
        ghost var t1 := wallet.table;
        assert Perform(t, calls[0]) == Moved(t1) && calls != [];
        ok := wallet.Credit(Key(taker, tr.base), baseAmt);
        assert PerformAll(t, calls) == PerformAll(t1, calls[1..]);
        if !ok { return; }
      } else {
        ok := wallet.DebitFrozen(Key(taker, tr.base), baseAmt);
        assert Perform(t, calls[0]).Moved? <==> ok;
        if !ok { return; }
        ghost var t1 := wallet.table;
        assert Perform(t, calls[0]) == Moved(t1) && calls != [];
        ok := wallet.Credit(Key(taker, tr.quote), notional);
        assert PerformAll(t, calls) == PerformAll(t1, calls[1..]);
        if !ok { return; }
      }
      assert PerformAll(t, calls) == PerformAll(wallet.table, calls[2..]);

      var makerId := tr.sellUser;
      if !takerIsBuyer { makerId := tr.buyUser; }
      ghost var t2 := wallet.table;
      if takerIsBuyer {
        ok := wallet.DebitFrozen(Key(makerId, tr.base), baseAmt);
        if !ok { assert PerformAll(t2, calls[2..]) == Settlement(t2, false); return; }
        ghost var t3 := wallet.table;
        assert PerformAll(t2, calls[2..]) == PerformAll(t3, calls[3..]);
        ok := wallet.Credit(Key(makerId, tr.quote), notional);
        assert PerformAll(wallet.table, calls[3..][1..]) == Settlement(wallet.table, true);
        assert PerformAll(t3, calls[3..]) == Settlement(wallet.table, ok);
      } else {
        ok := wallet.DebitFrozen(Key(makerId, tr.quote), notional);
        if !ok { assert PerformAll(t2, calls[2..]) == Settlement(t2, false); return; }
        ghost var t3 := wallet.table;
        assert PerformAll(t2, calls[2..]) == PerformAll(t3, calls[3..]);
        ok := wallet.Credit(Key(makerId, tr.base), baseAmt);
        assert PerformAll(wallet.table, calls[3..][1..]) == Settlement(wallet.table, true);
        assert PerformAll(t3, calls[3..]) == Settlement(wallet.table, ok);
      }
    }

    method UpdateOrderStatus(id: OrderId, status: Status, filled: real)
      modifies this`orders
      ensures orders == Trading.UpdateOrderStatus(old(orders), id, status, filled)
    {
      if id < |orders| && 0.0 <= filled <= orders[id].quantity {
        orders := orders[id := orders[id].(status := status, filled := filled)];
      }
    }

    /** The settlement loop place and amend share. */
    method SettleAll(takerId: OrderId, taker: UserId, trades: seq<Trade>)
      modifies this, wallet
      ensures State() == RunTrades(old(State()), takerId, taker, trades)
    {
      hide RunTrade;
      assert trades[0..] == trades;
      for i := 0 to |trades|
        invariant RunTrades(State(), takerId, taker, trades[i..]) == RunTrades(old(State()), takerId, taker, trades)
      {
        OneTradeOn(State(), takerId, taker, trades, i);
        SettleOne(takerId, taker, trades[i]);
      }
    }

    /** One turn: settle, insert the trade, update the maker. */
    method SettleOne(takerId: OrderId, taker: UserId, tr: Trade)
      modifies this, wallet
      ensures State() == RunTrade(old(State()), takerId, taker, tr)
    {
      var _ := SettleTrade(tr, taker);
      fills := fills + [FillOf(orders, tr)];
      var makerId := tr.buyOrder;
      if makerId == takerId { makerId := tr.sellOrder; }
      if makerId < |orders| {
        var newFilled := orders[makerId].filled + tr.quantity;
        var status := Partial;
        if newFilled >= orders[makerId].quantity { status := Filled; }
        UpdateOrderStatus(makerId, status, newFilled);
      }
    }

    /** `refundFails` stands for a wallet call that fails, here and below. */
    method PlaceOrder(input: PlaceInput, reply: Reply, refundFails: bool) returns (r: Result)
      requires PlaceOk(State(), pairs, input, reply)
      modifies this, wallet
      ensures (State(), r) == Trading.PlaceOrder(old(State()), pairs, input, reply, refundFails)
    {
      if input.pair !in pairs { return Failed(UnknownPair); }
      if input.price <= 0.0 { return Failed(InvalidPrice); }
      if input.quantity <= 0.0 { return Failed(InvalidQty); }

      var pair := pairs[input.pair];
      var freezeAmount, freezeKey := input.quantity * input.price, Key(input.user, pair.quote);
      if input.side == Sell {
        freezeAmount, freezeKey := input.quantity, Key(input.user, pair.base);
      }
      ghost var draft := NewOrder(pair, input, 0.0, Open);
      assert freezeKey == draft.FundingKey() && freezeAmount == draft.Cost(input.quantity);
      var frozen := wallet.Freeze(freezeKey, freezeAmount);
      if !frozen { return Failed(Insufficient); }

      if reply.Rejected? {
        if !refundFails { var _ := wallet.Unfreeze(freezeKey, freezeAmount); }
        return Failed(Engine);
      }
      var id := |orders|;
      terms := terms[id := Terms(input.price, input.quantity)];
      orders := orders + [Order(input.user, pair.base, pair.quote, input.side, input.price, input.quantity,
                                reply.filled, reply.status)];
      assert orders == old(orders) + [draft.(filled := reply.filled, status := reply.status)];
      SettleAll(id, input.user, reply.trades);
      UpdateOrderStatus(id, reply.status, reply.filled);
      return Ok(id, reply.status, reply.filled);
    }

    /** Freeze a positive difference, unfreeze a negative one; no call is made for zero. */
    method Shift(k: Key, diff: real, fault: bool) returns (ok: bool)
      modifies wallet
      ensures ok <==> !(fault && diff != 0.0) && ShiftMove(old(wallet.table), k, diff).Moved?
      ensures wallet.table == if ok then ShiftMove(old(wallet.table), k, diff).table else old(wallet.table)
    {
      ok := true;
      if diff > 0.0 {
        if fault { return false; }
        ok := wallet.Freeze(k, diff);
      } else if diff < 0.0 {
        if fault { return false; }
        ok := wallet.Unfreeze(k, -diff);
      }
    }

    /** What AmendOrder does once the engine has accepted the new terms. */
    method ApplyAmend(input: AmendInput, o: Order, newPrice: real, newQuantity: real, reply: Reply, faults: Faults)
      returns (r: Result)
      requires input.id < |orders| && o == orders[input.id] && reply.Accepted?
      requires AmendedRow(o, input) == o.(price := newPrice, quantity := newQuantity)
      modifies this, wallet
      ensures (State(), r) == AmendAccepted(old(State()), input, reply, faults)
    {
      hide RunTrades, RunTrade;
      var oldRemaining, newRemaining := o.quantity - o.filled, newQuantity - o.filled;
      var freezeKey, oldFrozen, newFrozen :=
        Key(o.user, o.quote), oldRemaining * o.price, newRemaining * newPrice;
      if o.side == Sell {
        freezeKey, oldFrozen, newFrozen := Key(o.user, o.base), oldRemaining, newRemaining;
      }
      terms := terms[input.id := Terms(newPrice, newQuantity)];

      var diff := newFrozen - oldFrozen;
      assert freezeKey == o.FundingKey() && diff == AmendDiff(o, input);
      hide AmendDiff, ShiftMove;
      var moved := Shift(freezeKey, diff, faults.wallet);
      if !moved {
        if !faults.restore { terms := terms[input.id := Terms(o.price, o.quantity)]; }
        return Failed(WalletFailed);
      }
      if faults.row {
        var _ := Shift(freezeKey, -diff, faults.undo);
        if !faults.restore { terms := terms[input.id := Terms(o.price, o.quantity)]; }
        return Failed(RowFailed);
      }
      if faults.commit { return Failed(CommitFailed); }
      orders := orders[input.id := o.(price := newPrice, quantity := newQuantity)];
      SettleAll(input.id, input.user, reply.trades);
      UpdateOrderStatus(input.id, reply.status, reply.filled);
      return Ok(input.id, reply.status, reply.filled);
    }

    method AmendOrder(input: AmendInput, reply: Reply, faults: Faults) returns (r: Result)
      requires AmendOk(State(), input, reply)
      modifies this, wallet
      ensures (State(), r) == Trading.AmendOrder(old(State()), input, reply, faults)
    {
      hide AmendAccepted, ReplyOk;
      if input.price == 0.0 && input.quantity == 0.0 { return Failed(NothingToAmend); }
      if input.id >= |orders| { return Failed(NotFound); }
      var o := orders[input.id];
      if o.user != input.user { return Failed(NotOwner); }
      if o.status == Filled || o.status == Cancelled { return Failed(AlreadyClosed); }
      var newPrice, newQuantity := o.price, o.quantity;
      if input.price != 0.0 { newPrice := input.price; }
      if input.quantity != 0.0 { newQuantity := input.quantity; }
      if newPrice <= 0.0 || newQuantity <= 0.0 { return Failed(InvalidPrice); }
      if newQuantity < o.filled { return Failed(InvalidQty); }
      if newPrice == o.price && newQuantity == o.quantity {
        return if faults.commit then Failed(CommitFailed) else Ok(input.id, o.status, o.filled);
      }
      if reply.Rejected? { return Failed(Engine); }
      r := ApplyAmend(input, o, newPrice, newQuantity, reply, faults);
    }

    method CancelOrder(id: OrderId, user: UserId, refundFails: bool) returns (r: Result)
      modifies this, wallet
      ensures (State(), r) == Trading.CancelOrder(old(State()), id, user, refundFails)
    {
      if id >= |orders| { return Failed(NotFound); }
      var o := orders[id];
      if o.user != user { return Failed(NotOwner); }
      if o.status == Filled || o.status == Cancelled { return Failed(AlreadyClosed); }
      var remaining := o.quantity - o.filled;
      var key, amount := Key(user, o.quote), remaining * o.price;
      if o.side == Sell { key, amount := Key(user, o.base), remaining; }
      assert key == o.FundingKey() && amount == o.Cost(o.Remaining());
      if amount > 0.0 && key in wallet.table {
        var frozenActual := wallet.table[key].frozen;
        if frozenActual < amount { amount := frozenActual; }
      }
      assert amount == CancelAmount(wallet.table, o);
      if amount < 0.0 { return Failed(InvalidAmount); }
      orders := orders[id := o.(status := Cancelled)];
      if amount > 0.0 && !refundFails {
        var _ := wallet.Unfreeze(key, amount);
      }
      return Ok(id, Cancelled, o.filled);
    }

    /** The rows the SELECT of cancel-all returns. */
    method SelectRows(user: UserId, filter: Filter) returns (ids: seq<OrderId>)
      ensures ids == SelectedIds(orders, user, filter)
    {
      ids := [];
      for i := 0 to |orders|
        invariant ids == SelectedIds(orders[..i], user, filter)
      {
        assert orders[..i + 1][..i] == orders[..i];
        if Selected(orders[i], user, filter) { ids := ids + [i]; }
      }
      assert orders[..|orders|] == orders;
    }

    /** The UPDATE of cancel-all. */
    method MarkRows(user: UserId, filter: Filter)
      modifies this`orders
      ensures orders == CancelRows(old(orders), user, filter)
    {
      for i := 0 to |orders|
        invariant |orders| == |old(orders)|
        invariant forall j :: 0 <= j < |orders| ==>
                    orders[j] == if j < i then CancelRows(old(orders), user, filter)[j] else old(orders)[j]
      {
        if Selected(orders[i], user, filter) {
          orders := orders[i := orders[i].(status := Cancelled)];
        }
      }
    }

    /** The refunds of cancel-all, from the rows as they were read. */
    method RefundRows(rows: seq<Order>, ids: seq<OrderId>, failing: set<OrderId>)
      requires forall i :: 0 <= i < |ids| ==> ids[i] < |rows|
      modifies wallet
      ensures wallet.table == Refunds(old(wallet.table), rows, ids, failing)
    {
      for i := 0 to |ids|
        invariant Refunds(wallet.table, rows, ids[i..], failing) == Refunds(old(wallet.table), rows, ids, failing)
      {
        var o := rows[ids[i]];
        assert ids[i..][1..] == ids[i + 1..];
        ghost var t := wallet.table;
        ghost var t' := if o.Remaining() <= 0.0 || ids[i] in failing then t
                        else After(UnfreezeMove(t, o.FundingKey(), o.Cost(o.Remaining())), t);
        assert Refunds(t, rows, ids[i..], failing) == Refunds(t', rows, ids[i + 1..], failing);
        var remaining := o.quantity - o.filled;
        if remaining <= 0.0 { assert t' == wallet.table; continue; }
        var key, amount := Key(o.user, o.quote), remaining * o.price;
        if o.side == Sell { key, amount := Key(o.user, o.base), remaining; }
        assert key == o.FundingKey() && amount == o.Cost(o.Remaining());
        if amount <= 0.0 || ids[i] in failing { assert t' == wallet.table; continue; }
        var _ := wallet.Unfreeze(key, amount);
        assert t' == wallet.table;
      }
    }

    method CancelAllOrders(user: UserId, filter: Filter, failing: set<OrderId>) returns (cancelled: nat)
      modifies this, wallet
      ensures (State(), cancelled) == Trading.CancelAllOrders(old(State()), user, filter, failing)
    {
      var rows := orders;
      var ids := SelectRows(user, filter);
      if |ids| == 0 {
        NoneSelected(rows, user, filter);
        return 0;
      }
      MarkRows(user, filter);
      SelectedIdsAre(rows, user, filter);
      assert forall i :: 0 <= i < |ids| ==> ids[i] in ids;
      RefundRows(rows, ids, failing);
      return |ids|;
    }
  }

  lemma OneTradeOn(s: Trading.State, takerId: OrderId, taker: UserId, trades: seq<Trade>, i: nat)
    requires i < |trades|
    ensures RunTrades(s, takerId, taker, trades[i..])
            == RunTrades(RunTrade(s, takerId, taker, trades[i]), takerId, taker, trades[i + 1..])
  {
    assert trades[i..][1..] == trades[i + 1..];
  }

  lemma NoneSelected(orders: seq<Order>, user: UserId, filter: Filter)
    requires SelectedIds(orders, user, filter) == []
    ensures CancelRows(orders, user, filter) == orders
  {
    SelectedIdsAre(orders, user, filter);
    forall i | 0 <= i < |orders| ensures !Selected(orders[i], user, filter) {
      assert i !in SelectedIds(orders, user, filter);
    }
  }
}
