/** What the trading handlers answer and leave behind, said on the fields of the rows, the input and the balances alone. */
module TradingFigures {
  import opened Ledger
  import opened Options
  import opened Trading
  import opened TradingProofs

  // ---------------------------------------------------------------- the settlement loop

  /** A settled trade pays the notional out of the buyer's frozen quote and the quantity out of the seller's frozen base,
      into their available base and quote, whichever side took. */
  lemma SettledInFigures(t: Table, tr: Trade, k: Key)
    requires NonNegative(t) && tr.quantity > 0.0 && tr.price > 0.0
    requires var same := Key(tr.buyUser, tr.quote) == Key(tr.sellUser, tr.base);
             && At(t, Key(tr.buyUser, tr.quote)).frozen
                  >= tr.quantity * tr.price + (if same then tr.quantity else 0.0)
             && At(t, Key(tr.sellUser, tr.base)).frozen
                  >= tr.quantity + (if same then tr.quantity * tr.price else 0.0)
    ensures var t' := SettleTrade(t, tr, if tr.takerSide == Buy then tr.buyUser else tr.sellUser).table;
            && At(t', k).frozen == At(t, k).frozen
                 - (if k == Key(tr.buyUser, tr.quote) then tr.quantity * tr.price else 0.0)
                 - (if k == Key(tr.sellUser, tr.base) then tr.quantity else 0.0)
            && At(t', k).available == At(t, k).available
                 + (if k == Key(tr.buyUser, tr.base) then tr.quantity else 0.0)
                 + (if k == Key(tr.sellUser, tr.quote) then tr.quantity * tr.price else 0.0)
  {
    var x := tr.quantity * tr.price;
    assert Notional(tr) == x;
    hide Notional, SettleTrade, Total;
    SettlementMoves(t, tr, k, "");
  }

  /** One turn writes the maker's fill, its status, and the row of the trade; and no other order row. */
  lemma TurnInFigures(s: State, takerId: OrderId, tr: Trade)
    requires TradeOk(s.orders, takerId, tr) && RowOk(s.orders[tr.buyOrder]) && RowOk(s.orders[tr.sellOrder])
    ensures var s' := RunTrade(s, takerId, if tr.takerSide == Buy then tr.buyUser else tr.sellUser, tr);
            var maker := if tr.takerSide == Buy then tr.sellOrder else tr.buyOrder;
            && maker != takerId && |s'.orders| == |s.orders| && s'.fills == s.fills + [Fill(tr, s.orders[tr.buyOrder].price)]
            && s'.orders[maker] == s.orders[maker].(
                 filled := s.orders[maker].filled + tr.quantity,
                 status := if s.orders[maker].filled + tr.quantity == s.orders[maker].quantity then Filled else Partial)
            && (forall i :: 0 <= i < |s.orders| && i != maker ==> s'.orders[i] == s.orders[i])
            && s'.terms == s.terms
  {
  }

  /** What a list of trades takes from order `i`. */
  function TakenFrom(trades: seq<Trade>, i: OrderId): real {
    if trades == [] then 0.0
    else
      (if trades[0].buyOrder == i || trades[0].sellOrder == i then trades[0].quantity else 0.0) + TakenFrom(trades[1..], i)
  }

  /** The row of an order other than the taker after the loop. */
  predicate Taken(o: Order, o': Order, taken: real) {
    if taken == 0.0 then o' == o
    else o' == o.(filled := o.filled + taken, status := if o.filled + taken == o.quantity then Filled else Partial)
  }

  lemma {:induction false} TakenSign(orders: seq<Order>, takerId: OrderId, trades: seq<Trade>, i: OrderId)
    requires TradesOk(orders, takerId, trades)
    ensures TakenFrom(trades, i) >= 0.0
    decreases |trades|
  {
    if trades == [] {
    } else {
      TakenSign(FillMaker(orders, MakerOf(trades[0], takerId), trades[0].quantity), takerId, trades[1..], i);
    }
  }

  /** What one turn does to the row of any order, in terms of what its trade takes. */
  lemma TurnTakes(s: State, takerId: OrderId, tr: Trade)
    requires takerId < |s.orders| && TradeOk(s.orders, takerId, tr) && forall i :: 0 <= i < |s.orders| ==> RowOk(s.orders[i])
    ensures var s1 := RunTrade(s, takerId, s.orders[takerId].user, tr);
            && |s1.orders| == |s.orders| && s1.orders[takerId] == s.orders[takerId] && s1.terms == s.terms
            && |s1.fills| == |s.fills| + 1 && s1.fills[..|s.fills|] == s.fills && s1.fills[|s.fills|].trade == tr
            && tr.quantity > 0.0
            && (forall i :: 0 <= i < |s.orders| ==> RowOk(s1.orders[i]))
            && (forall i :: 0 <= i < |s.orders| && i != takerId ==>
                  Taken(s.orders[i], s1.orders[i], if tr.buyOrder == i || tr.sellOrder == i then tr.quantity else 0.0))
            && s1.orders == FillMaker(s.orders, MakerOf(tr, takerId), tr.quantity)
  {
    TurnInFigures(s, takerId, tr);
    MakerRow(s.orders, MakerOf(tr, takerId), tr.quantity);
  }

  /** Each trade has got its row in the trades table, after those that were there. */
  predicate Recorded(fills: seq<Fill>, fills': seq<Fill>, trades: seq<Trade>) {
    && |fills'| == |fills| + |trades| && fills'[..|fills|] == fills
    && forall i :: 0 <= i < |trades| ==> fills'[|fills| + i].trade == trades[i]
  }

  /** Every order but the taker has been filled by what the trades took from it. */
  predicate AllTaken(orders: seq<Order>, orders': seq<Order>, takerId: OrderId, trades: seq<Trade>) {
    && |orders'| == |orders|
    && forall i :: 0 <= i < |orders| && i != takerId ==> Taken(orders[i], orders'[i], TakenFrom(trades, i))
  }

  /** The whole loop; the taker's row is left to the handler. */
  lemma {:induction false} LoopInFigures(s: State, takerId: OrderId, trades: seq<Trade>)
    requires takerId < |s.orders| && TradesOk(s.orders, takerId, trades)
    requires forall i :: 0 <= i < |s.orders| ==> RowOk(s.orders[i])
    ensures var s' := RunTrades(s, takerId, s.orders[takerId].user, trades);
            && Recorded(s.fills, s'.fills, trades) && AllTaken(s.orders, s'.orders, takerId, trades)
            && s'.orders[takerId] == s.orders[takerId] && s'.terms == s.terms
    decreases |trades|
  {
    if trades == [] {
    } else {
      var tr, user := trades[0], s.orders[takerId].user;
      assert TradeOk(s.orders, takerId, tr);
      TurnTakes(s, takerId, tr);
      hide RunTrade, TradeOk, RowOk, Taken, Recorded, AllTaken;
      var s1 := RunTrade(s, takerId, user, tr);
      LoopInFigures(s1, takerId, trades[1..]);
      var s' := RunTrades(s1, takerId, user, trades[1..]);
      FillsFollow(s.fills, s1.fills, s'.fills, trades);
      TakenFollow(s.orders, s1.orders, s'.orders, takerId, trades);
    }
  }

  lemma TakenFollow(orders: seq<Order>, one: seq<Order>, all: seq<Order>, takerId: OrderId, trades: seq<Trade>)
    requires trades != [] && |one| == |orders| && trades[0].quantity > 0.0 && TradesOk(one, takerId, trades[1..])
    requires forall i :: 0 <= i < |orders| && i != takerId ==>
               Taken(orders[i], one[i], if trades[0].buyOrder == i || trades[0].sellOrder == i then trades[0].quantity else 0.0)
    requires AllTaken(one, all, takerId, trades[1..])
    ensures AllTaken(orders, all, takerId, trades)
  {
    hide Taken, TradesOk;
    forall i | 0 <= i < |orders| && i != takerId ensures Taken(orders[i], all[i], TakenFrom(trades, i)) {
      TakenSign(one, takerId, trades[1..], i);
      TakenStep(orders[i], one[i], all[i], trades, i);
    }
  }

  lemma TakenStep(o: Order, o1: Order, o': Order, trades: seq<Trade>, i: OrderId)
    requires trades != [] && trades[0].quantity > 0.0 && TakenFrom(trades[1..], i) >= 0.0
    requires Taken(o, o1, if trades[0].buyOrder == i || trades[0].sellOrder == i then trades[0].quantity else 0.0)
    requires Taken(o1, o', TakenFrom(trades[1..], i))
    ensures Taken(o, o', TakenFrom(trades, i))
  {
  }

  lemma FillsFollow(fills: seq<Fill>, one: seq<Fill>, all: seq<Fill>, trades: seq<Trade>)
    requires trades != [] && |one| == |fills| + 1 && one[..|fills|] == fills && one[|fills|].trade == trades[0]
    requires Recorded(one, all, trades[1..])
    ensures Recorded(fills, all, trades)
  {
    assert all[..|fills|] == all[..|one|][..|fills|];
    forall i | 0 <= i < |trades| ensures all[|fills| + i].trade == trades[i] {
      if i == 0 {
        assert all[..|one|][|fills|] == one[|fills|];
      } else {
        assert all[|one| + (i - 1)].trade == trades[1..][i - 1];
      }
    }
  }

  /** What a list of trades takes out of a frozen balance, and what it adds to an available one. */
  function PaidBy(trades: seq<Trade>, k: Key): real {
    if trades == [] then 0.0
    else
      var tr := trades[0];
      (if k == Key(tr.buyUser, tr.quote) then tr.quantity * tr.price else 0.0)
      + (if k == Key(tr.sellUser, tr.base) then tr.quantity else 0.0) + PaidBy(trades[1..], k)
  }

  function ReceivedBy(trades: seq<Trade>, k: Key): real {
    if trades == [] then 0.0
    else
      var tr := trades[0];
      (if k == Key(tr.buyUser, tr.base) then tr.quantity else 0.0)
      + (if k == Key(tr.sellUser, tr.quote) then tr.quantity * tr.price else 0.0) + ReceivedBy(trades[1..], k)
  }

  lemma TurnPays(s: State, others: Holds, takerId: OrderId, tr: Trade, rest: seq<Trade>, k: Key)
    requires RowsOk(s, others) && takerId < |s.orders| && TradeOk(s.orders, takerId, tr) && Volume(rest) >= 0.0
    requires Balanced(s, others, s.orders[takerId], [tr] + rest)
    ensures var t' := RunTrade(s, takerId, s.orders[takerId].user, tr).table;
            && At(t', k).frozen == At(s.table, k).frozen
                 - (if k == Key(tr.buyUser, tr.quote) then tr.quantity * tr.price else 0.0)
                 - (if k == Key(tr.sellUser, tr.base) then tr.quantity else 0.0)
            && At(t', k).available == At(s.table, k).available
                 + (if k == Key(tr.buyUser, tr.base) then tr.quantity else 0.0)
                 + (if k == Key(tr.sellUser, tr.quote) then tr.quantity * tr.price else 0.0)
  {
    FundsAreThere(s, others, takerId, tr, rest, Key(tr.buyUser, tr.quote));
    FundsAreThere(s, others, takerId, tr, rest, Key(tr.sellUser, tr.base));
    var x := tr.quantity * tr.price;
    assert Notional(tr) == x && tr.price > 0.0 && Taker(tr) == s.orders[takerId].user;
    hide Balanced, RowsOk, TradeOk, Notional, SettleTrade, Total;
    assert NonNegative(s.table) by { TableIsGood(s, others); }
    SettledInFigures(s.table, tr, k);
  }

  lemma TableIsGood(s: State, others: Holds)
    requires RowsOk(s, others)
    ensures NonNegative(s.table)
  {
  }

  lemma RestIsOk(s: State, takerId: OrderId, trades: seq<Trade>)
    requires takerId < |s.orders| && trades != [] && TradesOk(s.orders, takerId, trades)
    ensures TradeOk(s.orders, takerId, trades[0])
    ensures TradesOk(RunTrade(s, takerId, s.orders[takerId].user, trades[0]).orders, takerId, trades[1..])
  {
    hide TradeOk, FillMaker, SettleTrade, FillOf;
  }

  lemma TurnGoesOn(s: State, others: Holds, takerId: OrderId, trades: seq<Trade>, k: Key)
    requires RowsOk(s, others) && takerId < |s.orders| && trades != [] && TradesOk(s.orders, takerId, trades)
    requires Balanced(s, others, s.orders[takerId], trades)
    ensures var tr, s1 := trades[0], RunTrade(s, takerId, s.orders[takerId].user, trades[0]);
            && RowsOk(s1, others) && |s1.orders| == |s.orders| && s1.orders[takerId] == s.orders[takerId]
            && TradesOk(s1.orders, takerId, trades[1..]) && Balanced(s1, others, s.orders[takerId], trades[1..])
            && At(s1.table, k).frozen == At(s.table, k).frozen
                 - (if k == Key(tr.buyUser, tr.quote) then tr.quantity * tr.price else 0.0)
                 - (if k == Key(tr.sellUser, tr.base) then tr.quantity else 0.0)
            && At(s1.table, k).available == At(s.table, k).available
                 + (if k == Key(tr.buyUser, tr.base) then tr.quantity else 0.0)
                 + (if k == Key(tr.sellUser, tr.quote) then tr.quantity * tr.price else 0.0)
  {
    hide *;
    var tr, rest := trades[0], trades[1..];
    assert trades == [tr] + rest;
    var s1 := RunTrade(s, takerId, s.orders[takerId].user, tr);
    RestIsOk(s, takerId, trades);
    VolumeSign(s1.orders, takerId, rest);
    TradeKeepsBalance(s, others, takerId, tr, rest);
    TurnPays(s, others, takerId, tr, rest, k);
  }

  lemma InvIsGood(s: State, others: Holds)
    requires Inv(s, others)
    ensures NonNegative(s.table) && forall i :: 0 <= i < |s.orders| ==> RowOk(s.orders[i])
  {
  }

  /** From balanced books every trade of the loop pays and is paid in full. */
  lemma {:induction false} LoopPays(s: State, others: Holds, takerId: OrderId, trades: seq<Trade>, k: Key)
    requires RowsOk(s, others) && takerId < |s.orders| && TradesOk(s.orders, takerId, trades)
    requires Balanced(s, others, s.orders[takerId], trades)
    ensures var t' := RunTrades(s, takerId, s.orders[takerId].user, trades).table;
            && At(t', k).frozen == At(s.table, k).frozen - PaidBy(trades, k)
            && At(t', k).available == At(s.table, k).available + ReceivedBy(trades, k)
    decreases |trades|
  {
    if trades == [] {
    } else {
      hide RunTrade, Balanced, RowsOk, TradesOk;
      TurnGoesOn(s, others, takerId, trades, k);
      LoopPays(RunTrade(s, takerId, s.orders[takerId].user, trades[0]), others, takerId, trades[1..], k);
    }
  }

  // ---------------------------------------------------------------- place

  /** Which answer a placed order gets, the first that applies. One that is not accepted changes nothing, but for the
      freeze after an engine error whose refund fails. */
  lemma PlaceAnswers(s: State, pairs: map<string, Pair>, input: PlaceInput, reply: Reply, refundFails: bool)
    requires NonNegative(s.table) && PlaceOk(s, pairs, input, reply)
    ensures var (s', r) := PlaceOrder(s, pairs, input, reply, refundFails);
            if input.pair !in pairs then s' == s && r == Failed(UnknownPair)
            else if input.price <= 0.0 then s' == s && r == Failed(InvalidPrice)
            else if input.quantity <= 0.0 then s' == s && r == Failed(InvalidQty)
            else
              var key := Key(input.user, if input.side == Sell then pairs[input.pair].base else pairs[input.pair].quote);
              var amount := if input.side == Sell then input.quantity else input.quantity * input.price;
              if key !in s.table || s.table[key].available < amount then s' == s && r == Failed(Insufficient)
              else if reply.Rejected? then
                && r == Failed(Engine)
                && (!refundFails ==> s' == s)
                && (refundFails ==> s' == s.(table := s.table[key := Balance(s.table[key].available - amount,
                                                                             s.table[key].frozen + amount)]))
              else
                r == Ok(|s.orders|, reply.status, reply.filled)
  {
    hide RunTrades, UpdateOrderStatus, ReplyOk;
    if input.pair in pairs && input.price > 0.0 && input.quantity > 0.0 {
      var o := NewOrder(pairs[input.pair], input, 0.0, Open);
      var key := Key(input.user, if input.side == Sell then pairs[input.pair].base else pairs[input.pair].quote);
      var amount := if input.side == Sell then input.quantity else input.quantity * input.price;
      FundingInFigures(o, input.quantity);
      assert o.FundingKey() == key && o.Cost(input.quantity) == amount;
      CostSign(o, input.quantity);
      FrozenAndBack(s.table, key, amount);
      hide FreezeMove, UnfreezeMove;
    }
  }

  /** Freezing and unfreezing the same amount changes nothing. */
  lemma FrozenAndBack(t: Table, k: Key, amount: real)
    requires amount > 0.0
    ensures FreezeMove(t, k, amount).Moved? <==> k in t && t[k].available >= amount
    ensures var m := FreezeMove(t, k, amount);
            m.Moved? ==> m.table == t[k := Balance(t[k].available - amount, t[k].frozen + amount)]
                         && (t[k].frozen >= 0.0 ==> UnfreezeMove(m.table, k, amount) == Moved(t))
  {
  }

  /** What an order of this side and user ties up, and where. */
  lemma FundingInFigures(o: Order, units: real)
    ensures o.FundingKey() == Key(o.user, if o.side == Sell then o.base else o.quote)
    ensures o.Cost(units) == if o.side == Sell then units else units * o.price
  {
  }

  /** An accepted order: its row as it was asked for with the engine's fill and status, its funds frozen, its trades paid. */
  lemma PlacedInFigures(s: State, pairs: map<string, Pair>, input: PlaceInput, reply: Reply, refundFails: bool,
                        others: Holds, k: Key)
    requires Inv(s, others) && PlaceOk(s, pairs, input, reply) && input.pair in pairs
    requires PlaceOrder(s, pairs, input, reply, refundFails).1.Ok?
    ensures reply.Accepted?
    ensures var s', n, pair := PlaceOrder(s, pairs, input, reply, refundFails).0, |s.orders|, pairs[input.pair];
            && |s'.orders| == n + 1
            && s'.orders[n] == Order(input.user, pair.base, pair.quote, input.side, input.price, input.quantity,
                                     reply.filled, reply.status)
            && AllTaken(s.orders, s'.orders[..n], n, reply.trades) && Recorded(s.fills, s'.fills, reply.trades)
            && s'.terms == s.terms[n := Terms(input.price, input.quantity)]
    ensures var t', pair := PlaceOrder(s, pairs, input, reply, refundFails).0.table, pairs[input.pair];
            var mine := k == Key(input.user, if input.side == Sell then pair.base else pair.quote);
            var amount := if input.side == Sell then input.quantity else input.quantity * input.price;
            && At(t', k).frozen == At(s.table, k).frozen + (if mine then amount else 0.0) - PaidBy(reply.trades, k)
            && At(t', k).available
                 == At(s.table, k).available - (if mine then amount else 0.0) + ReceivedBy(reply.trades, k)
  {
    hide *;
    InvIsGood(s, others);
    PlaceAnswers(s, pairs, input, reply, refundFails);
    var pair := pairs[input.pair];
    var o := Order(input.user, pair.base, pair.quote, input.side, input.price, input.quantity, reply.filled, reply.status);
    var terms := s.terms[|s.orders| := Terms(input.price, input.quantity)];
    var t := PlaceRuns(s, pairs, input, reply, refundFails, o, terms);
    FundingInFigures(o, o.quantity);
    InsertedRows(s, others, o, t, terms, reply);
    InsertedMoney(s, others, o, t, terms, reply, k);
  }

  /** An inserted order with its freeze, once its loop has run and its row has got its final fill. */
  lemma InsertedRows(s: State, others: Holds, o: Order, t: Table, terms: map<OrderId, Terms>, reply: Reply)
    requires Inv(s, others) && o.price > 0.0 && o.quantity > 0.0
    requires reply.Accepted? && o.filled == reply.filled && o.status == reply.status
    requires ReplyOk(s.orders + [o], |s.orders|, 0.0, reply)
    requires FreezeMove(s.table, o.FundingKey(), o.Cost(o.quantity)) == Moved(t)
    ensures var n, settled := |s.orders|, RunTrades(State(t, s.orders + [o], s.fills, terms), |s.orders|, o.user, reply.trades);
            var orders' := UpdateOrderStatus(settled.orders, n, reply.status, reply.filled);
            && |orders'| == n + 1 && orders'[n] == o && AllTaken(s.orders, orders'[..n], n, reply.trades)
            && Recorded(s.fills, settled.fills, reply.trades) && settled.terms == terms
  {
    var n, inserted := |s.orders|, State(t, s.orders + [o], s.fills, terms);
    assert TradesOk(inserted.orders, n, reply.trades) && reply.filled == Volume(reply.trades);
    hide TradesOk, Volume, RunTrades, Balanced, RowOk, AllTaken, Recorded, Total, FreezeMove;
    InsertedIsGood(s, others, o, t, terms, reply);
    RowsAreOk(inserted, others);
    hide Inv, RowsOk, ReplyOk;
    PlaceSettles(s, others, o, t, terms, reply);
    LoopInFigures(inserted, n, reply.trades);
    OldRowsTaken(s.orders, o, RunTrades(inserted, n, o.user, reply.trades).orders, reply.trades);
  }

  lemma InsertedMoney(s: State, others: Holds, o: Order, t: Table, terms: map<OrderId, Terms>, reply: Reply, k: Key)
    requires Inv(s, others) && o.price > 0.0 && o.quantity > 0.0
    requires reply.Accepted? && o.filled == reply.filled && o.status == reply.status
    requires ReplyOk(s.orders + [o], |s.orders|, 0.0, reply)
    requires FreezeMove(s.table, o.FundingKey(), o.Cost(o.quantity)) == Moved(t)
    ensures var t' := RunTrades(State(t, s.orders + [o], s.fills, terms), |s.orders|, o.user, reply.trades).table;
            var frozen := if k == o.FundingKey() then o.Cost(o.quantity) else 0.0;
            && At(t', k).frozen == At(s.table, k).frozen + frozen - PaidBy(reply.trades, k)
            && At(t', k).available == At(s.table, k).available - frozen + ReceivedBy(reply.trades, k)
  {
    var inserted := State(t, s.orders + [o], s.fills, terms);
    assert TradesOk(inserted.orders, |s.orders|, reply.trades);
    CostSign(o, o.quantity);
    FrozenAndBack(s.table, o.FundingKey(), o.Cost(o.quantity));
    hide TradesOk, Volume, RunTrades, Balanced, RowsOk, Total, FreezeMove, ReplyOk, Inv;
    InsertedIsGood(s, others, o, t, terms, reply);
    LoopPays(inserted, others, |s.orders|, reply.trades, k);
  }

  lemma InsertedIsGood(s: State, others: Holds, o: Order, t: Table, terms: map<OrderId, Terms>, reply: Reply)
    requires Inv(s, others) && o.price > 0.0 && o.quantity > 0.0
    requires reply.Accepted? && o.filled == reply.filled && o.status == reply.status
    requires ReplyOk(s.orders + [o], |s.orders|, 0.0, reply)
    requires FreezeMove(s.table, o.FundingKey(), o.Cost(o.quantity)) == Moved(t)
    ensures var s' := State(t, s.orders + [o], s.fills, terms);
            RowsOk(s', others) && Balanced(s', others, o, reply.trades)
  {
    hide TradesOk, Volume, Balanced, RowsOk, FreezeMove, Inv;
    VolumeSign(s.orders + [o], |s.orders|, reply.trades);
    InsertBalances(s, others, o, t, terms, reply.trades);
  }

  lemma RowsAreOk(s: State, others: Holds)
    requires RowsOk(s, others)
    ensures forall i :: 0 <= i < |s.orders| ==> RowOk(s.orders[i])
  {
  }

  lemma OldRowsTaken(orders: seq<Order>, o: Order, all: seq<Order>, trades: seq<Trade>)
    requires AllTaken(orders + [o], all, |orders|, trades)
    ensures |all| == |orders| + 1 && AllTaken(orders, all[..|orders|], |orders|, trades)
  {
    hide Taken;
    forall i | 0 <= i < |orders| ensures Taken(orders[i], all[..|orders|][i], TakenFrom(trades, i)) {
      assert Taken((orders + [o])[i], all[i], TakenFrom(trades, i));
    }
  }

  lemma PlaceRuns(s: State, pairs: map<string, Pair>, input: PlaceInput, reply: Reply, refundFails: bool, o: Order,
                  terms: map<OrderId, Terms>) returns (t: Table)
    requires PlaceOk(s, pairs, input, reply) && input.pair in pairs
    requires PlaceOrder(s, pairs, input, reply, refundFails).1.Ok? && reply.Accepted?
    requires var pair := pairs[input.pair];
             o == Order(input.user, pair.base, pair.quote, input.side, input.price, input.quantity, reply.filled,
                        reply.status)
    requires terms == s.terms[|s.orders| := Terms(input.price, input.quantity)]
    ensures o.price > 0.0 && o.quantity > 0.0 && FreezeMove(s.table, o.FundingKey(), o.Cost(o.quantity)) == Moved(t)
    ensures ReplyOk(s.orders + [o], |s.orders|, 0.0, reply)
    ensures var settled := RunTrades(State(t, s.orders + [o], s.fills, terms), |s.orders|, o.user, reply.trades);
            PlaceOrder(s, pairs, input, reply, refundFails).0
              == settled.(orders := UpdateOrderStatus(settled.orders, |s.orders|, reply.status, reply.filled))
  {
    hide RunTrades, UpdateOrderStatus, ReplyOk;
    var draft := NewOrder(pairs[input.pair], input, 0.0, Open);
    assert o == draft.(filled := reply.filled, status := reply.status);
    assert o.FundingKey() == draft.FundingKey() && o.Cost(o.quantity) == draft.Cost(input.quantity);
    t := FreezeMove(s.table, o.FundingKey(), o.Cost(o.quantity)).table;
  }

  // ---------------------------------------------------------------- amend

  /** What an amended order would tie up on top of what it does: its remaining quantity at the new terms less its
      remaining quantity at the old ones. */
  function MoreTiedUp(o: Order, price: real, quantity: real): real {
    if o.side == Sell then (quantity - o.filled) - (o.quantity - o.filled)
    else (quantity - o.filled) * price - (o.quantity - o.filled) * o.price
  }

  /** Which answer an amend gets, the first that applies. A zero price or quantity leaves that term as it is. */
  lemma AmendAnswers(s: State, input: AmendInput, reply: Reply, faults: Faults)
    requires AmendOk(s, input, reply)
    ensures var (s', r) := AmendOrder(s, input, reply, faults);
            if input.price == 0.0 && input.quantity == 0.0 then s' == s && r == Failed(NothingToAmend)
            else if input.id >= |s.orders| then s' == s && r == Failed(NotFound)
            else
              var o := s.orders[input.id];
              var price := if input.price != 0.0 then input.price else o.price;
              var quantity := if input.quantity != 0.0 then input.quantity else o.quantity;
              var key := Key(o.user, if o.side == Sell then o.base else o.quote);
              var diff := MoreTiedUp(o, price, quantity);
              if o.user != input.user then s' == s && r == Failed(NotOwner)
              else if o.status == Filled || o.status == Cancelled then s' == s && r == Failed(AlreadyClosed)
              else if price <= 0.0 || quantity <= 0.0 then s' == s && r == Failed(InvalidPrice)
              else if quantity < o.filled then s' == s && r == Failed(InvalidQty)
              else if price == o.price && quantity == o.quantity then
                s' == s && r == if faults.commit then Failed(CommitFailed) else Ok(input.id, o.status, o.filled)
              else if reply.Rejected? then s' == s && r == Failed(Engine)
              else if || (faults.wallet && diff != 0.0)
                      || (diff > 0.0 && (key !in s.table || s.table[key].available < diff))
                      || (diff < 0.0 && (key !in s.table || s.table[key].frozen < -diff))
              then r == Failed(WalletFailed)
              else if faults.row then r == Failed(RowFailed)
              else if faults.commit then r == Failed(CommitFailed)
              else r == Ok(input.id, reply.status, reply.filled)
  {
    hide RunTrades, UpdateOrderStatus, ReplyOk;
    if input.id < |s.orders| {
      var o := s.orders[input.id];
      DiffInFigures(o, input);
      hide AmendDiff, MoreTiedUp;
    }
  }

  lemma DiffInFigures(o: Order, input: AmendInput)
    ensures var price := if input.price != 0.0 then input.price else o.price;
            var quantity := if input.quantity != 0.0 then input.quantity else o.quantity;
            && AmendDiff(o, input) == MoreTiedUp(o, price, quantity)
            && AmendedRow(o, input) == o.(price := price, quantity := quantity)
  {
  }

  /** An order can be shrunk down to what is filled of it, and no further. */
  lemma InvalidQtyIff(s: State, input: AmendInput, reply: Reply, faults: Faults)
    requires AmendOk(s, input, reply) && forall i :: 0 <= i < |s.orders| ==> RowOk(s.orders[i])
    ensures AmendOrder(s, input, reply, faults).1 == Failed(InvalidQty) <==>
            && input.id < |s.orders|
            && var o := s.orders[input.id];
            && o.user == input.user && (o.status == Open || o.status == Partial)
            && input.price >= 0.0 && 0.0 < input.quantity < o.filled
  {
    AmendAnswers(s, input, reply, faults);
    hide AmendOrder, AmendOk;
  }

  /** An amend that is answered with Ok and changes the terms: its row at the new terms with the engine's fill and status,
      the difference frozen or released, its trades paid. */
  lemma AmendedInFigures(s: State, input: AmendInput, reply: Reply, faults: Faults, others: Holds, k: Key)
    requires Inv(s, others) && AmendOk(s, input, reply) && input.id < |s.orders|
    requires AmendOrder(s, input, reply, faults).1.Ok?
    ensures var s', id, o := AmendOrder(s, input, reply, faults).0, input.id, s.orders[input.id];
            var price := if input.price != 0.0 then input.price else o.price;
            var quantity := if input.quantity != 0.0 then input.quantity else o.quantity;
            if price == o.price && quantity == o.quantity then s' == s
            else
              && reply.Accepted? && |s'.orders| == |s.orders|
              && s'.orders[id] == Order(o.user, o.base, o.quote, o.side, price, quantity, reply.filled, reply.status)
              && AllTaken(s.orders, s'.orders, id, reply.trades) && Recorded(s.fills, s'.fills, reply.trades)
              && s'.terms == s.terms[id := Terms(price, quantity)]
    ensures var t', o := AmendOrder(s, input, reply, faults).0.table, s.orders[input.id];
            var price := if input.price != 0.0 then input.price else o.price;
            var quantity := if input.quantity != 0.0 then input.quantity else o.quantity;
            var mine := k == Key(o.user, if o.side == Sell then o.base else o.quote);
            price != o.price || quantity != o.quantity ==>
              var frozen := if mine then MoreTiedUp(o, price, quantity) else 0.0;
              && At(t', k).frozen == At(s.table, k).frozen + frozen - PaidBy(reply.trades, k)
              && At(t', k).available == At(s.table, k).available - frozen + ReceivedBy(reply.trades, k)
  {
    hide *;
    AmendAnswers(s, input, reply, faults);
    var o := s.orders[input.id];
    var price := if input.price != 0.0 then input.price else o.price;
    var quantity := if input.quantity != 0.0 then input.quantity else o.quantity;
    if price != o.price || quantity != o.quantity {
      var n := o.(price := price, quantity := quantity);
      var t := AmendRuns(s, input, reply, faults, n);
      var terms := s.terms[input.id := Terms(price, quantity)];
      FundingInFigures(o, 0.0);
      RewrittenRows(s, others, input.id, n, t, terms, reply);
      RewrittenMoney(s, others, input.id, n, t, terms, reply, k);
    }
  }

  lemma AmendRuns(s: State, input: AmendInput, reply: Reply, faults: Faults, n: Order) returns (t: Table)
    requires AmendOk(s, input, reply) && input.id < |s.orders| && AmendOrder(s, input, reply, faults).1.Ok?
    requires n != s.orders[input.id]
    requires n == s.orders[input.id].(
                    price := if input.price != 0.0 then input.price else s.orders[input.id].price,
                    quantity := if input.quantity != 0.0 then input.quantity else s.orders[input.id].quantity)
    ensures reply.Accepted? && s.orders[input.id].user == input.user && s.orders[input.id].Live()
    ensures n.price > 0.0 && n.quantity > 0.0 && n.filled <= n.quantity
    ensures ReplyOk(s.orders[input.id := n], input.id, n.filled, reply)
    ensures var o := s.orders[input.id];
            ShiftMove(s.table, o.FundingKey(), MoreTiedUp(o, n.price, n.quantity)) == Moved(t)
    ensures var written := State(t, s.orders[input.id := n], s.fills, s.terms[input.id := Terms(n.price, n.quantity)]);
            var settled := RunTrades(written, input.id, n.user, reply.trades);
            AmendOrder(s, input, reply, faults).0
              == settled.(orders := UpdateOrderStatus(settled.orders, input.id, reply.status, reply.filled))
  {
    hide RunTrades, UpdateOrderStatus, ReplyOk;
    var o := s.orders[input.id];
    DiffInFigures(o, input);
    assert AmendedRow(o, input) == n;
    hide AmendDiff, MoreTiedUp;
    t := ShiftMove(s.table, o.FundingKey(), AmendDiff(o, input)).table;
  }

  /** What an amend's loop starts from once the difference has been moved, were the final fill written already. */
  lemma RewrittenBalances(s: State, others: Holds, id: OrderId, n: Order, t: Table, terms: map<OrderId, Terms>, reply: Reply)
    requires Inv(s, others) && id < |s.orders| && s.orders[id].Live()
    requires n == s.orders[id].(price := n.price, quantity := n.quantity)
    requires n.price > 0.0 && n.quantity > 0.0 && n.filled <= n.quantity
    requires reply.Accepted? && ReplyOk(s.orders[id := n], id, n.filled, reply)
    requires var o := s.orders[id]; ShiftMove(s.table, o.FundingKey(), MoreTiedUp(o, n.price, n.quantity)) == Moved(t)
    ensures var v := n.(filled := reply.filled, status := reply.status);
            var final := State(t, s.orders[id := v], s.fills, terms);
            RowsOk(final, others) && Balanced(final, others, v, reply.trades)
  {
    var v := n.(filled := reply.filled, status := reply.status);
    FinalRowIsOk(s, others, id, n, reply);
    TiedUpIs(s.orders[id], n);
    hide *;
    AmendBalances(s, others, id, n, v, t, reply.trades);
    SameBalance(s.(table := t, orders := s.orders[id := v]), State(t, s.orders[id := v], s.fills, terms), others, v,
                reply.trades);
  }

  lemma TiedUpIs(o: Order, n: Order)
    requires n == o.(price := n.price, quantity := n.quantity)
    ensures n.FundingKey() == o.FundingKey()
    ensures n.Cost(n.Remaining()) - o.Cost(o.Remaining()) == MoreTiedUp(o, n.price, n.quantity)
  {
    FundingInFigures(o, o.quantity - o.filled);
    FundingInFigures(n, n.quantity - n.filled);
  }

  lemma FinalRowIsOk(s: State, others: Holds, id: OrderId, n: Order, reply: Reply)
    requires Inv(s, others) && id < |s.orders| && s.orders[id].Live()
    requires n == s.orders[id].(price := n.price, quantity := n.quantity)
    requires n.price > 0.0 && n.quantity > 0.0 && n.filled <= n.quantity
    requires reply.Accepted? && ReplyOk(s.orders[id := n], id, n.filled, reply)
    ensures var v := n.(filled := reply.filled, status := reply.status);
            && RowOk(v) && v.filled == n.filled + Volume(reply.trades) && v.status != Cancelled && n.Live()
  {
    RowIsOk(s, others, id);
    hide Inv, TradesOk, Volume;
    VolumeSign(s.orders[id := n], id, reply.trades);
  }

  /** And that it makes no difference to the loop whether it is. */
  lemma RewrittenRuns(orders: seq<Order>, fills: seq<Fill>, id: OrderId, n: Order, t: Table, terms: map<OrderId, Terms>,
                      reply: Reply)
    requires id < |orders| && reply.Accepted? && ReplyOk(orders[id := n], id, n.filled, reply)
    requires n.filled >= 0.0
    ensures var v := n.(filled := reply.filled, status := reply.status);
            var settled := RunTrades(State(t, orders[id := n], fills, terms), id, n.user, reply.trades);
            && |settled.orders| == |orders|
            && TradesOk(orders[id := v], id, reply.trades)
            && RunTrades(State(t, orders[id := v], fills, terms), id, n.user, reply.trades)
                 == settled.(orders := settled.orders[id := v])
            && UpdateOrderStatus(settled.orders, id, reply.status, reply.filled) == settled.orders[id := v]
  {
    var v, written := n.(filled := reply.filled, status := reply.status), State(t, orders[id := n], fills, terms);
    assert TradesOk(written.orders, id, reply.trades) && reply.filled == n.filled + Volume(reply.trades);
    hide RunTrades, TradesOk, Volume;
    VolumeSign(written.orders, id, reply.trades);
    LoopIgnoresTakerFill(written, id, reply.trades, v);
    assert written.orders[id := v] == orders[id := v];
  }

  lemma RowIsOk(s: State, others: Holds, id: OrderId)
    requires Inv(s, others) && id < |s.orders|
    ensures RowOk(s.orders[id])
  {
  }

  lemma SameBalance(s: State, s': State, others: Holds, taker: Order, trades: seq<Trade>)
    requires RowsOk(s, others) && Balanced(s, others, taker, trades)
    requires s'.table == s.table && s'.orders == s.orders && s'.fills == s.fills
    ensures RowsOk(s', others) && Balanced(s', others, taker, trades)
  {
    forall k: Key ensures BalancedAt(s', others, taker, trades, k) { assert BalancedAt(s, others, taker, trades, k); }
  }

  lemma RewrittenRows(s: State, others: Holds, id: OrderId, n: Order, t: Table, terms: map<OrderId, Terms>, reply: Reply)
    requires Inv(s, others) && id < |s.orders| && s.orders[id].Live()
    requires n == s.orders[id].(price := n.price, quantity := n.quantity)
    requires n.price > 0.0 && n.quantity > 0.0 && n.filled <= n.quantity
    requires reply.Accepted? && ReplyOk(s.orders[id := n], id, n.filled, reply)
    requires var o := s.orders[id]; ShiftMove(s.table, o.FundingKey(), MoreTiedUp(o, n.price, n.quantity)) == Moved(t)
    ensures var settled := RunTrades(State(t, s.orders[id := n], s.fills, terms), id, n.user, reply.trades);
            var orders' := UpdateOrderStatus(settled.orders, id, reply.status, reply.filled);
            && |orders'| == |s.orders| && orders'[id] == n.(filled := reply.filled, status := reply.status)
            && AllTaken(s.orders, orders', id, reply.trades) && Recorded(s.fills, settled.fills, reply.trades)
            && settled.terms == terms
  {
    hide RunTrades, TradesOk, ShiftMove, Inv, Balanced, MoreTiedUp, ReplyOk, RowsOk, UpdateOrderStatus, Recorded, Taken,
      TakenFrom;
    RowIsOk(s, others, id);
    assert n.filled >= 0.0;
    RewrittenBalances(s, others, id, n, t, terms, reply);
    RewrittenRuns(s.orders, s.fills, id, n, t, terms, reply);
    hide RowOk;
    var v := n.(filled := reply.filled, status := reply.status);
    var final := State(t, s.orders[id := v], s.fills, terms);
    RowsAreOk(final, others);
    LoopInFigures(final, id, reply.trades);
  }

  lemma RewrittenMoney(s: State, others: Holds, id: OrderId, n: Order, t: Table, terms: map<OrderId, Terms>, reply: Reply,
                       k: Key)
    requires Inv(s, others) && id < |s.orders| && s.orders[id].Live()
    requires n == s.orders[id].(price := n.price, quantity := n.quantity)
    requires n.price > 0.0 && n.quantity > 0.0 && n.filled <= n.quantity
    requires reply.Accepted? && ReplyOk(s.orders[id := n], id, n.filled, reply)
    requires var o := s.orders[id]; ShiftMove(s.table, o.FundingKey(), MoreTiedUp(o, n.price, n.quantity)) == Moved(t)
    ensures var t' := RunTrades(State(t, s.orders[id := n], s.fills, terms), id, n.user, reply.trades).table;
            var o := s.orders[id];
            var frozen := if k == o.FundingKey() then MoreTiedUp(o, n.price, n.quantity) else 0.0;
            && At(t', k).frozen == At(s.table, k).frozen + frozen - PaidBy(reply.trades, k)
            && At(t', k).available == At(s.table, k).available - frozen + ReceivedBy(reply.trades, k)
  {
    var o := s.orders[id];
    ShiftInFigures(s.table, o.FundingKey(), MoreTiedUp(o, n.price, n.quantity), k);
    hide RunTrades, TradesOk, ShiftMove, Inv, Balanced, MoreTiedUp, ReplyOk, RowsOk, UpdateOrderStatus;
    RowIsOk(s, others, id);
    assert n.filled >= 0.0;
    RewrittenBalances(s, others, id, n, t, terms, reply);
    RewrittenRuns(s.orders, s.fills, id, n, t, terms, reply);
    hide RowOk;
    var v := n.(filled := reply.filled, status := reply.status);
    LoopPays(State(t, s.orders[id := v], s.fills, terms), others, id, reply.trades, k);
  }

  lemma ShiftInFigures(t: Table, key: Key, diff: real, k: Key)
    requires ShiftMove(t, key, diff).Moved?
    ensures var t' := ShiftMove(t, key, diff).table;
            && At(t', k).frozen == At(t, k).frozen + (if k == key then diff else 0.0)
            && At(t', k).available == At(t, k).available - (if k == key then diff else 0.0)
  {
  }

  // ---------------------------------------------------------------- cancel and cancel-all

  /** Which answer a cancel gets, the first that applies, and what it does to the row and the balance, from any balances:
      what the row ties up is released, or all that is frozen if that is less. */
  lemma CancelInFigures(s: State, id: OrderId, user: UserId, refundFails: bool)
    ensures var (s', r) := CancelOrder(s, id, user, refundFails);
            if id >= |s.orders| then s' == s && r == Failed(NotFound)
            else if s.orders[id].user != user then s' == s && r == Failed(NotOwner)
            else if s.orders[id].status == Filled || s.orders[id].status == Cancelled then s' == s && r == Failed(AlreadyClosed)
            else
              var o := s.orders[id];
              var key := Key(user, if o.side == Sell then o.base else o.quote);
              var due := if o.side == Sell then o.quantity - o.filled else (o.quantity - o.filled) * o.price;
              var amount := if due > 0.0 && key in s.table && s.table[key].frozen < due then s.table[key].frozen else due;
              if amount < 0.0 then s' == s && r == Failed(InvalidAmount)
              else
                && r == Ok(id, Cancelled, o.filled)
                && s'.orders == s.orders[id := o.(status := Cancelled)] && s'.fills == s.fills && s'.terms == s.terms
                && s'.table == if refundFails || amount == 0.0 || key !in s.table then s.table
                               else s.table[key := Balance(s.table[key].available + amount, s.table[key].frozen - amount)]
  {
    if id < |s.orders| {
      var o := s.orders[id];
      FundingInFigures(o, o.quantity - o.filled);
      hide *;
      CancelAs(s, id, user, refundFails, Key(o.user, if o.side == Sell then o.base else o.quote),
               if o.side == Sell then o.quantity - o.filled else (o.quantity - o.filled) * o.price);
    }
  }

  lemma CancelAs(s: State, id: OrderId, user: UserId, refundFails: bool, key: Key, due: real)
    requires id < |s.orders| && key == s.orders[id].FundingKey()
    requires due == s.orders[id].Cost(s.orders[id].quantity - s.orders[id].filled)
    ensures var (s', r) := CancelOrder(s, id, user, refundFails);
            var o := s.orders[id];
            if o.user != user then s' == s && r == Failed(NotOwner)
            else if o.status == Filled || o.status == Cancelled then s' == s && r == Failed(AlreadyClosed)
            else
              var amount := if due > 0.0 && key in s.table && s.table[key].frozen < due then s.table[key].frozen else due;
              if amount < 0.0 then s' == s && r == Failed(InvalidAmount)
              else
                && r == Ok(id, Cancelled, o.filled)
                && s'.orders == s.orders[id := o.(status := Cancelled)] && s'.fills == s.fills && s'.terms == s.terms
                && s'.table == if refundFails || amount == 0.0 || key !in s.table then s.table
                               else s.table[key := Balance(s.table[key].available + amount, s.table[key].frozen - amount)]
  {
    var amount := if due > 0.0 && key in s.table && s.table[key].frozen < due then s.table[key].frozen else due;
    hide Order.Cost, Order.FundingKey;
    assert CancelAmount(s.table, s.orders[id]) == amount;
    RefundInFigures(s.table, key, amount);
    hide CancelAmount, UnfreezeMove;
  }

  /** A refund of no more than is frozen goes through, unless there is no balance row or nothing to refund. */
  lemma RefundInFigures(t: Table, k: Key, amount: real)
    requires k in t && amount > 0.0 ==> t[k].frozen >= amount
    ensures amount >= 0.0 ==>
              After(UnfreezeMove(t, k, amount), t) ==
                if amount == 0.0 || k !in t then t else t[k := Balance(t[k].available + amount, t[k].frozen - amount)]
  {
  }

  /** Cancel-all cancels the open and partial rows of the user, of the pair if one is given, and no other row; it answers
      how many there were. */
  lemma CancelAllInFigures(s: State, user: UserId, filter: Filter, failing: set<OrderId>)
    ensures var (s', count) := CancelAllOrders(s, user, filter, failing);
            && |s'.orders| == |s.orders| && s'.fills == s.fills && s'.terms == s.terms
            && (forall i :: 0 <= i < |s.orders| ==>
                  var o := s.orders[i];
                  s'.orders[i] ==
                    if && o.user == user && (o.status == Open || o.status == Partial)
                       && (filter.AnyPair? || (o.base == filter.pair.base && o.quote == filter.pair.quote))
                    then Order(o.user, o.base, o.quote, o.side, o.price, o.quantity, o.filled, Cancelled)
                    else o)
            && count == |set i: nat | i < |s.orders| && s'.orders[i] != s.orders[i]|
  {
    var (s', count) := CancelAllOrders(s, user, filter, failing);
    SelectedIdsAre(s.orders, user, filter);
    var ids := SelectedIds(s.orders, user, filter);
    var changed := set i: nat | i < |s.orders| && s'.orders[i] != s.orders[i];
    assert changed == set id: nat | id in ids;
    AscendingCount(ids);
  }

  lemma {:induction false} AscendingCount(ids: seq<OrderId>)
    requires Ascending(ids)
    ensures |set id: nat | id in ids| == |ids|
  {
    if ids == [] {
    } else {
      var n := |ids| - 1;
      AscendingCount(ids[..n]);
      assert ids == ids[..n] + [ids[n]];
      assert (set id: nat | id in ids) == (set id: nat | id in ids[..n]) + {ids[n]};
      assert ids[n] !in ids[..n];
    }
  }

  /** No open or partial order of the user is left: none at all without a pair, none of the pair with one. */
  lemma NoneLeftOpen(s: State, user: UserId, filter: Filter, failing: set<OrderId>, i: OrderId)
    requires i < |s.orders|
    ensures var o := CancelAllOrders(s, user, filter, failing).0.orders[i];
            o.user == user && (filter.AnyPair? || (o.base == filter.pair.base && o.quote == filter.pair.quote)) ==>
              o.status == Filled || o.status == Cancelled
  {
    CancelAllInFigures(s, user, filter, failing);
    hide CancelAllOrders;
  }

  /** What those rows tie up on one balance, without the ones whose refund fails. */
  function Due(orders: seq<Order>, user: UserId, filter: Filter, failing: set<OrderId>, k: Key): real {
    if orders == [] then 0.0
    else
      var n := |orders| - 1;
      var o := orders[n];
      var refunded := && o.user == user && (o.status == Open || o.status == Partial) && n !in failing
                      && (filter.AnyPair? || (o.base == filter.pair.base && o.quote == filter.pair.quote))
                      && k == Key(user, if o.side == Sell then o.base else o.quote);
      Due(orders[..n], user, filter, failing, k)
      + if !refunded then 0.0
        else if o.side == Sell then o.quantity - o.filled else (o.quantity - o.filled) * o.price
  }

  /** From balanced books exactly that moves from frozen to available. */
  lemma CancelAllPays(s: State, user: UserId, filter: Filter, failing: set<OrderId>, others: Holds, k: Key)
    requires Inv(s, others)
    ensures var t' := CancelAllOrders(s, user, filter, failing).0.table;
            && At(t', k).frozen == At(s.table, k).frozen - Due(s.orders, user, filter, failing, k)
            && At(t', k).available == At(s.table, k).available + Due(s.orders, user, filter, failing, k)
  {
    CancelAllReleases(s, user, filter, failing, others);
    assert ReleasedAt(s, CancelAllOrders(s, user, filter, failing).0, failing, k);
    DueIsReleased(s.orders, user, filter, failing, k);
    hide CancelAllOrders, Refundable, Due, CancelRows, Inv;
  }

  lemma {:induction false} DueIsReleased(orders: seq<Order>, user: UserId, filter: Filter, failing: set<OrderId>, k: Key)
    ensures Refundable(orders, failing, k) - Refundable(CancelRows(orders, user, filter), failing, k)
         == Due(orders, user, filter, failing, k)
    decreases |orders|
  {
    if orders == [] {
    } else {
      var n := |orders| - 1;
      var init, last := orders[..n], orders[n];
      assert orders == init + [last];
      DueIsReleased(init, user, filter, failing, k);
      CancelRowsLast(init, last, user, filter);
      CancelRowsLength(init, user, filter);
      MarkingFrees(last, user, filter, k);
      FundingInFigures(last, last.quantity - last.filled);
      hide CancelRows, Marked;
      RefundableAppend(init, last, failing, k);
      RefundableAppend(CancelRows(init, user, filter), Marked(last, user, filter), failing, k);
      hide Refundable;
    }
  }
}
