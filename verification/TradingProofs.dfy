/** What every run of the trading handlers keeps. */
module TradingProofs {
  import opened Ledger
  import opened Options
  import opened Trading

  /** What one row reserves on one balance: its remaining cost while it is live. */
  function Reservation(o: Order, k: Key): real {
    if o.Live() && o.FundingKey() == k then o.Cost(o.Remaining()) else 0.0
  }

  function Reserved(orders: seq<Order>, k: Key): real {
    if orders == [] then 0.0
    else Reserved(orders[..|orders| - 1], k) + Reservation(orders[|orders| - 1], k)
  }

  /** The price improvement of one trade: what the buyer froze for it and did not pay. */
  function Improvement(f: Fill, k: Key): real {
    if k == Key(f.trade.buyUser, f.trade.quote) then f.trade.quantity * (f.limit - f.trade.price) else 0.0
  }

  function Residue(fills: seq<Fill>, k: Key): real {
    if fills == [] then 0.0
    else Residue(fills[..|fills| - 1], k) + Improvement(fills[|fills| - 1], k)
  }

  /** What the trades still to be settled will take out of the taker's reservation. */
  function Pending(taker: Order, trades: seq<Trade>, k: Key): real {
    if k == taker.FundingKey() then taker.Cost(Volume(trades)) else 0.0
  }

  ghost predicate RowOk(o: Order) {
    && o.price > 0.0 && o.quantity > 0.0 && 0.0 <= o.filled <= o.quantity
    && (o.status == Filled ==> o.filled == o.quantity)
  }

  ghost predicate FillOk(f: Fill) {
    f.trade.quantity > 0.0 && f.trade.price <= f.limit
  }

  ghost predicate RowsOk(s: State, others: Holds) {
    && NonNegative(s.table)
    && (forall i :: 0 <= i < |s.orders| ==> RowOk(s.orders[i]))
    && (forall i :: 0 <= i < |s.fills| ==> FillOk(s.fills[i]))
    && (forall k <- others :: others[k] >= 0.0)
  }

  ghost function Owed(s: State, others: Holds, k: Key): real {
    Reserved(s.orders, k) + Residue(s.fills, k) + Held(others, k)
  }

  /** Every frozen balance is exactly the open reservations, plus the price improvement so far, plus the other
      services' holds, plus what the rest of the settlement loop of `taker` is about to debit. */
  ghost predicate Balanced(s: State, others: Holds, taker: Order, rest: seq<Trade>) {
    forall k: Key :: BalancedAt(s, others, taker, rest, k)
  }

  ghost predicate BalancedAt(s: State, others: Holds, taker: Order, rest: seq<Trade>, k: Key) {
    At(s.table, k).frozen == Owed(s, others, k) + Pending(taker, rest, k)
  }

  /** The invariant between handlers. */
  ghost predicate Inv(s: State, others: Holds) {
    && RowsOk(s, others)
    && forall k: Key :: InvAt(s, others, k)
  }

  ghost predicate InvAt(s: State, others: Holds, k: Key) {
    At(s.table, k).frozen == Owed(s, others, k)
  }

  // ---------------------------------------------------------------- sums over rows

  lemma {:induction false} ReservedUpdate(orders: seq<Order>, i: nat, o: Order, k: Key)
    requires i < |orders|
    ensures Reserved(orders[i := o], k) == Reserved(orders, k) - Reservation(orders[i], k) + Reservation(o, k)
  {
    var n := |orders| - 1;
    if i == n {
      assert orders[i := o][..n] == orders[..n];
    } else {
      assert orders[i := o][..n] == orders[..n][i := o];
      ReservedUpdate(orders[..n], i, o, k);
    }
  }

  lemma ReservedAppend(orders: seq<Order>, o: Order, k: Key)
    ensures Reserved(orders + [o], k) == Reserved(orders, k) + Reservation(o, k)
  {
    assert (orders + [o])[..|orders|] == orders;
  }

  lemma CostSign(o: Order, units: real)
    requires o.price > 0.0 && units >= 0.0
    ensures o.Cost(units) >= 0.0
    ensures units > 0.0 ==> o.Cost(units) > 0.0
  {
  }

  lemma {:induction false} ReservedBounds(orders: seq<Order>, k: Key)
    requires forall i :: 0 <= i < |orders| ==> RowOk(orders[i])
    ensures Reserved(orders, k) >= 0.0
    ensures forall i :: 0 <= i < |orders| ==> 0.0 <= Reservation(orders[i], k) <= Reserved(orders, k)
  {
    if orders == [] {
    } else {
      var n := |orders| - 1;
      ReservedBounds(orders[..n], k);
      CostSign(orders[n], orders[n].Remaining());
      forall i | 0 <= i < |orders|
        ensures 0.0 <= Reservation(orders[i], k) <= Reserved(orders, k)
      {
        if i < n { assert orders[..n][i] == orders[i]; }
      }
    }
  }

  lemma ResidueAppend(fills: seq<Fill>, f: Fill, k: Key)
    ensures Residue(fills + [f], k) == Residue(fills, k) + Improvement(f, k)
  {
    assert (fills + [f])[..|fills|] == fills;
  }

  lemma ImprovementSign(f: Fill, k: Key)
    requires FillOk(f)
    ensures Improvement(f, k) >= 0.0
    ensures k == Key(f.trade.buyUser, f.trade.quote) ==>
              (Improvement(f, k) == 0.0 <==> f.trade.price == f.limit)
  {
  }

  lemma {:induction false} ResidueSign(fills: seq<Fill>, k: Key)
    requires forall i :: 0 <= i < |fills| ==> FillOk(fills[i])
    ensures Residue(fills, k) >= 0.0
  {
    if fills == [] {
    } else {
      ResidueSign(fills[..|fills| - 1], k);
      ImprovementSign(fills[|fills| - 1], k);
    }
  }

  lemma OwedBounds(s: State, others: Holds, k: Key)
    requires RowsOk(s, others)
    ensures Owed(s, others, k) >= Reserved(s.orders, k) >= 0.0
    ensures forall i :: 0 <= i < |s.orders| ==> Owed(s, others, k) >= Reservation(s.orders[i], k)
  {
    ReservedBounds(s.orders, k);
    ResidueSign(s.fills, k);
  }

  // ---------------------------------------------------------------- one settlement

  function On(k: Key, key: Key, amount: real): real {
    if k == key then amount else 0.0
  }

  function OnAsset(a: Asset, key: Key, amount: real): real {
    if key.asset == a then amount else 0.0
  }

  lemma DebitEffect(t: Table, key: Key, amount: real, k: Key, a: Asset) returns (t': Table)
    requires NonNegative(t) && 0.0 < amount <= At(t, key).frozen
    ensures DebitFrozenMove(t, key, amount) == Moved(t') && NonNegative(t')
    ensures At(t', k) == Balance(At(t, k).available, At(t, k).frozen - On(k, key, amount))
    ensures Total(t', a) == Total(t, a) - OnAsset(a, key, amount)
  {
    t' := DebitFrozenMove(t, key, amount).table;
    TotalUpdate(t, key, t'[key], a);
  }

  lemma CreditEffect(t: Table, key: Key, amount: real, k: Key, a: Asset) returns (t': Table)
    requires NonNegative(t) && 0.0 < amount
    ensures CreditMove(t, key, amount) == Moved(t') && NonNegative(t')
    ensures At(t', k) == Balance(At(t, k).available + On(k, key, amount), At(t, k).frozen)
    ensures Total(t', a) == Total(t, a) + OnAsset(a, key, amount)
  {
    t' := CreditMove(t, key, amount).table;
    TotalUpdate(t, key, t'[key], a);
  }

  /** Debit, credit, debit, credit: the shape of every settlement. */
  lemma FourCalls(t: Table, k1: Key, x1: real, k2: Key, x2: real, k3: Key, x3: real, k4: Key, x4: real, k: Key, a: Asset)
    requires NonNegative(t) && x1 > 0.0 && x2 > 0.0 && x3 > 0.0 && x4 > 0.0
    requires At(t, k1).frozen >= x1 && At(t, k3).frozen >= x3 + On(k3, k1, x1)
    ensures var r := PerformAll(t, [DebitFrozen(k1, x1), Credit(k2, x2), DebitFrozen(k3, x3), Credit(k4, x4)]);
            && r.ok && NonNegative(r.table)
            && At(r.table, k) == Balance(At(t, k).available + On(k, k2, x2) + On(k, k4, x4),
                                         At(t, k).frozen - On(k, k1, x1) - On(k, k3, x3))
            && Total(r.table, a) == Total(t, a) - OnAsset(a, k1, x1) + OnAsset(a, k2, x2)
                                    - OnAsset(a, k3, x3) + OnAsset(a, k4, x4)
  {
    var c := [DebitFrozen(k1, x1), Credit(k2, x2), DebitFrozen(k3, x3), Credit(k4, x4)];
    var t1 := DebitEffect(t, k1, x1, k, a);
    var t2 := CreditEffect(t1, k2, x2, k, a);
    assert At(t2, k3).frozen >= x3;
    var t3 := DebitEffect(t2, k3, x3, k, a);
    var t4 := CreditEffect(t3, k4, x4, k, a);
    assert c[1..] == [c[1]] + c[2..] && c[2..] == [c[2]] + c[3..] && c[3..] == [c[3]] + [];
    assert PerformAll(t3, c[3..]) == PerformAll(t4, []);
    assert PerformAll(t2, c[2..]) == PerformAll(t3, c[3..]);
    assert PerformAll(t1, c[1..]) == PerformAll(t2, c[2..]);
  }

  function BuyKey(tr: Trade): Key { Key(tr.buyUser, tr.quote) }
  function SellKey(tr: Trade): Key { Key(tr.sellUser, tr.base) }
  function Notional(tr: Trade): real { tr.quantity * tr.price }

  function Taker(tr: Trade): UserId {
    if tr.takerSide == Buy then tr.buyUser else tr.sellUser
  }

  /** Who pays and who receives in a trade, whichever side took it; nobody's money is created or lost. */
  lemma SettlementMoves(t: Table, tr: Trade, k: Key, a: Asset)
    requires NonNegative(t) && tr.quantity > 0.0 && tr.price > 0.0
    requires At(t, BuyKey(tr)).frozen >= Notional(tr) + On(BuyKey(tr), SellKey(tr), tr.quantity)
    requires At(t, SellKey(tr)).frozen >= tr.quantity + On(SellKey(tr), BuyKey(tr), Notional(tr))
    ensures var r := SettleTrade(t, tr, Taker(tr));
            && r.ok && NonNegative(r.table) && Total(r.table, a) == Total(t, a)
            && At(r.table, k).frozen == At(t, k).frozen - On(k, BuyKey(tr), Notional(tr)) - On(k, SellKey(tr), tr.quantity)
            && At(r.table, k).available == At(t, k).available + On(k, Key(tr.buyUser, tr.base), tr.quantity)
                                           + On(k, Key(tr.sellUser, tr.quote), Notional(tr))
  {
    var q, n := tr.quantity, Notional(tr);
    NotionalSign(tr);
    var buyerBase, sellerQuote := Key(tr.buyUser, tr.base), Key(tr.sellUser, tr.quote);
    if tr.takerSide == Buy {
      assert SettlementCalls(tr, Taker(tr))
          == [DebitFrozen(BuyKey(tr), n), Credit(buyerBase, q), DebitFrozen(SellKey(tr), q), Credit(sellerQuote, n)];
      hide SettlementCalls, Notional, PerformAll, Total;
      FourCalls(t, BuyKey(tr), n, buyerBase, q, SellKey(tr), q, sellerQuote, n, k, a);
    } else {
      assert SettlementCalls(tr, Taker(tr))
          == [DebitFrozen(SellKey(tr), q), Credit(sellerQuote, n), DebitFrozen(BuyKey(tr), n), Credit(buyerBase, q)];
      hide SettlementCalls, Notional, PerformAll, Total;
      FourCalls(t, SellKey(tr), q, sellerQuote, n, BuyKey(tr), n, buyerBase, q, k, a);
    }
  }

  lemma NotionalSign(tr: Trade)
    requires tr.quantity > 0.0 && tr.price > 0.0
    ensures Notional(tr) > 0.0
  {
  }

  lemma CostAdds(o: Order, x: real, y: real)
    ensures o.Cost(x + y) == o.Cost(x) + o.Cost(y)
    ensures o.Cost(x - y) == o.Cost(x) - o.Cost(y)
  {
  }

  lemma CostGrows(o: Order, x: real, y: real)
    requires o.price > 0.0 && x <= y
    ensures o.Cost(x) <= o.Cost(y)
  {
    CostAdds(o, y, x);
    CostSign(o, y - x);
  }

  lemma PendingStep(taker: Order, tr: Trade, rest: seq<Trade>, k: Key)
    ensures Pending(taker, [tr] + rest, k) == On(k, taker.FundingKey(), taker.Cost(tr.quantity)) + Pending(taker, rest, k)
  {
    assert ([tr] + rest)[1..] == rest;
    CostAdds(taker, tr.quantity, Volume(rest));
  }

  /** What the two parties reserved for the fill covers what they pay; the surplus is the price improvement. */
  lemma PartiesPay(orders: seq<Order>, takerId: OrderId, tr: Trade, k: Key)
    requires TradeOk(orders, takerId, tr)
    ensures var t, m, q := orders[takerId], orders[MakerOf(tr, takerId)], tr.quantity;
            && {t.FundingKey(), m.FundingKey()} == {BuyKey(tr), SellKey(tr)}
            && On(k, t.FundingKey(), t.Cost(q)) + On(k, m.FundingKey(), m.Cost(q))
                 == On(k, BuyKey(tr), Notional(tr)) + On(k, SellKey(tr), q) + Improvement(FillOf(orders, tr), k)
    ensures FillOk(FillOf(orders, tr))
  {
    var b, q := orders[tr.buyOrder], tr.quantity;
    assert q * (b.price - tr.price) == q * b.price - q * tr.price;
  }

  /** A good trade finds both sides' funds frozen. */
  lemma FundsAreThere(s: State, others: Holds, takerId: OrderId, tr: Trade, rest: seq<Trade>, k: Key)
    requires RowsOk(s, others) && TradeOk(s.orders, takerId, tr) && Volume(rest) >= 0.0
    requires Balanced(s, others, s.orders[takerId], [tr] + rest)
    ensures At(s.table, k).frozen >= On(k, BuyKey(tr), Notional(tr)) + On(k, SellKey(tr), tr.quantity)
  {
    var taker, maker := s.orders[takerId], s.orders[MakerOf(tr, takerId)];
    assert BalancedAt(s, others, taker, [tr] + rest, k);
    OwedBounds(s, others, k);
    assert Owed(s, others, k) >= Reservation(maker, k);
    CostGrows(maker, tr.quantity, maker.Remaining());
    CostSign(taker, Volume(rest));
    PendingStep(taker, tr, rest, k);
    PartiesPay(s.orders, takerId, tr, k);
    ImprovementSign(FillOf(s.orders, tr), k);
  }

  lemma MakerRow(orders: seq<Order>, makerId: OrderId, q: real)
    requires makerId < |orders| && RowOk(orders[makerId]) && orders[makerId].Live()
    requires 0.0 < q <= orders[makerId].Remaining()
    ensures var maker, orders' := orders[makerId], FillMaker(orders, makerId, q);
            && |orders'| == |orders| && orders' == orders[makerId := orders'[makerId]]
            && RowOk(orders'[makerId])
            && orders'[makerId] == maker.(filled := maker.filled + q, status := orders'[makerId].status)
            && (orders'[makerId].Live() || orders'[makerId].Remaining() == 0.0)
  {
  }

  /** The maker row gives up exactly the cost of the fill. */
  lemma MakerGivesUp(orders: seq<Order>, makerId: OrderId, q: real, k: Key)
    requires makerId < |orders| && RowOk(orders[makerId]) && orders[makerId].Live()
    requires 0.0 < q <= orders[makerId].Remaining()
    ensures var orders' := FillMaker(orders, makerId, q);
            && |orders'| == |orders| && RowOk(orders'[makerId])
            && orders' == orders[makerId := orders'[makerId]]
            && Reserved(orders', k) == Reserved(orders, k)
                 - On(k, orders[makerId].FundingKey(), orders[makerId].Cost(q))
  {
    var maker := orders[makerId];
    var orders' := FillMaker(orders, makerId, q);
    MakerRow(orders, makerId, q);
    CostAdds(maker, maker.Remaining(), q);
    hide FillMaker, Reserved, RowOk;
    ReservedUpdate(orders, makerId, orders'[makerId], k);
  }

  /** One turn of the settlement loop: every wallet call succeeds, the books balance again with one trade less
      to come, and no asset is created or destroyed. */
  lemma TradeKeepsBalance(s: State, others: Holds, takerId: OrderId, tr: Trade, rest: seq<Trade>)
    requires RowsOk(s, others) && TradeOk(s.orders, takerId, tr) && Volume(rest) >= 0.0
    requires Balanced(s, others, s.orders[takerId], [tr] + rest)
    ensures var s' := RunTrade(s, takerId, s.orders[takerId].user, tr);
            && SettleTrade(s.table, tr, s.orders[takerId].user).ok
            && RowsOk(s', others)
            && |s'.orders| == |s.orders| && s'.orders[takerId] == s.orders[takerId]
            && Balanced(s', others, s.orders[takerId], rest)
            && forall a :: Total(s'.table, a) == Total(s.table, a)
  {
    hide SettlementCalls, PerformAll, Reserved, Residue, Pending, Total, Improvement;
    var taker := s.orders[takerId];
    var s' := RunTrade(s, takerId, taker.user, tr);
    var makerId, q := MakerOf(tr, takerId), tr.quantity;
    assert taker.user == Taker(tr);
    FundsAreThere(s, others, takerId, tr, rest, BuyKey(tr));
    FundsAreThere(s, others, takerId, tr, rest, SellKey(tr));
    forall a ensures Total(s'.table, a) == Total(s.table, a) {
      SettlementMoves(s.table, tr, BuyKey(tr), a);
    }
    forall k: Key ensures BalancedAt(s', others, taker, rest, k) {
      assert BalancedAt(s, others, taker, [tr] + rest, k);
      SettlementMoves(s.table, tr, k, tr.base);
      MakerGivesUp(s.orders, makerId, q, k);
      ResidueAppend(s.fills, FillOf(s.orders, tr), k);
      PendingStep(taker, tr, rest, k);
      PartiesPay(s.orders, takerId, tr, k);
    }
    SettlementMoves(s.table, tr, BuyKey(tr), tr.base);
    MakerGivesUp(s.orders, makerId, q, BuyKey(tr));
    PartiesPay(s.orders, takerId, tr, BuyKey(tr));
  }

  // ---------------------------------------------------------------- the settlement loop

  /** No settlement of the loop is cut short by a refused wallet call. */
  predicate AllSettle(s: State, takerId: OrderId, taker: UserId, trades: seq<Trade>)
    decreases |trades|
  {
    trades == [] ||
    (&& SettleTrade(s.table, trades[0], taker).ok
     && AllSettle(RunTrade(s, takerId, taker, trades[0]), takerId, taker, trades[1..]))
  }

  lemma {:induction false} VolumeSign(orders: seq<Order>, takerId: OrderId, trades: seq<Trade>)
    requires TradesOk(orders, takerId, trades)
    ensures Volume(trades) >= 0.0
    decreases |trades|
  {
    if trades == [] {
    } else {
      VolumeSign(FillMaker(orders, MakerOf(trades[0], takerId), trades[0].quantity), takerId, trades[1..]);
    }
  }

  /** The whole loop, for any number of trades: all calls succeed and the books balance at its end. */
  lemma {:induction false} LoopKeepsBalance(s: State, others: Holds, takerId: OrderId, trades: seq<Trade>)
    requires RowsOk(s, others) && takerId < |s.orders| && TradesOk(s.orders, takerId, trades)
    requires Balanced(s, others, s.orders[takerId], trades)
    ensures var s' := RunTrades(s, takerId, s.orders[takerId].user, trades);
            && AllSettle(s, takerId, s.orders[takerId].user, trades)
            && Inv(s', others) && |s'.orders| == |s.orders| && s'.orders[takerId] == s.orders[takerId]
            && forall a :: Total(s'.table, a) == Total(s.table, a)
    decreases |trades|
  {
    if trades == [] {
      forall k: Key ensures InvAt(s, others, k) {
        CostAdds(s.orders[takerId], 0.0, 0.0);
        assert BalancedAt(s, others, s.orders[takerId], [], k);
      }
    } else {
      var tr, rest := trades[0], trades[1..];
      assert trades == [tr] + rest;
      var s1 := RunTrade(s, takerId, s.orders[takerId].user, tr);
      VolumeSign(s1.orders, takerId, rest);
      TradeKeepsBalance(s, others, takerId, tr, rest);
      LoopKeepsBalance(s1, others, takerId, rest);
    }
  }

  /** Two versions of a taker row that the loop cannot tell apart. */
  predicate SameTaker(o: Order, n: Order) {
    o.user == n.user && o.base == n.base && o.quote == n.quote && o.side == n.side && o.price == n.price
  }

  lemma TurnIgnoresTakerFill(s: State, takerId: OrderId, tr: Trade, row: Order)
    requires takerId < |s.orders| && TradeOk(s.orders, takerId, tr) && SameTaker(s.orders[takerId], row)
    ensures var v := s.(orders := s.orders[takerId := row]);
            var s1, v1 := RunTrade(s, takerId, row.user, tr), RunTrade(v, takerId, row.user, tr);
            && TradeOk(v.orders, takerId, tr)
            && s1.orders == FillMaker(s.orders, MakerOf(tr, takerId), tr.quantity)
            && v1.orders == FillMaker(v.orders, MakerOf(tr, takerId), tr.quantity)
            && |s1.orders| == |s.orders| && s1.orders[takerId] == s.orders[takerId]
            && v1 == s1.(orders := s1.orders[takerId := row])
  {
    hide SettleTrade;
    var v := s.(orders := s.orders[takerId := row]);
    var s1, v1 := RunTrade(s, takerId, row.user, tr), RunTrade(v, takerId, row.user, tr);
    assert v1.orders == s1.orders[takerId := row];
  }

  /** The loop neither reads the taker's fill and status nor writes its row, so it can be run on a table that
      already shows the final fill (place) or still shows the old one (amend) with the same outcome. */
  lemma {:induction false} LoopIgnoresTakerFill(s: State, takerId: OrderId, trades: seq<Trade>, row: Order)
    requires takerId < |s.orders| && TradesOk(s.orders, takerId, trades) && SameTaker(s.orders[takerId], row)
    ensures var v := s.(orders := s.orders[takerId := row]);
            var r := RunTrades(s, takerId, row.user, trades);
            && TradesOk(v.orders, takerId, trades)
            && |r.orders| == |s.orders| && r.orders[takerId] == s.orders[takerId]
            && RunTrades(v, takerId, row.user, trades) == r.(orders := r.orders[takerId := row])
            && (AllSettle(v, takerId, row.user, trades) <==> AllSettle(s, takerId, row.user, trades))
    decreases |trades|
  {
    if trades == [] {
    } else {
      assert TradeOk(s.orders, takerId, trades[0]);
      hide RunTrade, TradeOk, FillMaker, SettleTrade;
      TurnIgnoresTakerFill(s, takerId, trades[0], row);
      LoopIgnoresTakerFill(RunTrade(s, takerId, row.user, trades[0]), takerId, trades[1..], row);
    }
  }

  // ---------------------------------------------------------------- place

  /** Freezing an order's full cost and inserting its row with the fill it is about to settle balances the books. */
  lemma InsertBalances(s: State, others: Holds, o: Order, t: Table, terms: map<OrderId, Terms>, trades: seq<Trade>)
    requires Inv(s, others) && RowOk(o) && o.status != Cancelled && o.filled == Volume(trades)
    requires FreezeMove(s.table, o.FundingKey(), o.Cost(o.quantity)) == Moved(t)
    ensures var s' := State(t, s.orders + [o], s.fills, terms);
            RowsOk(s', others) && Balanced(s', others, o, trades)
  {
    var s' := State(t, s.orders + [o], s.fills, terms);
    MovesConserve(s.table, o.FundingKey(), o.Cost(o.quantity), o.base);
    forall k: Key ensures BalancedAt(s', others, o, trades, k) {
      assert InvAt(s, others, k);
      ReservedAppend(s.orders, o, k);
      CostAdds(o, o.quantity, o.filled);
    }
  }

  lemma PlaceSettles(s: State, others: Holds, o: Order, t: Table, terms: map<OrderId, Terms>, reply: Reply)
    requires Inv(s, others) && o.price > 0.0 && o.quantity > 0.0
    requires reply.Accepted? && o.filled == reply.filled && o.status == reply.status
    requires ReplyOk(s.orders + [o], |s.orders|, 0.0, reply)
    requires FreezeMove(s.table, o.FundingKey(), o.Cost(o.quantity)) == Moved(t)
    ensures var inserted := State(t, s.orders + [o], s.fills, terms);
            var s' := RunTrades(inserted, |s.orders|, o.user, reply.trades);
            && AllSettle(inserted, |s.orders|, o.user, reply.trades)
            && Inv(s', others) && (forall a :: Total(s'.table, a) == Total(s.table, a))
            && UpdateOrderStatus(s'.orders, |s.orders|, o.status, o.filled) == s'.orders
  {
    var inserted := State(t, s.orders + [o], s.fills, terms);
    forall a ensures Total(t, a) == Total(s.table, a) {
      MovesConserve(s.table, o.FundingKey(), o.Cost(o.quantity), a);
    }
    VolumeSign(inserted.orders, |s.orders|, reply.trades);
    InsertBalances(s, others, o, t, terms, reply.trades);
    LoopKeepsBalance(inserted, others, |s.orders|, reply.trades);
  }

  /** The engine rejects the order and the call that takes the freeze back fails. */
  predicate KeepsFreeze(s: State, pairs: map<string, Pair>, input: PlaceInput, reply: Reply, refundFails: bool) {
    && refundFails && reply.Rejected? && input.pair in pairs && input.price > 0.0 && input.quantity > 0.0
    && var o := NewOrder(pairs[input.pair], input, 0.0, Open);
       FreezeMove(s.table, o.FundingKey(), o.Cost(o.quantity)).Moved?
  }

  /** Placing an order conserves every asset; it keeps the books balanced exactly when it does not keep the freeze of a
      rejected order; and whenever it fails, the state is what it was but for such a freeze. */
  lemma PlaceKeepsInv(s: State, pairs: map<string, Pair>, input: PlaceInput, reply: Reply, refundFails: bool,
                      others: Holds)
    requires Inv(s, others) && PlaceOk(s, pairs, input, reply)
    ensures var r := PlaceOrder(s, pairs, input, reply, refundFails);
            && (Inv(r.0, others) <==> !KeepsFreeze(s, pairs, input, reply, refundFails))
            && (forall a :: Total(r.0.table, a) == Total(s.table, a))
            && (r.1.Failed? && !KeepsFreeze(s, pairs, input, reply, refundFails) ==> r.0 == s)
    ensures KeepsFreeze(s, pairs, input, reply, refundFails) ==>
              var o := NewOrder(pairs[input.pair], input, 0.0, Open);
              && PlaceOrder(s, pairs, input, reply, refundFails).1.Failed?
              && PlaceOrder(s, pairs, input, reply, refundFails).0
                   == s.(table := FreezeMove(s.table, o.FundingKey(), o.Cost(o.quantity)).table)
  {
    if input.pair in pairs && input.price > 0.0 && input.quantity > 0.0 {
      var draft := NewOrder(pairs[input.pair], input, 0.0, Open);
      var k, amount := draft.FundingKey(), draft.Cost(input.quantity);
      var m := FreezeMove(s.table, k, amount);
      if m.Moved? {
        if reply.Rejected? {
          RejectedPlace(s, k, amount, others);
        } else {
          var o := NewOrder(pairs[input.pair], input, reply.filled, reply.status);
          assert o == draft.(filled := reply.filled, status := reply.status);
          assert o.FundingKey() == k && o.Cost(o.quantity) == amount;
          PlaceSettles(s, others, o, m.table, s.terms[|s.orders| := Terms(input.price, input.quantity)], reply);
        }
      }
    }
  }

  /** A freeze conserves every asset, breaks the books while it stands, and its refund undoes it. */
  lemma RejectedPlace(s: State, k: Key, amount: real, others: Holds)
    requires Inv(s, others) && FreezeMove(s.table, k, amount).Moved?
    ensures var t := FreezeMove(s.table, k, amount).table;
            && (forall a :: Total(t, a) == Total(s.table, a))
            && UnfreezeMove(t, k, amount) == Moved(s.table)
            && !Inv(s.(table := t), others)
  {
    var t := FreezeMove(s.table, k, amount).table;
    MovesConserve(s.table, k, amount, "");
    forall a ensures Total(t, a) == Total(s.table, a) { MovesConserve(s.table, k, amount, a); }
    LostMoveUnbalances(s, s.(table := t), k, amount, others);
  }

  // ---------------------------------------------------------------- amend

  /** A live row rewritten and then filled by `volume` reserves its new cost less the cost of the fill. */
  lemma RewrittenReserves(o: Order, n: Order, v: Order, volume: real, k: Key)
    requires o.Live() && n.Live() && n.FundingKey() == o.FundingKey() && RowOk(v)
    requires v == n.(filled := n.filled + volume, status := v.status) && v.status != Cancelled
    ensures Reservation(v, k) + On(k, v.FundingKey(), v.Cost(volume))
         == Reservation(o, k) + On(k, o.FundingKey(), n.Cost(n.Remaining()) - o.Cost(o.Remaining()))
  {
    CostAdds(n, v.Remaining(), volume);
    assert n.Remaining() == v.Remaining() + volume;
    assert v.Cost(volume) == n.Cost(volume) && v.Cost(v.Remaining()) == n.Cost(v.Remaining());
  }

  lemma ShiftEffect(t: Table, key: Key, diff: real, k: Key)
    requires ShiftMove(t, key, diff).Moved?
    ensures At(ShiftMove(t, key, diff).table, k).frozen == At(t, k).frozen + On(k, key, diff)
  {
  }

  /** Moving the difference and writing the new price and quantity balances the books for the row the amend will
      end with, its trades still pending. */
  lemma AmendBalances(s: State, others: Holds, id: OrderId, n: Order, v: Order, t: Table, trades: seq<Trade>)
    requires Inv(s, others) && id < |s.orders| && s.orders[id].Live()
    requires n.Live() && n.FundingKey() == s.orders[id].FundingKey()
    requires RowOk(v) && v == n.(filled := n.filled + Volume(trades), status := v.status) && v.status != Cancelled
    requires var o := s.orders[id];
             ShiftMove(s.table, n.FundingKey(), n.Cost(n.Remaining()) - o.Cost(o.Remaining())) == Moved(t)
    ensures var s' := s.(table := t, orders := s.orders[id := v]);
            RowsOk(s', others) && Balanced(s', others, v, trades)
  {
    var o := s.orders[id];
    var diff := n.Cost(n.Remaining()) - o.Cost(o.Remaining());
    var s' := s.(table := t, orders := s.orders[id := v]);
    ShiftConserves(s.table, n.FundingKey(), diff, o.base);
    forall k: Key ensures BalancedAt(s', others, v, trades, k) {
      assert InvAt(s, others, k);
      ReservedUpdate(s.orders, id, v, k);
      ShiftEffect(s.table, n.FundingKey(), diff, k);
      RewrittenReserves(o, n, v, Volume(trades), k);
    }
  }

  lemma ShiftConserves(t: Table, k: Key, diff: real, a: Asset)
    requires NonNegative(t)
    ensures var m := ShiftMove(t, k, diff);
            m.Moved? ==> Total(m.table, a) == Total(t, a) && NonNegative(m.table) && ShiftMove(m.table, k, -diff) == Moved(t)
  {
    MovesConserve(t, k, diff, a);
    MovesConserve(t, k, -diff, a);
  }

  lemma AmendSettles(s: State, others: Holds, id: OrderId, n: Order, t: Table, terms: map<OrderId, Terms>, reply: Reply)
    requires Inv(s, others) && id < |s.orders| && s.orders[id].Live()
    requires n.price > 0.0 && n.quantity > 0.0 && n.filled <= n.quantity
    requires n.filled == s.orders[id].filled && n.status == s.orders[id].status && n.user == s.orders[id].user
    requires n.FundingKey() == s.orders[id].FundingKey()
    requires reply.Accepted? && ReplyOk(s.orders[id := n], id, n.filled, reply)
    requires var o := s.orders[id];
             ShiftMove(s.table, n.FundingKey(), n.Cost(n.Remaining()) - o.Cost(o.Remaining())) == Moved(t)
    ensures var written := State(t, s.orders[id := n], s.fills, terms);
            var settled := RunTrades(written, id, n.user, reply.trades);
            var s' := settled.(orders := UpdateOrderStatus(settled.orders, id, reply.status, reply.filled));
            && AllSettle(written, id, n.user, reply.trades)
            && Inv(s', others) && forall a :: Total(s'.table, a) == Total(s.table, a)
  {
    hide RunTrade, RunTrades, AllSettle, TradesOk, ShiftMove, Reserved, Residue, Pending;
    var o := s.orders[id];
    var written := State(t, s.orders[id := n], s.fills, terms);
    var v := n.(filled := reply.filled, status := reply.status);
    forall a ensures Total(t, a) == Total(s.table, a) {
      ShiftConserves(s.table, n.FundingKey(), n.Cost(n.Remaining()) - o.Cost(o.Remaining()), a);
    }
    VolumeSign(written.orders, id, reply.trades);
    AmendBalances(s, others, id, n, v, t, reply.trades);
    LoopIgnoresTakerFill(written, id, reply.trades, v);
    var virtual := s.(table := t, orders := s.orders[id := v]);
    var virtual' := virtual.(terms := terms);
    assert virtual' == written.(orders := written.orders[id := v]);
    forall k: Key ensures BalancedAt(virtual', others, v, reply.trades, k) {
      assert BalancedAt(virtual, others, v, reply.trades, k);
    }
    LoopKeepsBalance(virtual', others, id, reply.trades);
    var settled := RunTrades(written, id, n.user, reply.trades);
    assert UpdateOrderStatus(settled.orders, id, reply.status, reply.filled) == settled.orders[id := v];
  }

  /** A wallet move of this amend stays done although the amend fails: the row UPDATE fails and so does the call that
      takes the move back, or the commit fails, which nothing takes back. */
  predicate LosesCompensation(s: State, input: AmendInput, reply: Reply, faults: Faults) {
    && AmendRefusal(s, input).None? && reply.Accepted?
    && var o := s.orders[input.id];
    && AmendDiff(o, input) != 0.0 && !faults.wallet && ShiftMove(s.table, o.FundingKey(), AmendDiff(o, input)).Moved?
    && (if faults.row then faults.undo else faults.commit)
  }

  /** An amend that reports an error has written no row and no trade. Its balances are as before exactly when no
      compensation is lost, and otherwise differ by exactly the one wallet move. */
  lemma AmendFailureRestores(s: State, input: AmendInput, reply: Reply, faults: Faults)
    requires NonNegative(s.table) && AmendOk(s, input, reply)
    requires AmendOrder(s, input, reply, faults).1.Failed?
    ensures var s' := AmendOrder(s, input, reply, faults).0;
            && s'.orders == s.orders && s'.fills == s.fills
            && (s'.table == s.table <==> !LosesCompensation(s, input, reply, faults))
    ensures LosesCompensation(s, input, reply, faults) ==>
              var o := s.orders[input.id];
              Moved(AmendOrder(s, input, reply, faults).0.table) == ShiftMove(s.table, o.FundingKey(), AmendDiff(o, input))
    ensures var r := AmendOrder(s, input, reply, faults);
            (&& input.id in s.terms && input.id < |s.orders| && !faults.restore && r.1.error != CommitFailed
             && s.terms[input.id] == Terms(s.orders[input.id].price, s.orders[input.id].quantity))
            ==> r.0.terms == s.terms
  {
    if AmendRefusal(s, input).None? {
      var o := s.orders[input.id];
      ShiftConserves(s.table, o.FundingKey(), AmendDiff(o, input), o.base);
      ShiftChanges(s.table, o.FundingKey(), AmendDiff(o, input));
      assert AmendedRow(o, input) == o ==> AmendDiff(o, input) == 0.0;
    }
  }

  lemma ShiftChanges(t: Table, k: Key, diff: real)
    ensures ShiftMove(t, k, diff).Moved? && diff != 0.0 ==> ShiftMove(t, k, diff).table != t
  {
    if ShiftMove(t, k, diff).Moved? && diff != 0.0 {
      assert ShiftMove(t, k, diff).table[k].frozen != t[k].frozen;
    }
  }

  /** One uncompensated move breaks the books: what it froze or released belongs to no order. */
  lemma LostMoveUnbalances(s: State, s': State, k: Key, diff: real, others: Holds)
    requires Inv(s, others) && s'.orders == s.orders && s'.fills == s.fills
    requires diff != 0.0 && ShiftMove(s.table, k, diff) == Moved(s'.table)
    ensures !Inv(s', others)
  {
    ShiftEffect(s.table, k, diff, k);
    assert InvAt(s, others, k) && !InvAt(s', others, k);
  }

  lemma AmendSucceeds(s: State, input: AmendInput, reply: Reply, faults: Faults, others: Holds)
    requires Inv(s, others) && AmendOk(s, input, reply) && AmendOrder(s, input, reply, faults).1.Ok?
    ensures var s' := AmendOrder(s, input, reply, faults).0;
            Inv(s', others) && forall a :: Total(s'.table, a) == Total(s.table, a)
  {
    if AmendedRow(s.orders[input.id], input) != s.orders[input.id] {
      var o, n := s.orders[input.id], AmendedRow(s.orders[input.id], input);
      AmendSettles(s, others, input.id, n, ShiftMove(s.table, o.FundingKey(), AmendDiff(o, input)).table,
                   s.terms[input.id := Terms(n.price, n.quantity)], reply);
    }
  }

  lemma AmendFails(s: State, input: AmendInput, reply: Reply, faults: Faults, others: Holds)
    requires Inv(s, others) && AmendOk(s, input, reply) && AmendOrder(s, input, reply, faults).1.Failed?
    ensures var s' := AmendOrder(s, input, reply, faults).0;
            && (Inv(s', others) <==> !LosesCompensation(s, input, reply, faults))
            && forall a :: Total(s'.table, a) == Total(s.table, a)
  {
    var s' := AmendOrder(s, input, reply, faults).0;
    AmendFailureRestores(s, input, reply, faults);
    hide AmendOrder, AmendOk, Total, Owed;
    if LosesCompensation(s, input, reply, faults) {
      var o := s.orders[input.id];
      var k, diff := o.FundingKey(), AmendDiff(o, input);
      forall a ensures Total(s'.table, a) == Total(s.table, a) { ShiftConserves(s.table, k, diff, a); }
      LostMoveUnbalances(s, s', k, diff, others);
    } else {
      SameBooks(s, s', others);
    }
  }

  lemma SameBooks(s: State, s': State, others: Holds)
    requires Inv(s, others) && s'.table == s.table && s'.orders == s.orders && s'.fills == s.fills
    ensures Inv(s', others)
  {
    forall k: Key ensures InvAt(s', others, k) { assert InvAt(s, others, k); }
  }

  /** Whatever fails during an amend, no asset is created or destroyed; and the books balance afterwards exactly when
      no compensation is lost. */
  lemma AmendKeepsInv(s: State, input: AmendInput, reply: Reply, faults: Faults, others: Holds)
    requires Inv(s, others) && AmendOk(s, input, reply)
    ensures var s' := AmendOrder(s, input, reply, faults).0;
            && (Inv(s', others) <==> !LosesCompensation(s, input, reply, faults))
            && forall a :: Total(s'.table, a) == Total(s.table, a)
  {
    if AmendOrder(s, input, reply, faults).1.Failed? {
      AmendFails(s, input, reply, faults, others);
    } else {
      if LosesCompensation(s, input, reply, faults) { LossFails(s, input, reply, faults); }
      AmendSucceeds(s, input, reply, faults, others);
    }
  }

  lemma LossFails(s: State, input: AmendInput, reply: Reply, faults: Faults)
    requires AmendOk(s, input, reply) && LosesCompensation(s, input, reply, faults)
    ensures AmendOrder(s, input, reply, faults).1.Failed?
  {
  }

  // ---------------------------------------------------------------- cancel and cancel-all

  /** On balance `k`, `amount` moved from frozen to available. */
  ghost predicate Repaid(t: Table, t': Table, amount: real, k: Key) {
    && At(t', k).frozen == At(t, k).frozen - amount
    && At(t', k).available == At(t, k).available + amount
  }

  /** What the rows reserve whose refund does not fail. */
  function Refundable(orders: seq<Order>, failing: set<OrderId>, k: Key): real {
    if orders == [] then 0.0
    else
      var n := |orders| - 1;
      Refundable(orders[..n], failing, k) + if n in failing then 0.0 else Reservation(orders[n], k)
  }

  function Withheld(orders: seq<Order>, failing: set<OrderId>, k: Key): real {
    Reserved(orders, k) - Refundable(orders, failing, k)
  }

  lemma {:induction false} RefundableUpdate(orders: seq<Order>, i: nat, o: Order, failing: set<OrderId>, k: Key)
    requires i < |orders|
    ensures Refundable(orders[i := o], failing, k)
         == Refundable(orders, failing, k) + if i in failing then 0.0 else Reservation(o, k) - Reservation(orders[i], k)
  {
    var n := |orders| - 1;
    if i == n {
      assert orders[i := o][..n] == orders[..n];
    } else {
      assert orders[i := o][..n] == orders[..n][i := o];
      RefundableUpdate(orders[..n], i, o, failing, k);
    }
  }

  lemma RefundableAppend(orders: seq<Order>, o: Order, failing: set<OrderId>, k: Key)
    ensures Refundable(orders + [o], failing, k)
         == Refundable(orders, failing, k) + if |orders| in failing then 0.0 else Reservation(o, k)
  {
    assert (orders + [o])[..|orders|] == orders;
  }

  lemma {:induction false} RefundableBounds(orders: seq<Order>, failing: set<OrderId>, k: Key)
    requires forall i :: 0 <= i < |orders| ==> RowOk(orders[i])
    ensures 0.0 <= Refundable(orders, failing, k) <= Reserved(orders, k)
  {
    if orders == [] {
    } else {
      RefundableBounds(orders[..|orders| - 1], failing, k);
      CostSign(orders[|orders| - 1], orders[|orders| - 1].Remaining());
    }
  }

  /** `s'` differs from `s` by released reservations only: on every balance the frozen amount fell by exactly what
      the rows stopped reserving, but for the failing refunds, and that amount became available. */
  ghost predicate Released(s: State, s': State, failing: set<OrderId>) {
    && s'.table.Keys == s.table.Keys && s'.fills == s.fills && s'.terms == s.terms
    && |s'.orders| == |s.orders|
    && forall k: Key :: ReleasedAt(s, s', failing, k)
  }

  ghost predicate ReleasedAt(s: State, s': State, failing: set<OrderId>, k: Key) {
    Repaid(s.table, s'.table, Refundable(s.orders, failing, k) - Refundable(s'.orders, failing, k), k)
  }

  /** Such a state is determined by its order rows. */
  lemma ReleasedIsUnique(s: State, s1: State, s2: State, failing: set<OrderId>)
    requires Released(s, s1, failing) && Released(s, s2, failing) && s1.orders == s2.orders
    ensures s1 == s2
  {
    forall k | k in s1.table ensures s1.table[k] == s2.table[k] {
      assert ReleasedAt(s, s1, failing, k) && ReleasedAt(s, s2, failing, k);
    }
  }

  lemma ReleasedAtIsTransitive(s: State, s1: State, s2: State, failing: set<OrderId>, k: Key)
    requires ReleasedAt(s, s1, failing, k) && ReleasedAt(s1, s2, failing, k)
    ensures ReleasedAt(s, s2, failing, k)
  {
  }

  lemma ReleasedIsTransitive(s: State, s1: State, s2: State, failing: set<OrderId>)
    requires Released(s, s1, failing) && Released(s1, s2, failing)
    ensures Released(s, s2, failing)
  {
    forall k: Key ensures ReleasedAt(s, s2, failing, k) {
      ReleasedAtIsTransitive(s, s1, s2, failing, k);
    }
  }

  /** The books are off by exactly `lost` on balance `k`. */
  ghost predicate OffBy(s: State, others: Holds, k: Key, lost: real) {
    At(s.table, k).frozen == Owed(s, others, k) + lost
  }

  /** What failing refunds leave frozen: the reservations that ended without one. */
  function Unrefunded(orders: seq<Order>, orders': seq<Order>, failing: set<OrderId>, k: Key): real {
    Withheld(orders, failing, k) - Withheld(orders', failing, k)
  }

  lemma ReleasedIsOffBy(s: State, s': State, failing: set<OrderId>, others: Holds, k: Key)
    requires Inv(s, others) && Released(s, s', failing)
    ensures OffBy(s', others, k, Unrefunded(s.orders, s'.orders, failing, k))
  {
    assert InvAt(s, others, k) && ReleasedAt(s, s', failing, k);
  }

  /** In every balanced state the clamp to the actual frozen balance never lowers the computed amount. */
  lemma ClampNeverLowers(s: State, id: OrderId, others: Holds)
    requires Inv(s, others) && id < |s.orders| && s.orders[id].Live()
    ensures var o := s.orders[id];
            && CancelAmount(s.table, o) == o.Cost(o.Remaining()) >= 0.0
            && (o.Remaining() > 0.0 ==> o.Cost(o.Remaining()) > 0.0)
            && At(s.table, o.FundingKey()).frozen >= o.Cost(o.Remaining())
  {
    var o := s.orders[id];
    CostSign(o, o.Remaining());
    OwedBounds(s, others, o.FundingKey());
    assert InvAt(s, others, o.FundingKey());
  }

  lemma CancelAtKey(s: State, id: OrderId, t: Table, failing: set<OrderId>, k: Key)
    requires id < |s.orders| && s.orders[id].Live()
    requires var o := s.orders[id];
             Repaid(s.table, t, if id in failing then 0.0 else On(k, o.FundingKey(), o.Cost(o.Remaining())), k)
    ensures ReleasedAt(s, s.(table := t, orders := s.orders[id := s.orders[id].(status := Cancelled)]), failing, k)
  {
    RefundableUpdate(s.orders, id, s.orders[id].(status := Cancelled), failing, k);
  }

  /** Cancelling a live row of its owner: unless the wallet call fails, it succeeds whenever there is something to
      release, and exactly the row's reservation is released. */
  lemma CancelReleases(s: State, id: OrderId, user: UserId, failing: set<OrderId>, others: Holds)
    requires Inv(s, others) && id < |s.orders| && s.orders[id].user == user && s.orders[id].Live()
    ensures var o := s.orders[id];
            var s' := CancelOrder(s, id, user, id in failing).0;
            && (o.Remaining() > 0.0 ==> UnfreezeMove(s.table, o.FundingKey(), CancelAmount(s.table, o)).Moved?)
            && CancelOrder(s, id, user, id in failing).1.Ok?
            && s'.orders == s.orders[id := o.(status := Cancelled)]
            && Released(s, s', failing) && NonNegative(s'.table)
            && forall a :: Total(s'.table, a) == Total(s.table, a)
  {
    hide Reserved, Refundable, Residue, Total, Reservation;
    var o := s.orders[id];
    var key, amount := o.FundingKey(), o.Cost(o.Remaining());
    var s' := CancelOrder(s, id, user, id in failing).0;
    ClampNeverLowers(s, id, others);
    forall a { MovesConserve(s.table, key, amount, a); }
    MovesConserve(s.table, key, amount, o.base);
    assert s'.table == if id in failing then s.table else After(UnfreezeMove(s.table, key, amount), s.table);
    forall k: Key ensures ReleasedAt(s, s', failing, k) {
      CancelAtKey(s, id, s'.table, failing, k);
    }
  }

  /** What the refunds of cancel-all give back on one balance. */
  function RefundSum(orders: seq<Order>, ids: seq<OrderId>, failing: set<OrderId>, k: Key): real
    requires forall i :: 0 <= i < |ids| ==> ids[i] < |orders|
    decreases |ids|
  {
    if ids == [] then 0.0
    else (if ids[0] in failing then 0.0 else Reservation(orders[ids[0]], k)) + RefundSum(orders, ids[1..], failing, k)
  }

  lemma {:induction false} RefundSumBounds(orders: seq<Order>, ids: seq<OrderId>, failing: set<OrderId>, k: Key)
    requires forall i :: 0 <= i < |ids| ==> ids[i] < |orders|
    requires forall i :: 0 <= i < |orders| ==> RowOk(orders[i])
    ensures RefundSum(orders, ids, failing, k) >= 0.0
    decreases |ids|
  {
    if ids == [] {
    } else {
      ReservedBounds(orders, k);
      RefundSumBounds(orders, ids[1..], failing, k);
    }
  }

  lemma {:induction false} RefundSumAppend(orders: seq<Order>, more: seq<Order>, ids: seq<OrderId>, id: OrderId,
                                           failing: set<OrderId>, k: Key)
    requires forall i :: 0 <= i < |ids| ==> ids[i] < |orders|
    requires id < |orders + more|
    ensures RefundSum(orders + more, ids + [id], failing, k)
         == RefundSum(orders, ids, failing, k) + if id in failing then 0.0 else Reservation((orders + more)[id], k)
    ensures RefundSum(orders + more, ids, failing, k) == RefundSum(orders, ids, failing, k)
    decreases |ids|
  {
    if ids != [] {
      assert (ids + [id])[1..] == ids[1..] + [id];
      RefundSumAppend(orders, more, ids[1..], id, failing, k);
    } else {
      assert ([] + [id])[1..] == [];
    }
  }

  lemma SelectedIdsInRange(orders: seq<Order>, user: UserId, filter: Filter, ids: seq<OrderId>)
    requires ids == SelectedIds(orders, user, filter)
    ensures forall i :: 0 <= i < |ids| ==> ids[i] < |orders| && Selected(orders[ids[i]], user, filter)
  {
    SelectedIdsAre(orders, user, filter);
    assert forall i :: 0 <= i < |ids| ==> ids[i] in ids;
  }

  lemma CancelRowsLast(init: seq<Order>, last: Order, user: UserId, filter: Filter)
    ensures CancelRows(init + [last], user, filter) == CancelRows(init, user, filter) + [Marked(last, user, filter)]
  {
  }

  lemma SelectedIdsLast(init: seq<Order>, last: Order, user: UserId, filter: Filter)
    ensures SelectedIds(init + [last], user, filter)
         == if Selected(last, user, filter) then SelectedIds(init, user, filter) + [|init|]
            else SelectedIds(init, user, filter)
  {
    assert (init + [last])[..|init|] == init;
  }

  lemma MarkingFrees(o: Order, user: UserId, filter: Filter, k: Key)
    ensures Reservation(Marked(o, user, filter), k)
         == if Selected(o, user, filter) then 0.0 else Reservation(o, k)
  {
  }

  /** Marking the selected rows frees exactly what the refunds give back. */
  lemma {:induction false} CancelRowsFree(orders: seq<Order>, user: UserId, filter: Filter, failing: set<OrderId>, k: Key)
    requires var ids := SelectedIds(orders, user, filter);
             forall i :: 0 <= i < |ids| ==> ids[i] < |orders|
    ensures Refundable(CancelRows(orders, user, filter), failing, k)
         == Refundable(orders, failing, k) - RefundSum(orders, SelectedIds(orders, user, filter), failing, k)
    decreases |orders|
  {
    if orders == [] {
    } else {
      hide CancelRows, SelectedIds, Selected, Marked, Reservation, Refundable, RefundSum;
      var n := |orders| - 1;
      var init, last := orders[..n], orders[n];
      var pre := SelectedIds(init, user, filter);
      assert orders == init + [last];
      SelectedIdsInRange(init, user, filter, pre);
      CancelRowsFree(init, user, filter, failing, k);
      CancelRowsLast(init, last, user, filter);
      CancelRowsLength(init, user, filter);
      RefundableAppend(CancelRows(init, user, filter), Marked(last, user, filter), failing, k);
      RefundableAppend(init, last, failing, k);
      MarkingFrees(last, user, filter, k);
      SelectedIdsLast(init, last, user, filter);
      RefundSumAppend(init, [last], pre, n, failing, k);
    }
  }

  lemma CancelRowsLength(orders: seq<Order>, user: UserId, filter: Filter)
    ensures |CancelRows(orders, user, filter)| == |orders|
  {
  }

  ghost predicate Covered(t: Table, orders: seq<Order>, ids: seq<OrderId>, failing: set<OrderId>, k: Key)
    requires forall i :: 0 <= i < |ids| ==> ids[i] < |orders|
  {
    At(t, k).frozen >= RefundSum(orders, ids, failing, k)
  }

  /** One refund pays back its row's reservation, or nothing if its wallet call fails. */
  lemma RefundPays(t: Table, orders: seq<Order>, ids: seq<OrderId>, failing: set<OrderId>, t1: Table, k: Key, a: Asset)
    requires NonNegative(t) && forall i :: 0 <= i < |orders| ==> RowOk(orders[i])
    requires ids != [] && forall i :: 0 <= i < |ids| ==> ids[i] < |orders| && orders[ids[i]].Live()
    requires var o := orders[ids[0]];
             && t1 == (if o.Remaining() <= 0.0 || ids[0] in failing then t
                       else After(UnfreezeMove(t, o.FundingKey(), o.Cost(o.Remaining())), t))
             && Covered(t, orders, ids, failing, o.FundingKey()) && Covered(t, orders, ids, failing, k)
    ensures NonNegative(t1) && t1.Keys == t.Keys && Total(t1, a) == Total(t, a)
    ensures Covered(t1, orders, ids[1..], failing, k)
    ensures Repaid(t, t1, if ids[0] in failing then 0.0 else Reservation(orders[ids[0]], k), k)
  {
    hide Total;
    var o := orders[ids[0]];
    CostSign(o, o.Remaining());
    RefundSumBounds(orders, ids[1..], failing, o.FundingKey());
    MovesConserve(t, o.FundingKey(), o.Cost(o.Remaining()), a);
  }

  /** Every refund that does not fail goes through when the frozen balances cover them all. */
  lemma {:induction false} RefundsPay(t: Table, orders: seq<Order>, ids: seq<OrderId>, failing: set<OrderId>, a: Asset)
    requires NonNegative(t)
    requires forall i :: 0 <= i < |orders| ==> RowOk(orders[i])
    requires forall i :: 0 <= i < |ids| ==> ids[i] < |orders| && orders[ids[i]].Live()
    requires forall k: Key :: Covered(t, orders, ids, failing, k)
    ensures var t' := Refunds(t, orders, ids, failing);
            && NonNegative(t') && t'.Keys == t.Keys && Total(t', a) == Total(t, a)
            && forall k: Key :: Repaid(t, t', RefundSum(orders, ids, failing, k), k)
    decreases |ids|
  {
    if ids == [] {
    } else {
      var o := orders[ids[0]];
      var t1 := if o.Remaining() <= 0.0 || ids[0] in failing then t
                else After(UnfreezeMove(t, o.FundingKey(), o.Cost(o.Remaining())), t);
      hide Total, Repaid, Covered;
      RefundPays(t, orders, ids, failing, t1, o.FundingKey(), a);
      forall k: Key
        ensures && Covered(t1, orders, ids[1..], failing, k)
                && Repaid(t, t1, if ids[0] in failing then 0.0 else Reservation(o, k), k)
      {
        RefundPays(t, orders, ids, failing, t1, k, a);
      }
      RefundsPay(t1, orders, ids[1..], failing, a);
      var t' := Refunds(t, orders, ids, failing);
      assert t' == Refunds(t1, orders, ids[1..], failing);
      forall k: Key ensures Repaid(t, t', RefundSum(orders, ids, failing, k), k) {
        RepaidAdds(t, t1, t', if ids[0] in failing then 0.0 else Reservation(o, k),
                   RefundSum(orders, ids[1..], failing, k), k);
      }
    }
  }

  lemma RepaidAdds(t: Table, t1: Table, t': Table, x: real, y: real, k: Key)
    requires Repaid(t, t1, x, k) && Repaid(t1, t', y, k)
    ensures Repaid(t, t', x + y, k)
  {
  }

  lemma SelectedAreCovered(s: State, user: UserId, filter: Filter, failing: set<OrderId>, others: Holds, k: Key)
    requires Inv(s, others)
    requires var ids := SelectedIds(s.orders, user, filter);
             forall i :: 0 <= i < |ids| ==> ids[i] < |s.orders|
    ensures Covered(s.table, s.orders, SelectedIds(s.orders, user, filter), failing, k)
  {
    assert InvAt(s, others, k);
    CancelRowsFree(s.orders, user, filter, failing, k);
    RefundableBounds(CancelRows(s.orders, user, filter), failing, k);
    RefundableBounds(s.orders, failing, k);
    ResidueSign(s.fills, k);
  }

  lemma RepaidIsReleased(s: State, s': State, user: UserId, filter: Filter, failing: set<OrderId>, k: Key)
    requires var ids := SelectedIds(s.orders, user, filter);
             forall i :: 0 <= i < |ids| ==> ids[i] < |s.orders|
    requires s'.orders == CancelRows(s.orders, user, filter)
    requires Repaid(s.table, s'.table, RefundSum(s.orders, SelectedIds(s.orders, user, filter), failing, k), k)
    ensures ReleasedAt(s, s', failing, k)
  {
    CancelRowsFree(s.orders, user, filter, failing, k);
  }

  /** Cancel-all releases exactly the reservations of the rows it cancels, but for the refunds that fail. */
  lemma CancelAllReleases(s: State, user: UserId, filter: Filter, failing: set<OrderId>, others: Holds)
    requires Inv(s, others)
    ensures var s' := CancelAllOrders(s, user, filter, failing).0;
            && s'.orders == CancelRows(s.orders, user, filter)
            && Released(s, s', failing) && NonNegative(s'.table)
            && forall a :: Total(s'.table, a) == Total(s.table, a)
  {
    var s' := CancelAllOrders(s, user, filter, failing).0;
    var ids := SelectedIds(s.orders, user, filter);
    SelectedIdsInRange(s.orders, user, filter, ids);
    forall k: Key ensures Covered(s.table, s.orders, ids, failing, k) {
      SelectedAreCovered(s, user, filter, failing, others, k);
    }
    forall a { RefundsPay(s.table, s.orders, ids, failing, a); }
    RefundsPay(s.table, s.orders, ids, failing, "");
    forall k: Key ensures ReleasedAt(s, s', failing, k) {
      assert Repaid(s.table, s'.table, RefundSum(s.orders, ids, failing, k), k);
      RepaidIsReleased(s, s', user, filter, failing, k);
    }
  }

  /** What a cancel-all with failing refunds leaves frozen: at least each of those rows' reservations, nothing else. */
  lemma {:induction false} UnrefundedIs(orders: seq<Order>, user: UserId, filter: Filter, failing: set<OrderId>, k: Key)
    requires forall i :: 0 <= i < |orders| ==> RowOk(orders[i])
    ensures var x := Unrefunded(orders, CancelRows(orders, user, filter), failing, k);
            && x >= 0.0
            && (forall i :: 0 <= i < |orders| && i in failing && Selected(orders[i], user, filter) ==>
                  Reservation(orders[i], k) <= x)
            && (x != 0.0 ==> exists i: nat :: i < |orders| && i in failing && Unpaid(orders[i], user, filter))
    decreases |orders|
  {
    if orders == [] {
    } else {
      var n := |orders| - 1;
      var init, last := orders[..n], orders[n];
      assert orders == init + [last];
      UnrefundedIs(init, user, filter, failing, k);
      UnrefundedLast(init, last, user, filter, failing, k);
      CostSign(last, last.Remaining());
      hide Unrefunded, CancelRows, Reservation, Unpaid, Selected;
      forall i | 0 <= i < |orders| && i in failing && Selected(orders[i], user, filter)
        ensures Reservation(orders[i], k) <= Unrefunded(orders, CancelRows(orders, user, filter), failing, k)
      {
        if i < n { assert init[i] == orders[i]; }
      }
      if Unrefunded(init, CancelRows(init, user, filter), failing, k) != 0.0 {
        var i: nat :| i < |init| && i in failing && Unpaid(init[i], user, filter);
        assert Unpaid(orders[i], user, filter);
      } else if Unrefunded(orders, CancelRows(orders, user, filter), failing, k) != 0.0 {
        assert Unpaid(orders[n], user, filter);
      }
    }
  }

  /** A selected row with something left to refund. */
  predicate Unpaid(o: Order, user: UserId, filter: Filter) {
    Selected(o, user, filter) && o.Remaining() > 0.0
  }

  lemma UnrefundedLast(init: seq<Order>, last: Order, user: UserId, filter: Filter, failing: set<OrderId>, k: Key)
    requires RowOk(last)
    ensures var lost := if |init| in failing && Selected(last, user, filter) then Reservation(last, k) else 0.0;
            && Unrefunded(init + [last], CancelRows(init + [last], user, filter), failing, k)
                 == Unrefunded(init, CancelRows(init, user, filter), failing, k) + lost
            && lost >= 0.0
            && (lost != 0.0 ==> Unpaid(last, user, filter))
  {
    CostSign(last, last.Remaining());
    CancelRowsLast(init, last, user, filter);
    CancelRowsLength(init, user, filter);
    MarkingFrees(last, user, filter, k);
    var c, m := CancelRows(init, user, filter), Marked(last, user, filter);
    ReservedAppend(init, last, k);
    ReservedAppend(c, m, k);
    RefundableAppend(init, last, failing, k);
    RefundableAppend(c, m, failing, k);
    hide Reserved, Refundable, CancelRows;
  }

  /** Cancelling the orders of a list one by one. */
  function CancelEach(s: State, ids: seq<OrderId>, user: UserId, failing: set<OrderId>): State
    decreases |ids|
  {
    if ids == [] then s else CancelEach(CancelOrder(s, ids[0], user, ids[0] in failing).0, ids[1..], user, failing)
  }

  /** Distinct ids of live orders of one user. */
  ghost predicate Cancellable(orders: seq<Order>, ids: seq<OrderId>, user: UserId) {
    && (forall i :: 0 <= i < |ids| ==> ids[i] < |orders| && orders[ids[i]].user == user && orders[ids[i]].Live())
    && (forall i, j :: 0 <= i < j < |ids| ==> ids[i] != ids[j])
  }

  ghost predicate CancelledAt(orders: seq<Order>, orders': seq<Order>, ids: seq<OrderId>) {
    && |orders'| == |orders|
    && forall i :: 0 <= i < |orders| ==>
         orders'[i] == if i in ids then orders[i].(status := Cancelled) else orders[i]
  }

  lemma CancelOneMore(orders: seq<Order>, ids: seq<OrderId>, user: UserId, orders1: seq<Order>, orders': seq<Order>)
    requires ids != [] && Cancellable(orders, ids, user)
    requires orders1 == orders[ids[0] := orders[ids[0]].(status := Cancelled)]
    ensures Cancellable(orders1, ids[1..], user)
    ensures CancelledAt(orders1, orders', ids[1..]) ==> CancelledAt(orders, orders', ids)
  {
    assert ids == [ids[0]] + ids[1..];
    if CancelledAt(orders1, orders', ids[1..]) {
      assert ids[0] !in ids[1..];
    }
  }

  lemma {:induction false} CancelEachReleases(s: State, ids: seq<OrderId>, user: UserId, failing: set<OrderId>,
                                              others: Holds)
    requires Inv(s, others) && Cancellable(s.orders, ids, user)
    ensures var s' := CancelEach(s, ids, user, failing);
            Released(s, s', failing) && CancelledAt(s.orders, s'.orders, ids)
    decreases |ids|
  {
    if ids == [] {
    } else {
      assert ids[0] < |s.orders| && s.orders[ids[0]].user == user && s.orders[ids[0]].Live();
      hide Inv, CancelOrder, Released, Cancellable, CancelledAt;
      var s1, s' := CancelOrder(s, ids[0], user, ids[0] in failing).0, CancelEach(s, ids, user, failing);
      CancelReleases(s, ids[0], user, failing, others);
      CancelOneMore(s.orders, ids, user, s1.orders, s'.orders);
      CancelStrands(s, ids[0], user, ids[0] in failing, others);
      CancelEachReleases(s1, ids[1..], user, failing, StrandedAt(s.orders[ids[0]], ids[0] in failing, others));
      ReleasedIsTransitive(s, s1, s', failing);
    }
  }

  /** Cancel-all ends in the same order table, the same balances and the same everything else as cancelling each
      selected order by itself, in any order, whichever refunds fail. */
  lemma CancelAllIsCancelEach(s: State, user: UserId, filter: Filter, ids: seq<OrderId>, failing: set<OrderId>,
                              others: Holds)
    requires Inv(s, others)
    requires forall i, j :: 0 <= i < j < |ids| ==> ids[i] != ids[j]
    requires forall id: nat :: id in ids <==> id < |s.orders| && Selected(s.orders[id], user, filter)
    ensures CancelAllOrders(s, user, filter, failing).0 == CancelEach(s, ids, user, failing)
  {
    forall i | 0 <= i < |ids|
      ensures ids[i] < |s.orders| && Selected(s.orders[ids[i]], user, filter)
    {
      assert ids[i] in ids;
    }
    CancelAllReleases(s, user, filter, failing, others);
    CancelEachReleases(s, ids, user, failing, others);
    assert CancelEach(s, ids, user, failing).orders == CancelRows(s.orders, user, filter);
    ReleasedIsUnique(s, CancelAllOrders(s, user, filter, failing).0, CancelEach(s, ids, user, failing), failing);
  }

  /** The holds once a cancel has, or has not, left its row's reservation frozen. */
  function StrandedAt(o: Order, fails: bool, others: Holds): Holds {
    if fails then others[o.FundingKey() := Held(others, o.FundingKey()) + o.Cost(o.Remaining())] else others
  }

  predicate Cancels(s: State, id: OrderId, user: UserId) {
    id < |s.orders| && s.orders[id].user == user && s.orders[id].Live()
  }

  lemma CancelIsOffBy(s: State, id: OrderId, user: UserId, fails: bool, others: Holds, k: Key)
    requires Inv(s, others) && Cancels(s, id, user)
    ensures var s', o := CancelOrder(s, id, user, fails).0, s.orders[id];
            && OffBy(s', others, k, if fails then On(k, o.FundingKey(), o.Cost(o.Remaining())) else 0.0)
            && RowsOk(s', others) && forall a :: Total(s'.table, a) == Total(s.table, a)
  {
    var s', o := CancelOrder(s, id, user, fails).0, s.orders[id];
    var failing := if fails then {id} else {};
    CancelReleases(s, id, user, failing, others);
    ReleasedIsOffBy(s, s', failing, others, k);
    hide CancelOrder, Released, Residue;
    ReservedUpdate(s.orders, id, o.(status := Cancelled), k);
    RefundableUpdate(s.orders, id, o.(status := Cancelled), failing, k);
  }

  /** What a cancel does not refund stays frozen like a hold of another service. */
  lemma CancelStrands(s: State, id: OrderId, user: UserId, fails: bool, others: Holds)
    requires Inv(s, others) && Cancels(s, id, user)
    ensures Inv(CancelOrder(s, id, user, fails).0, StrandedAt(s.orders[id], fails, others))
  {
    var s', o := CancelOrder(s, id, user, fails).0, s.orders[id];
    var others' := StrandedAt(o, fails, others);
    CostSign(o, o.Remaining());
    CancelIsOffBy(s, id, user, fails, others, o.FundingKey());
    hide CancelOrder, Reserved, Residue;
    forall k: Key ensures InvAt(s', others', k) { CancelIsOffBy(s, id, user, fails, others, k); }
  }

  // ---------------------------------------------------------------- every run

  /** What a handler leaves frozen, or has wrongly released, on balance `k`: a freeze or refund it did not make up for. */
  function Lost(s: State, pairs: map<string, Pair>, op: Op, k: Key): real {
    match op
    case Place(input, reply, fails) =>
      if KeepsFreeze(s, pairs, input, reply, fails) then
        var o := NewOrder(pairs[input.pair], input, 0.0, Open);
        On(k, o.FundingKey(), o.Cost(o.quantity))
      else 0.0
    case Amend(input, reply, faults) =>
      if LosesCompensation(s, input, reply, faults) then
        On(k, s.orders[input.id].FundingKey(), AmendDiff(s.orders[input.id], input))
      else 0.0
    case Cancel(id, user, fails) =>
      if Cancels(s, id, user) && fails then
        var o := s.orders[id];
        On(k, o.FundingKey(), o.Cost(o.Remaining()))
      else 0.0
    case CancelAll(user, filter, failing) =>
      Unrefunded(s.orders, CancelRows(s.orders, user, filter), failing, k)
  }

  /** The handler makes up for every freeze it should: an engine error's, a failing amend's, a cancelled order's. */
  predicate Compensates(s: State, pairs: map<string, Pair>, op: Op) {
    match op
    case Place(input, reply, fails) => !KeepsFreeze(s, pairs, input, reply, fails)
    case Amend(input, reply, faults) => !LosesCompensation(s, input, reply, faults)
    case Cancel(id, user, fails) => Cancels(s, id, user) && fails ==> s.orders[id].Remaining() <= 0.0
    case CancelAll(user, filter, failing) =>
      forall i :: 0 <= i < |s.orders| && i in failing ==> !Unpaid(s.orders[i], user, filter)
  }

  lemma PlaceIsOffBy(s: State, pairs: map<string, Pair>, input: PlaceInput, reply: Reply, fails: bool, others: Holds,
                     k: Key)
    requires Inv(s, others) && PlaceOk(s, pairs, input, reply)
    ensures var s' := PlaceOrder(s, pairs, input, reply, fails).0;
            && OffBy(s', others, k, Lost(s, pairs, Place(input, reply, fails), k))
            && RowsOk(s', others) && forall a :: Total(s'.table, a) == Total(s.table, a)
  {
    PlaceKeepsInv(s, pairs, input, reply, fails, others);
    var s' := PlaceOrder(s, pairs, input, reply, fails).0;
    if KeepsFreeze(s, pairs, input, reply, fails) {
      var o := NewOrder(pairs[input.pair], input, 0.0, Open);
      MovesConserve(s.table, o.FundingKey(), o.Cost(o.quantity), "");
      ShiftEffect(s.table, o.FundingKey(), o.Cost(o.quantity), k);
      hide PlaceOrder, PlaceOk;
      assert InvAt(s, others, k);
    } else {
      hide PlaceOrder, PlaceOk, KeepsFreeze;
      assert InvAt(s', others, k);
    }
  }

  lemma AmendIsOffBy(s: State, pairs: map<string, Pair>, input: AmendInput, reply: Reply, faults: Faults, others: Holds,
                     k: Key)
    requires Inv(s, others) && AmendOk(s, input, reply)
    ensures var s' := AmendOrder(s, input, reply, faults).0;
            && OffBy(s', others, k, Lost(s, pairs, Amend(input, reply, faults), k))
            && RowsOk(s', others) && forall a :: Total(s'.table, a) == Total(s.table, a)
  {
    AmendKeepsInv(s, input, reply, faults, others);
    var s' := AmendOrder(s, input, reply, faults).0;
    if LosesCompensation(s, input, reply, faults) {
      LossFails(s, input, reply, faults);
      AmendFailureRestores(s, input, reply, faults);
      var key, diff := s.orders[input.id].FundingKey(), AmendDiff(s.orders[input.id], input);
      ShiftConserves(s.table, key, diff, "");
      ShiftEffect(s.table, key, diff, k);
      hide AmendOrder, AmendOk, LosesCompensation, AmendDiff;
      assert InvAt(s, others, k);
    } else {
      hide AmendOrder, AmendOk, LosesCompensation;
      assert InvAt(s', others, k);
    }
  }

  /** After any handler with any failures of its refunds, every frozen balance is off by exactly what is lost, the rows
      are good, and every asset's total is what it was. */
  lemma StepIsOffBy(s: State, pairs: map<string, Pair>, op: Op, others: Holds, k: Key)
    requires Inv(s, others) && OpOk(s, pairs, op)
    ensures var s' := Step(s, pairs, op);
            && OffBy(s', others, k, Lost(s, pairs, op, k))
            && RowsOk(s', others) && forall a :: Total(s'.table, a) == Total(s.table, a)
  {
    match op
    case Place(input, reply, fails) => PlaceIsOffBy(s, pairs, input, reply, fails, others, k);
    case Amend(input, reply, faults) => AmendIsOffBy(s, pairs, input, reply, faults, others, k);
    case Cancel(id, user, fails) =>
      if Cancels(s, id, user) { CancelIsOffBy(s, id, user, fails, others, k); } else { assert InvAt(s, others, k); }
    case CancelAll(user, filter, failing) =>
      CancelAllReleases(s, user, filter, failing, others);
      ReleasedIsOffBy(s, CancelAllOrders(s, user, filter, failing).0, failing, others, k);
      hide CancelAllOrders, Released, Unrefunded;
  }

  /** Where something is lost if anything is. */
  function LossKey(s: State, pairs: map<string, Pair>, op: Op): (k: Key)
    requires OpOk(s, pairs, op) && !Compensates(s, pairs, op)
  {
    match op
    case Place(input, _, _) => NewOrder(pairs[input.pair], input, 0.0, Open).FundingKey()
    case Amend(input, _, _) => s.orders[input.id].FundingKey()
    case Cancel(id, _, _) => s.orders[id].FundingKey()
    case CancelAll(user, filter, failing) => UnpaidKey(s.orders, user, filter, failing)
  }

  function UnpaidKey(orders: seq<Order>, user: UserId, filter: Filter, failing: set<OrderId>): Key {
    if orders == [] then Key(user, "")
    else
      var n := |orders| - 1;
      if n in failing && Unpaid(orders[n], user, filter) then orders[n].FundingKey()
      else UnpaidKey(orders[..n], user, filter, failing)
  }

  lemma {:induction false} UnpaidLoses(orders: seq<Order>, user: UserId, filter: Filter, failing: set<OrderId>)
    requires forall i :: 0 <= i < |orders| ==> RowOk(orders[i])
    requires exists i: nat :: i < |orders| && i in failing && Unpaid(orders[i], user, filter)
    ensures Unrefunded(orders, CancelRows(orders, user, filter), failing, UnpaidKey(orders, user, filter, failing)) > 0.0
    decreases |orders|
  {
    var n := |orders| - 1;
    var k := UnpaidKey(orders, user, filter, failing);
    if n in failing && Unpaid(orders[n], user, filter) {
      CostSign(orders[n], orders[n].Remaining());
      UnrefundedIs(orders, user, filter, failing, k);
    } else {
      var init, last := orders[..n], orders[n];
      assert orders == init + [last];
      var i: nat :| i < |orders| && i in failing && Unpaid(orders[i], user, filter);
      assert init[i] == orders[i];
      UnpaidLoses(init, user, filter, failing);
      UnrefundedLast(init, last, user, filter, failing, k);
    }
  }

  lemma CompensatesIff(s: State, pairs: map<string, Pair>, op: Op, others: Holds)
    requires Inv(s, others) && OpOk(s, pairs, op)
    ensures Compensates(s, pairs, op) ==> forall k: Key :: Lost(s, pairs, op, k) == 0.0
    ensures !Compensates(s, pairs, op) ==> Lost(s, pairs, op, LossKey(s, pairs, op)) != 0.0
  {
    hide OpOk, Unrefunded, CancelRows, Selected, LosesCompensation;
    match op
    case Place(input, _, _) =>
    case Amend(input, reply, faults) =>
      if !Compensates(s, pairs, op) { LossIsNotZero(s, input, reply, faults); }
    case Cancel(id, _, _) =>
      if id < |s.orders| { CostSign(s.orders[id], s.orders[id].Remaining()); }
    case CancelAll(user, filter, failing) =>
      if Compensates(s, pairs, op) {
        forall k: Key ensures Lost(s, pairs, op, k) == 0.0 { UnrefundedIs(s.orders, user, filter, failing, k); }
      } else {
        UnpaidLoses(s.orders, user, filter, failing);
      }
  }

  lemma LossIsNotZero(s: State, input: AmendInput, reply: Reply, faults: Faults)
    requires LosesCompensation(s, input, reply, faults)
    ensures input.id < |s.orders| && AmendDiff(s.orders[input.id], input) != 0.0
  {
  }

  /** One handler keeps the books exactly when it compensates what it must, and every asset's total in any case. */
  lemma StepKeepsInv(s: State, pairs: map<string, Pair>, op: Op, others: Holds)
    requires Inv(s, others) && OpOk(s, pairs, op)
    ensures Inv(Step(s, pairs, op), others) <==> Compensates(s, pairs, op)
    ensures forall a :: Total(Step(s, pairs, op).table, a) == Total(s.table, a)
  {
    var s' := Step(s, pairs, op);
    CompensatesIff(s, pairs, op, others);
    hide Step, Lost, Compensates, OpOk;
    StepIsOffBy(s, pairs, op, others, Key(0, ""));
    if Compensates(s, pairs, op) {
      forall k: Key ensures InvAt(s', others, k) { StepIsOffBy(s, pairs, op, others, k); }
    } else {
      var k := LossKey(s, pairs, op);
      StepIsOffBy(s, pairs, op, others, k);
      assert !InvAt(s', others, k);
    }
  }

  predicate RunCompensates(s: State, pairs: map<string, Pair>, ops: seq<Op>)
    requires RunOk(s, pairs, ops)
    decreases |ops|
  {
    ops == [] || (Compensates(s, pairs, ops[0]) && RunCompensates(Step(s, pairs, ops[0]), pairs, ops[1..]))
  }

  /** After any run of place, amend, cancel and cancel-all, by any users, in which every handler compensates, every
      frozen balance is exactly the open reservations plus the accumulated price improvement plus the other services'
      holds, and the total of every asset is what it was. */
  lemma {:induction false} RunKeepsInv(s: State, pairs: map<string, Pair>, ops: seq<Op>, others: Holds)
    requires Inv(s, others) && RunOk(s, pairs, ops) && RunCompensates(s, pairs, ops)
    ensures Inv(Run(s, pairs, ops), others)
    ensures forall a :: Total(Run(s, pairs, ops).table, a) == Total(s.table, a)
    decreases |ops|
  {
    if ops == [] {
    } else {
      StepKeepsInv(s, pairs, ops[0], others);
      RunKeepsInv(Step(s, pairs, ops[0]), pairs, ops[1..], others);
    }
  }

  /** The balances a handler may lose track of. */
  function LostKeys(s: State, pairs: map<string, Pair>, op: Op): set<Key> {
    (set i | 0 <= i < |s.orders| :: s.orders[i].FundingKey()) +
    (if op.Place? && op.place.pair in pairs then {NewOrder(pairs[op.place.pair], op.place, 0.0, Open).FundingKey()} else {})
  }

  /** Lost funds that stay frozen for no order are like holds of another service. */
  function Strand(s: State, pairs: map<string, Pair>, op: Op, others: Holds): Holds {
    map k | k in others.Keys + LostKeys(s, pairs, op) :: Held(others, k) + Lost(s, pairs, op, k)
  }

  /** No amend loses the call that would have frozen again what it had released; whatever else is lost stays frozen. */
  predicate OnlyStrands(s: State, op: Op) {
    op.Amend? && LosesCompensation(s, op.amend, op.amendReply, op.faults) ==>
      AmendDiff(s.orders[op.amend.id], op.amend) > 0.0
  }

  lemma {:induction false} ReservedElsewhere(orders: seq<Order>, failing: set<OrderId>, k: Key)
    requires forall i :: 0 <= i < |orders| ==> orders[i].FundingKey() != k
    ensures Reserved(orders, k) == 0.0 && Refundable(orders, failing, k) == 0.0
  {
    if orders == [] {
    } else {
      var n := |orders| - 1;
      assert forall i :: 0 <= i < n ==> orders[..n][i] == orders[i];
      ReservedElsewhere(orders[..n], failing, k);
    }
  }

  lemma LostElsewhere(s: State, pairs: map<string, Pair>, op: Op, k: Key)
    requires OpOk(s, pairs, op) && k !in LostKeys(s, pairs, op)
    ensures Lost(s, pairs, op, k) == 0.0
  {
    assert forall i :: 0 <= i < |s.orders| ==> s.orders[i].FundingKey() in LostKeys(s, pairs, op);
    match op
    case Place(_, _, _) =>
    case Amend(_, _, _) =>
    case Cancel(_, _, _) =>
    case CancelAll(user, filter, failing) =>
      ReservedElsewhere(s.orders, failing, k);
      ReservedElsewhere(CancelRows(s.orders, user, filter), failing, k);
  }

  lemma LostSign(s: State, pairs: map<string, Pair>, op: Op, others: Holds, k: Key)
    requires Inv(s, others) && OpOk(s, pairs, op) && OnlyStrands(s, op)
    ensures Lost(s, pairs, op, k) >= 0.0
  {
    hide OpOk, Unrefunded, CancelRows;
    match op
    case Place(_, _, _) =>
    case Amend(_, _, _) =>
    case Cancel(id, _, _) => if id < |s.orders| { CostSign(s.orders[id], s.orders[id].Remaining()); }
    case CancelAll(user, filter, failing) => UnrefundedIs(s.orders, user, filter, failing, k);
  }

  lemma StrandHolds(s: State, pairs: map<string, Pair>, op: Op, others: Holds, k: Key)
    requires OpOk(s, pairs, op)
    ensures Held(Strand(s, pairs, op, others), k) == Held(others, k) + Lost(s, pairs, op, k)
  {
    hide OpOk, Lost, LostKeys;
    if k !in LostKeys(s, pairs, op) { LostElsewhere(s, pairs, op, k); }
  }

  /** Rows are good and holds stay non-negative, whichever holds the books balance with. */
  lemma StrandRows(s: State, pairs: map<string, Pair>, op: Op, balancing: Holds, others: Holds)
    requires Inv(s, balancing) && OpOk(s, pairs, op) && OnlyStrands(s, op) && forall k <- others :: others[k] >= 0.0
    ensures RowsOk(Step(s, pairs, op), Strand(s, pairs, op, others))
  {
    var others' := Strand(s, pairs, op, others);
    StepIsOffBy(s, pairs, op, balancing, Key(0, ""));
    hide Step, OpOk, Lost, OnlyStrands, LostKeys, Inv;
    forall k | k in others' ensures others'[k] >= 0.0 { LostSign(s, pairs, op, balancing, k); }
  }

  lemma StepStrands(s: State, pairs: map<string, Pair>, op: Op, others: Holds)
    requires Inv(s, others) && OpOk(s, pairs, op) && OnlyStrands(s, op)
    ensures Inv(Step(s, pairs, op), Strand(s, pairs, op, others))
  {
    var s', others' := Step(s, pairs, op), Strand(s, pairs, op, others);
    StrandRows(s, pairs, op, others, others);
    hide Step, Strand, Lost, OpOk, OnlyStrands, RowsOk;
    forall k: Key ensures InvAt(s', others', k) {
      StepIsOffBy(s, pairs, op, others, k);
      StrandHolds(s, pairs, op, others, k);
    }
  }

  predicate RunStrands(s: State, pairs: map<string, Pair>, ops: seq<Op>)
    requires RunOk(s, pairs, ops)
    decreases |ops|
  {
    ops == [] || (OnlyStrands(s, ops[0]) && RunStrands(Step(s, pairs, ops[0]), pairs, ops[1..]))
  }

  function Stranded(s: State, pairs: map<string, Pair>, ops: seq<Op>, others: Holds): Holds
    requires RunOk(s, pairs, ops)
    decreases |ops|
  {
    if ops == [] then others
    else Stranded(Step(s, pairs, ops[0]), pairs, ops[1..], Strand(s, pairs, ops[0], others))
  }

  /** What the handlers of a run have lost on balance `k`. */
  function LostByRun(s: State, pairs: map<string, Pair>, ops: seq<Op>, k: Key): real
    requires RunOk(s, pairs, ops)
    decreases |ops|
  {
    if ops == [] then 0.0
    else Lost(s, pairs, ops[0], k) + LostByRun(Step(s, pairs, ops[0]), pairs, ops[1..], k)
  }

  lemma {:induction false} StrandedIs(s: State, pairs: map<string, Pair>, ops: seq<Op>, others: Holds, k: Key)
    requires RunOk(s, pairs, ops)
    ensures Held(Stranded(s, pairs, ops, others), k) == Held(others, k) + LostByRun(s, pairs, ops, k)
    decreases |ops|
  {
    if ops == [] {
    } else {
      hide Step, OpOk, Strand, Lost;
      StrandHolds(s, pairs, ops[0], others, k);
      StrandedIs(Step(s, pairs, ops[0]), pairs, ops[1..], Strand(s, pairs, ops[0], others), k);
    }
  }

  /** Even when compensations and refunds are lost, as long as each only strands frozen funds: every wallet call of every
      later handler still finds its funds, the books balance with the stranded amounts added, and the totals stand. */
  lemma {:induction false} RunStrandsInv(s: State, pairs: map<string, Pair>, ops: seq<Op>, others: Holds)
    requires Inv(s, others) && RunOk(s, pairs, ops) && RunStrands(s, pairs, ops)
    ensures Inv(Run(s, pairs, ops), Stranded(s, pairs, ops, others))
    ensures forall k: Key :: OffBy(Run(s, pairs, ops), others, k, LostByRun(s, pairs, ops, k))
    ensures forall a :: Total(Run(s, pairs, ops).table, a) == Total(s.table, a)
    decreases |ops|
  {
    if ops == [] {
      forall k: Key ensures OffBy(s, others, k, 0.0) { assert InvAt(s, others, k); }
    } else {
      hide Step, OpOk, Strand, Inv, Total, Lost, OnlyStrands;
      StepStrands(s, pairs, ops[0], others);
      StepKeepsInv(s, pairs, ops[0], others);
      RunStrandsInv(Step(s, pairs, ops[0]), pairs, ops[1..], Strand(s, pairs, ops[0], others));
      forall k: Key ensures OffBy(Run(s, pairs, ops), others, k, LostByRun(s, pairs, ops, k)) {
        var s1 := Step(s, pairs, ops[0]);
        assert OffBy(Run(s1, pairs, ops[1..]), Strand(s, pairs, ops[0], others), k, LostByRun(s1, pairs, ops[1..], k));
        StrandHolds(s, pairs, ops[0], others, k);
      }
    }
  }

  // ---------------------------------------------------------------- stranded price improvement

  /** If the buyer of this fill paid from balance `k`, it paid its full limit price. */
  predicate PaidInFull(f: Fill, k: Key) {
    k == Key(f.trade.buyUser, f.trade.quote) ==> f.trade.price == f.limit
  }

  lemma {:induction false} ResidueZero(fills: seq<Fill>, k: Key)
    requires forall i :: 0 <= i < |fills| ==> FillOk(fills[i])
    ensures Residue(fills, k) == 0.0 <==> forall i :: 0 <= i < |fills| ==> PaidInFull(fills[i], k)
  {
    if fills == [] {
    } else {
      var n := |fills| - 1;
      ResidueZero(fills[..n], k);
      ResidueSign(fills[..n], k);
      ImprovementSign(fills[n], k);
      assert forall i :: 0 <= i < n ==> fills[..n][i] == fills[i];
    }
  }

  /** No handler refunds price improvement, so a frozen balance is covered by open orders and other holds exactly
      when every purchase its user ever made in that asset happened at the full limit price. */
  lemma FrozenIsExplainedIff(s: State, others: Holds, k: Key)
    requires Inv(s, others)
    ensures At(s.table, k).frozen >= Reserved(s.orders, k) + Held(others, k)
    ensures At(s.table, k).frozen == Reserved(s.orders, k) + Held(others, k)
            <==> forall i :: 0 <= i < |s.fills| ==> PaidInFull(s.fills[i], k)
  {
    assert InvAt(s, others, k);
    ResidueZero(s.fills, k);
    ResidueSign(s.fills, k);
  }

  const IMPROVEMENT_PAIRS: map<string, Pair> := map["BTC_USDT" := Pair("BTC", "USDT")]
  const IMPROVEMENT_START: State :=
    State(map[Key(1, "USDT") := Balance(10.0, 0.0), Key(2, "BTC") := Balance(1.0, 0.0)], [], [], map[])
  const OFFER_AT_EIGHT: Op := Place(PlaceInput(2, "BTC_USDT", Sell, 8.0, 1.0), Accepted([], Open, 0.0), false)
  const TRADE_AT_EIGHT: Trade := Trade(1, 0, 1, 2, "BTC", "USDT", 8.0, 1.0, Buy)
  const TAKE_AT_TEN: Op := Place(PlaceInput(1, "BTC_USDT", Buy, 10.0, 1.0), Accepted([TRADE_AT_EIGHT], Filled, 1.0), false)

  const AFTER_OFFER: State :=
    State(map[Key(1, "USDT") := Balance(10.0, 0.0), Key(2, "BTC") := Balance(0.0, 1.0)],
          [Order(2, "BTC", "USDT", Sell, 8.0, 1.0, 0.0, Open)], [], map[0 := Terms(8.0, 1.0)])

  lemma OfferRests()
    ensures OpOk(IMPROVEMENT_START, IMPROVEMENT_PAIRS, OFFER_AT_EIGHT)
    ensures Step(IMPROVEMENT_START, IMPROVEMENT_PAIRS, OFFER_AT_EIGHT)
         == AFTER_OFFER
  {
  }

  lemma TakeIsOk(s: State)
    requires s == AFTER_OFFER
    ensures OpOk(s, IMPROVEMENT_PAIRS, TAKE_AT_TEN)
  {
    var tr := TRADE_AT_EIGHT;
    assert [tr][1..] == [] && Volume([]) == 0.0;
    assert Volume([tr]) == tr.quantity + Volume([tr][1..]);
    var o := Order(1, "BTC", "USDT", Buy, 10.0, 1.0, 1.0, Filled);
    assert TradeOk(s.orders + [o], 1, tr);
  }

  lemma TakeFills(s: State)
    requires s == AFTER_OFFER && OpOk(s, IMPROVEMENT_PAIRS, TAKE_AT_TEN)
    ensures var s' := Step(s, IMPROVEMENT_PAIRS, TAKE_AT_TEN);
            && |s'.orders| == 2 && s'.orders[0].status == Filled && s'.orders[1].status == Filled
            && At(s'.table, Key(1, "USDT")) == Balance(0.0, 2.0)
  {
    hide ReplyOk, TradesOk, TradeOk, Volume;
    var tr := TRADE_AT_EIGHT;
    assert [tr][1..] == [];
    var buyer := Key(1, "USDT");
    var frozen := s.table[buyer := Balance(0.0, 10.0)];
    assert FreezeMove(s.table, buyer, 10.0) == Moved(frozen);
    SettlementMoves(frozen, tr, buyer, "USDT");
    hide SettlementCalls, PerformAll;
    var o := Order(1, "BTC", "USDT", Buy, 10.0, 1.0, 1.0, Filled);
    var inserted := State(frozen, s.orders + [o], s.fills, s.terms[1 := Terms(10.0, 1.0)]);
    var settled := RunTrade(inserted, 1, 1, tr);
    assert RunTrades(inserted, 1, 1, [tr]) == RunTrades(settled, 1, 1, []) == settled;
    assert Step(s, IMPROVEMENT_PAIRS, TAKE_AT_TEN).table == settled.table;
  }

  /** Seller 2 offers one unit at 8, buyer 1 takes it with a limit of 10: both orders are filled and closed, and two
      quote units of the buyer stay frozen with nothing left to release them. */
  lemma PriceImprovementStaysFrozen()
    ensures var s, ops := IMPROVEMENT_START, [OFFER_AT_EIGHT, TAKE_AT_TEN];
            && Inv(s, map[]) && RunOk(s, IMPROVEMENT_PAIRS, ops)
            && var s' := Run(s, IMPROVEMENT_PAIRS, ops);
            && |s'.orders| == 2 && s'.orders[0].status == Filled && s'.orders[1].status == Filled
            && At(s'.table, Key(1, "USDT")) == Balance(0.0, 2.0)
  {
    ImprovementStartIsGood();
    OfferRests();
    TakeIsOk(AFTER_OFFER);
    TakeFills(AFTER_OFFER);
    hide Step, OpOk, Inv;
    var ops := [OFFER_AT_EIGHT, TAKE_AT_TEN];
    var s2 := Step(AFTER_OFFER, IMPROVEMENT_PAIRS, TAKE_AT_TEN);
    assert ops[1..] == [TAKE_AT_TEN] && [TAKE_AT_TEN][1..] == [];
    assert RunOk(AFTER_OFFER, IMPROVEMENT_PAIRS, [TAKE_AT_TEN]);
    assert Run(AFTER_OFFER, IMPROVEMENT_PAIRS, [TAKE_AT_TEN]) == Run(s2, IMPROVEMENT_PAIRS, []);
  }

  const HALVE_OFFER: Op :=
    Amend(AmendInput(0, 2, 0.0, 0.5), Accepted([], Open, 0.0), Faults(false, false, false, false, true))

  /** Seller 2 offers one unit and halves the offer, and the commit fails: the row still offers one unit, but only half
      a unit is frozen for it, so the books no longer balance. */
  lemma LostCommitUncovers()
    ensures OpOk(AFTER_OFFER, IMPROVEMENT_PAIRS, HALVE_OFFER) && !Compensates(AFTER_OFFER, IMPROVEMENT_PAIRS, HALVE_OFFER)
    ensures var s' := Step(AFTER_OFFER, IMPROVEMENT_PAIRS, HALVE_OFFER);
            && s'.orders == AFTER_OFFER.orders && Reservation(s'.orders[0], Key(2, "BTC")) == 1.0
            && At(s'.table, Key(2, "BTC")) == Balance(0.5, 0.5)
            && !Inv(s', map[])
  {
    hide Inv;
    RestingOfferIsGood();
    HalvingLoses();
    StepKeepsInv(AFTER_OFFER, IMPROVEMENT_PAIRS, HALVE_OFFER, map[]);
  }

  lemma HalvingLoses()
    ensures OpOk(AFTER_OFFER, IMPROVEMENT_PAIRS, HALVE_OFFER) && !Compensates(AFTER_OFFER, IMPROVEMENT_PAIRS, HALVE_OFFER)
    ensures var s' := Step(AFTER_OFFER, IMPROVEMENT_PAIRS, HALVE_OFFER);
            s'.orders == AFTER_OFFER.orders && At(s'.table, Key(2, "BTC")) == Balance(0.5, 0.5)
  {
    assert Volume([]) == 0.0;
  }

  lemma RestingOfferIsGood()
    ensures Inv(AFTER_OFFER, map[])
  {
    ImprovementStartIsGood();
    OfferRests();
    StepKeepsInv(IMPROVEMENT_START, IMPROVEMENT_PAIRS, OFFER_AT_EIGHT, map[]);
  }

  lemma ImprovementStartIsGood()
    ensures Inv(IMPROVEMENT_START, map[])
  {
    forall k: Key ensures InvAt(IMPROVEMENT_START, map[], k) {}
  }
}
