/** What the trading handlers do to the total of an asset whether or not the books balance: exactly the settlements that
    are cut short change it. */
module AssetTotals {
  import opened Ledger
  import opened Options
  import opened Trading
  import opened TradingProofs

  // ---------------------------------------------------------------- one settlement

  function TakerPays(tr: Trade): Key { if tr.takerSide == Buy then BuyKey(tr) else SellKey(tr) }
  function TakerAmount(tr: Trade): real { if tr.takerSide == Buy then Notional(tr) else tr.quantity }
  function MakerPays(tr: Trade): Key { if tr.takerSide == Buy then SellKey(tr) else BuyKey(tr) }
  function MakerAmount(tr: Trade): real { if tr.takerSide == Buy then tr.quantity else Notional(tr) }

  /** The taker's debit goes through and the maker's is refused, after the taker has been credited. */
  predicate CutShort(t: Table, tr: Trade) {
    && At(t, TakerPays(tr)).frozen >= TakerAmount(tr)
    && At(t, MakerPays(tr)).frozen - On(MakerPays(tr), TakerPays(tr), TakerAmount(tr)) < MakerAmount(tr)
  }

  /** How much of an asset a settlement makes, or destroys when negative: the taker's credit came from nobody, the
      taker's payment went to nobody. */
  function Made(t: Table, tr: Trade, a: Asset): real {
    if CutShort(t, tr) then OnAsset(a, MakerPays(tr), MakerAmount(tr)) - OnAsset(a, TakerPays(tr), TakerAmount(tr))
    else 0.0
  }

  lemma DebitTotal(t: Table, k: Key, x: real, a: Asset)
    requires x > 0.0
    ensures DebitFrozenMove(t, k, x).Moved? <==> At(t, k).frozen >= x
    ensures var m := DebitFrozenMove(t, k, x);
            m.Moved? ==>
              && Total(m.table, a) == Total(t, a) - OnAsset(a, k, x)
              && forall j :: At(m.table, j).frozen == At(t, j).frozen - On(j, k, x)
  {
    var m := DebitFrozenMove(t, k, x);
    if m.Moved? { TotalUpdate(t, k, m.table[k], a); }
  }

  lemma CreditTotal(t: Table, k: Key, x: real, a: Asset)
    requires x > 0.0
    ensures var m := CreditMove(t, k, x);
            && m.Moved? && Total(m.table, a) == Total(t, a) + OnAsset(a, k, x)
            && forall j :: At(m.table, j).frozen == At(t, j).frozen
  {
    var m := CreditMove(t, k, x);
    TotalUpdate(t, k, m.table[k], a);
  }

  lemma PairTotal(t: Table, k1: Key, x1: real, k2: Key, x2: real, rest: seq<WalletCall>, a: Asset) returns (t2: Table)
    requires x1 > 0.0 && x2 > 0.0
    ensures var r := PerformAll(t, [DebitFrozen(k1, x1), Credit(k2, x2)] + rest);
            if At(t, k1).frozen < x1 then r == Settlement(t, false)
            else
              && r == PerformAll(t2, rest)
              && Total(t2, a) == Total(t, a) - OnAsset(a, k1, x1) + OnAsset(a, k2, x2)
              && forall j :: At(t2, j).frozen == At(t, j).frozen - On(j, k1, x1)
  {
    var calls := [DebitFrozen(k1, x1), Credit(k2, x2)] + rest;
    DebitTotal(t, k1, x1, a);
    t2 := t;
    if At(t, k1).frozen >= x1 {
      var t1 := DebitFrozenMove(t, k1, x1).table;
      CreditTotal(t1, k2, x2, a);
      t2 := CreditMove(t1, k2, x2).table;
      assert calls[1..] == [Credit(k2, x2)] + rest && calls[1..][1..] == rest;
      assert PerformAll(t, calls) == PerformAll(t1, calls[1..]) == PerformAll(t2, calls[1..][1..]);
    }
  }

  lemma FourCallsTotal(t: Table, k1: Key, x: real, k2: Key, y: real, k3: Key, k4: Key, a: Asset)
    requires x > 0.0 && y > 0.0 && k2.asset == k3.asset && k4.asset == k1.asset
    ensures var r := PerformAll(t, [DebitFrozen(k1, x), Credit(k2, y), DebitFrozen(k3, y), Credit(k4, x)]);
            var cut := At(t, k1).frozen >= x && At(t, k3).frozen - On(k3, k1, x) < y;
            Total(r.table, a) == Total(t, a) + if cut then OnAsset(a, k3, y) - OnAsset(a, k1, x) else 0.0
  {
    var first, last := [DebitFrozen(k1, x), Credit(k2, y)], [DebitFrozen(k3, y), Credit(k4, x)];
    assert first + last == [DebitFrozen(k1, x), Credit(k2, y), DebitFrozen(k3, y), Credit(k4, x)];
    assert last + [] == last;
    hide PerformAll;
    var t2 := PairTotal(t, k1, x, k2, y, last, a);
    if At(t, k1).frozen >= x {
      var t4 := PairTotal(t2, k3, y, k4, x, [], a);
      NoMoreCalls(t4);
    }
  }

  lemma NoMoreCalls(t: Table)
    ensures PerformAll(t, []) == Settlement(t, true)
  {
  }

  /** One settlement changes the total of an asset by exactly what it makes when it is cut short. */
  lemma SettlementChanges(t: Table, tr: Trade, a: Asset)
    requires tr.quantity > 0.0 && tr.price > 0.0
    ensures Total(SettleTrade(t, tr, Taker(tr)).table, a) == Total(t, a) + Made(t, tr, a)
  {
    NotionalSign(tr);
    var q, n := tr.quantity, Notional(tr);
    var buyerBase, sellerQuote := Key(tr.buyUser, tr.base), Key(tr.sellUser, tr.quote);
    if tr.takerSide == Buy {
      assert SettlementCalls(tr, Taker(tr))
          == [DebitFrozen(BuyKey(tr), n), Credit(buyerBase, q), DebitFrozen(SellKey(tr), q), Credit(sellerQuote, n)];
      FourCallsTotal(t, BuyKey(tr), n, buyerBase, q, SellKey(tr), sellerQuote, a);
    } else {
      assert SettlementCalls(tr, Taker(tr))
          == [DebitFrozen(SellKey(tr), q), Credit(sellerQuote, n), DebitFrozen(BuyKey(tr), n), Credit(buyerBase, q)];
      FourCallsTotal(t, SellKey(tr), q, sellerQuote, n, BuyKey(tr), buyerBase, a);
    }
  }

  /** A settlement conserves every asset exactly when it is not cut short; or, of no consequence, when it exchanges an
      asset for itself one for one. */
  lemma SettlementConservesIff(t: Table, tr: Trade)
    requires tr.quantity > 0.0 && tr.price > 0.0
    ensures (forall a :: Total(SettleTrade(t, tr, Taker(tr)).table, a) == Total(t, a))
            <==> !CutShort(t, tr) || (tr.base == tr.quote && tr.price == 1.0)
  {
    NotionalSign(tr);
    SettlementChanges(t, tr, tr.base);
    MadeIsZeroIff(t, tr);
    hide SettleTrade, Total, Made, CutShort;
    forall a ensures Total(SettleTrade(t, tr, Taker(tr)).table, a) == Total(t, a) + Made(t, tr, a) {
      SettlementChanges(t, tr, a);
    }
  }

  lemma MadeIsZeroIff(t: Table, tr: Trade)
    requires tr.quantity > 0.0 && tr.price > 0.0
    ensures !CutShort(t, tr) || (tr.base == tr.quote && tr.price == 1.0) ==> forall a :: Made(t, tr, a) == 0.0
    ensures CutShort(t, tr) && !(tr.base == tr.quote && tr.price == 1.0) ==> Made(t, tr, tr.base) != 0.0
  {
    NotionalSign(tr);
    OneForOne(tr);
  }

  lemma OneForOne(tr: Trade)
    requires tr.quantity > 0.0
    ensures Notional(tr) == tr.quantity <==> tr.price == 1.0
  {
    assert Notional(tr) - tr.quantity == tr.quantity * (tr.price - 1.0);
  }

  // ---------------------------------------------------------------- the settlement loop

  predicate Priced(orders: seq<Order>) { forall i :: 0 <= i < |orders| ==> orders[i].price > 0.0 }

  function MadeBy(s: State, takerId: OrderId, taker: UserId, trades: seq<Trade>, a: Asset): real
    decreases |trades|
  {
    if trades == [] then 0.0
    else Made(s.table, trades[0], a) + MadeBy(RunTrade(s, takerId, taker, trades[0]), takerId, taker, trades[1..], a)
  }

  lemma TurnKeepsPrices(s: State, takerId: OrderId, tr: Trade)
    requires takerId < |s.orders| && TradeOk(s.orders, takerId, tr) && Priced(s.orders)
    ensures var s' := RunTrade(s, takerId, s.orders[takerId].user, tr);
            && s'.orders == FillMaker(s.orders, MakerOf(tr, takerId), tr.quantity)
            && |s'.orders| == |s.orders| && s'.orders[takerId] == s.orders[takerId] && Priced(s'.orders)
            && tr.quantity > 0.0 && tr.price > 0.0 && Taker(tr) == s.orders[takerId].user
  {
  }

  lemma {:induction false} LoopChanges(s: State, takerId: OrderId, trades: seq<Trade>, a: Asset)
    requires takerId < |s.orders| && TradesOk(s.orders, takerId, trades) && Priced(s.orders)
    ensures var taker := s.orders[takerId].user;
            var s' := RunTrades(s, takerId, taker, trades);
            && Total(s'.table, a) == Total(s.table, a) + MadeBy(s, takerId, taker, trades, a)
            && |s'.orders| == |s.orders| && Priced(s'.orders)
    decreases |trades|
  {
    if trades == [] {
    } else {
      var tr := trades[0];
      assert TradeOk(s.orders, takerId, tr);
      var s1 := RunTrade(s, takerId, s.orders[takerId].user, tr);
      assert s1.table == SettleTrade(s.table, tr, s.orders[takerId].user).table;
      TurnKeepsPrices(s, takerId, tr);
      SettlementChanges(s.table, tr, a);
      hide RunTrade, TradeOk, FillMaker, SettleTrade, Total, Made, Priced;
      LoopChanges(s1, takerId, trades[1..], a);
    }
  }

  // ---------------------------------------------------------------- handlers and runs

  /** Where the settlement loop of a handler starts. */
  datatype Loop = Loop(start: State, takerId: OrderId, trades: seq<Trade>)

  function LoopOf(s: State, pairs: map<string, Pair>, op: Op): (l: Option<Loop>)
    requires OpOk(s, pairs, op)
    ensures l.Some? ==> l.value.takerId < |l.value.start.orders|
  {
    match op
    case Place(input, reply, fails) =>
      if PlaceOrder(s, pairs, input, reply, fails).1.Failed? then None
      else
        var o := NewOrder(pairs[input.pair], input, reply.filled, reply.status);
        var t := FreezeMove(s.table, o.FundingKey(), o.Cost(o.quantity)).table;
        var id := |s.orders|;
        Some(Loop(State(t, s.orders + [o], s.fills, s.terms[id := Terms(input.price, input.quantity)]), id, reply.trades))
    case Amend(input, reply, faults) =>
      if AmendOrder(s, input, reply, faults).1.Failed? || AmendedRow(s.orders[input.id], input) == s.orders[input.id] then
        None
      else
        var o, n := s.orders[input.id], AmendedRow(s.orders[input.id], input);
        Some(Loop(State(ShiftMove(s.table, o.FundingKey(), AmendDiff(o, input)).table, s.orders[input.id := n], s.fills,
                        s.terms[input.id := Terms(n.price, n.quantity)]), input.id, reply.trades))
    case _ => None
  }

  function MadeByStep(s: State, pairs: map<string, Pair>, op: Op, a: Asset): real
    requires OpOk(s, pairs, op)
  {
    match LoopOf(s, pairs, op)
    case None => 0.0
    case Some(l) => MadeBy(l.start, l.takerId, l.start.orders[l.takerId].user, l.trades, a)
  }

  lemma FreezeTotal(t: Table, k: Key, x: real, a: Asset)
    ensures FreezeMove(t, k, x).Moved? ==> Total(FreezeMove(t, k, x).table, a) == Total(t, a)
    ensures UnfreezeMove(t, k, x).Moved? ==> Total(UnfreezeMove(t, k, x).table, a) == Total(t, a)
  {
    if FreezeMove(t, k, x).Moved? { TotalUpdate(t, k, FreezeMove(t, k, x).table[k], a); }
    if UnfreezeMove(t, k, x).Moved? { TotalUpdate(t, k, UnfreezeMove(t, k, x).table[k], a); }
  }

  lemma ShiftTotal(t: Table, k: Key, diff: real, a: Asset)
    ensures ShiftMove(t, k, diff).Moved? ==> Total(ShiftMove(t, k, diff).table, a) == Total(t, a)
  {
    FreezeTotal(t, k, diff, a);
    FreezeTotal(t, k, -diff, a);
  }

  /** A handler that reaches its settlement loop has only moved funds between available and frozen before, and only
      sets the taker's row afterwards; one that does not has only moved funds. */
  predicate Starts(s: State, pairs: map<string, Pair>, op: Op, s': State, reply: Reply)
    requires OpOk(s, pairs, op)
  {
    match LoopOf(s, pairs, op)
    case None => s'.orders == s.orders
    case Some(l) =>
      && reply.Accepted? && Priced(l.start.orders) && TradesOk(l.start.orders, l.takerId, l.trades)
      && var settled := RunTrades(l.start, l.takerId, l.start.orders[l.takerId].user, l.trades);
      && s'.table == settled.table
      && s'.orders == UpdateOrderStatus(settled.orders, l.takerId, reply.status, reply.filled)
  }

  ghost predicate StartsEven(s: State, pairs: map<string, Pair>, op: Op, s': State, a: Asset)
    requires OpOk(s, pairs, op)
  {
    match LoopOf(s, pairs, op)
    case None => Total(s'.table, a) == Total(s.table, a)
    case Some(l) => Total(l.start.table, a) == Total(s.table, a)
  }

  lemma PlaceStarts(s: State, pairs: map<string, Pair>, input: PlaceInput, reply: Reply, fails: bool)
    requires PlaceOk(s, pairs, input, reply) && Priced(s.orders)
    ensures Starts(s, pairs, Place(input, reply, fails), PlaceOrder(s, pairs, input, reply, fails).0, reply)
  {
    hide RunTrades, TradesOk, UpdateOrderStatus;
    if PlaceOrder(s, pairs, input, reply, fails).1.Ok? {
      var draft, o := NewOrder(pairs[input.pair], input, 0.0, Open),
                      NewOrder(pairs[input.pair], input, reply.filled, reply.status);
      assert o == draft.(filled := reply.filled, status := reply.status);
      assert o.FundingKey() == draft.FundingKey() && o.Cost(o.quantity) == draft.Cost(input.quantity);
    }
  }

  lemma PlaceStartsEven(s: State, pairs: map<string, Pair>, input: PlaceInput, reply: Reply, fails: bool, a: Asset)
    requires PlaceOk(s, pairs, input, reply)
    ensures StartsEven(s, pairs, Place(input, reply, fails), PlaceOrder(s, pairs, input, reply, fails).0, a)
  {
    hide RunTrades, TradesOk, UpdateOrderStatus, Total;
    if input.pair in pairs {
      var draft := NewOrder(pairs[input.pair], input, 0.0, Open);
      var k, x := draft.FundingKey(), draft.Cost(input.quantity);
      FreezeTotal(s.table, k, x, a);
      if reply.Accepted? {
        var o := NewOrder(pairs[input.pair], input, reply.filled, reply.status);
        assert o == draft.(filled := reply.filled, status := reply.status);
        assert o.FundingKey() == k && o.Cost(o.quantity) == x;
      }
      if FreezeMove(s.table, k, x).Moved? { FreezeTotal(FreezeMove(s.table, k, x).table, k, x, a); }
    }
  }

  lemma AmendStarts(s: State, pairs: map<string, Pair>, input: AmendInput, reply: Reply, faults: Faults)
    requires AmendOk(s, input, reply) && Priced(s.orders) && AmendOrder(s, input, reply, faults).1.Ok?
    requires AmendedRow(s.orders[input.id], input) != s.orders[input.id]
    ensures Starts(s, pairs, Amend(input, reply, faults), AmendOrder(s, input, reply, faults).0, reply)
  {
    hide RunTrades, TradesOk, UpdateOrderStatus, ShiftMove;
  }

  lemma AmendStartsEven(s: State, pairs: map<string, Pair>, input: AmendInput, reply: Reply, faults: Faults, a: Asset)
    requires AmendOk(s, input, reply)
    ensures StartsEven(s, pairs, Amend(input, reply, faults), AmendOrder(s, input, reply, faults).0, a)
  {
    hide RunTrades, TradesOk, UpdateOrderStatus, Total, ShiftMove, AmendDiff, ReplyOk;
    if input.id < |s.orders| {
      var o := s.orders[input.id];
      var k, diff := o.FundingKey(), AmendDiff(o, input);
      ShiftTotal(s.table, k, diff, a);
      if ShiftMove(s.table, k, diff).Moved? { ShiftTotal(ShiftMove(s.table, k, diff).table, k, -diff, a); }
    }
  }

  lemma AmendFailureKeepsRows(s: State, input: AmendInput, reply: Reply, faults: Faults)
    requires AmendOk(s, input, reply)
    requires AmendOrder(s, input, reply, faults).1.Ok? ==> AmendedRow(s.orders[input.id], input) == s.orders[input.id]
    ensures AmendOrder(s, input, reply, faults).0.orders == s.orders
  {
    hide RunTrades, TradesOk, UpdateOrderStatus, ShiftMove, AmendDiff, ReplyOk;
  }

  /** From its start, a loop changes totals by what it makes. */
  lemma StartedChanges(s: State, pairs: map<string, Pair>, op: Op, s': State, reply: Reply, a: Asset)
    requires OpOk(s, pairs, op) && Priced(s.orders) && Starts(s, pairs, op, s', reply) && StartsEven(s, pairs, op, s', a)
    ensures Total(s'.table, a) == Total(s.table, a) + MadeByStep(s, pairs, op, a) && Priced(s'.orders)
  {
    hide OpOk, LoopOf, RunTrades, TradesOk, Total;
    match LoopOf(s, pairs, op)
    case None =>
    case Some(l) => LoopChanges(l.start, l.takerId, l.trades, a);
  }

  lemma {:induction false} RefundsTotal(t: Table, orders: seq<Order>, ids: seq<OrderId>, failing: set<OrderId>, a: Asset)
    requires forall i :: 0 <= i < |ids| ==> ids[i] < |orders|
    ensures Total(Refunds(t, orders, ids, failing), a) == Total(t, a)
    decreases |ids|
  {
    if ids == [] {
    } else {
      var o := orders[ids[0]];
      FreezeTotal(t, o.FundingKey(), o.Cost(o.Remaining()), a);
      var t' := if o.Remaining() <= 0.0 || ids[0] in failing then t
                else After(UnfreezeMove(t, o.FundingKey(), o.Cost(o.Remaining())), t);
      hide Total;
      RefundsTotal(t', orders, ids[1..], failing, a);
    }
  }

  lemma StepChanges(s: State, pairs: map<string, Pair>, op: Op, a: Asset)
    requires OpOk(s, pairs, op) && Priced(s.orders)
    ensures Total(Step(s, pairs, op).table, a) == Total(s.table, a) + MadeByStep(s, pairs, op, a)
    ensures Priced(Step(s, pairs, op).orders)
  {
    match op
    case Place(input, reply, fails) =>
      PlaceStarts(s, pairs, input, reply, fails);
      PlaceStartsEven(s, pairs, input, reply, fails, a);
      StartedChanges(s, pairs, op, PlaceOrder(s, pairs, input, reply, fails).0, reply, a);
    case Amend(input, reply, faults) =>
      if LoopOf(s, pairs, op).Some? {
        AmendStarts(s, pairs, input, reply, faults);
      } else {
        AmendFailureKeepsRows(s, input, reply, faults);
      }
      AmendStartsEven(s, pairs, input, reply, faults, a);
      StartedChanges(s, pairs, op, AmendOrder(s, input, reply, faults).0, reply, a);
    case Cancel(id, _, _) =>
      if id < |s.orders| { FreezeTotal(s.table, s.orders[id].FundingKey(), CancelAmount(s.table, s.orders[id]), a); }
    case CancelAll(user, filter, failing) =>
      var ids := SelectedIds(s.orders, user, filter);
      SelectedIdsInRange(s.orders, user, filter, ids);
      RefundsTotal(s.table, s.orders, ids, failing, a);
  }

  /** What all settlements of a run make of an asset. */
  function MadeByRun(s: State, pairs: map<string, Pair>, ops: seq<Op>, a: Asset): real
    requires RunOk(s, pairs, ops)
    decreases |ops|
  {
    if ops == [] then 0.0
    else MadeByStep(s, pairs, ops[0], a) + MadeByRun(Step(s, pairs, ops[0]), pairs, ops[1..], a)
  }

  /** In every run at all, with whatever failures of amends and refunds and from whatever balances, the total of an asset
      changes by exactly what the settlements make of it that are cut short. */
  lemma {:induction false} RunChanges(s: State, pairs: map<string, Pair>, ops: seq<Op>, a: Asset)
    requires RunOk(s, pairs, ops) && Priced(s.orders)
    ensures Total(Run(s, pairs, ops).table, a) == Total(s.table, a) + MadeByRun(s, pairs, ops, a)
    decreases |ops|
  {
    if ops == [] {
    } else {
      hide OpOk, Step, Total, Priced, MadeByStep;
      StepChanges(s, pairs, ops[0], a);
      RunChanges(Step(s, pairs, ops[0]), pairs, ops[1..], a);
    }
  }

  // ---------------------------------------------------------------- it happens

  /** The offer of one unit is halved, the row UPDATE fails and so does the call that would have frozen the other half
      again; the engine takes back its terms. */
  const UNCOVER: Op :=
    Amend(AmendInput(0, 2, 0.0, 0.5), Accepted([], Open, 0.0), Faults(false, true, true, false, false))

  const UNCOVERED: State :=
    AFTER_OFFER.(table := map[Key(1, "USDT") := Balance(10.0, 0.0), Key(2, "BTC") := Balance(0.5, 0.5)])

  lemma UncoverShifts()
    ensures var o, input, key := AFTER_OFFER.orders[0], AmendInput(0, 2, 0.0, 0.5), Key(2, "BTC");
            && AmendRefusal(AFTER_OFFER, input).None? && AmendedRow(o, input) == o.(quantity := 0.5)
            && AmendDiff(o, input) == -0.5 && o.FundingKey() == key
            && ShiftMove(AFTER_OFFER.table, key, -0.5) == Moved(UNCOVERED.table)
  {
    assert UNCOVERED.table == AFTER_OFFER.table[Key(2, "BTC") := Balance(0.5, 0.5)];
  }

  /** An amend whose row update fails and whose wallet move is not taken back. */
  lemma UndoIsLost(s: State, input: AmendInput, reply: Reply, t: Table)
    requires AmendOk(s, input, reply) && AmendRefusal(s, input).None? && reply.Accepted?
    requires AmendedRow(s.orders[input.id], input) != s.orders[input.id]
    requires var o := s.orders[input.id]; ShiftMove(s.table, o.FundingKey(), AmendDiff(o, input)) == Moved(t)
    ensures AmendOrder(s, input, reply, Faults(false, true, true, false, false)).0
         == var o, n := s.orders[input.id], AmendedRow(s.orders[input.id], input);
            s.(table := t,
               terms := s.terms[input.id := Terms(n.price, n.quantity)][input.id := Terms(o.price, o.quantity)])
  {
    hide RunTrades, UpdateOrderStatus, ShiftMove, AmendDiff, ReplyOk;
  }

  lemma UncoverRuns()
    ensures OpOk(AFTER_OFFER, IMPROVEMENT_PAIRS, UNCOVER)
    ensures Step(AFTER_OFFER, IMPROVEMENT_PAIRS, UNCOVER) == UNCOVERED
  {
    assert Volume([]) == 0.0;
    UncoverShifts();
    hide ShiftMove, AmendDiff, AmendRefusal, TradesOk, Volume, AmendedRow, AmendOrder;
    UndoIsLost(AFTER_OFFER, AmendInput(0, 2, 0.0, 0.5), Accepted([], Open, 0.0), UNCOVERED.table);
    assert AFTER_OFFER.terms[0 := Terms(8.0, 0.5)][0 := Terms(8.0, 1.0)] == AFTER_OFFER.terms;
  }

  lemma TakeIsStillOk()
    ensures OpOk(UNCOVERED, IMPROVEMENT_PAIRS, TAKE_AT_TEN) && Priced(UNCOVERED.orders)
  {
    TakeIsOk(AFTER_OFFER);
  }

  /** The buyer's ten are frozen, eight are paid for the unit, and the seller has only half of it frozen. */
  lemma TakeMakesOne()
    requires OpOk(UNCOVERED, IMPROVEMENT_PAIRS, TAKE_AT_TEN)
    ensures MadeByStep(UNCOVERED, IMPROVEMENT_PAIRS, TAKE_AT_TEN, "BTC") == 1.0
    ensures MadeByStep(UNCOVERED, IMPROVEMENT_PAIRS, TAKE_AT_TEN, "USDT") == -8.0
  {
    var l := TakeStarts();
    TakeIsCutShort(l.start.table);
    OneTradeMakes(l.start, 1, 1, TRADE_AT_EIGHT, "BTC");
    OneTradeMakes(l.start, 1, 1, TRADE_AT_EIGHT, "USDT");
    hide LoopOf, MadeBy, Made, OpOk;
  }

  lemma TakeStarts() returns (l: Loop)
    requires OpOk(UNCOVERED, IMPROVEMENT_PAIRS, TAKE_AT_TEN)
    ensures LoopOf(UNCOVERED, IMPROVEMENT_PAIRS, TAKE_AT_TEN) == Some(l) && l.takerId == 1 && l.trades == [TRADE_AT_EIGHT]
    ensures |l.start.orders| == 2 && l.start.orders[1].user == 1
    ensures l.start.table == UNCOVERED.table[Key(1, "USDT") := Balance(0.0, 10.0)]
  {
    var t := UNCOVERED.table[Key(1, "USDT") := Balance(0.0, 10.0)];
    assert FreezeMove(UNCOVERED.table, Key(1, "USDT"), 10.0) == Moved(t);
    hide ReplyOk, TradesOk, TradeOk, Volume, RunTrade, RunTrades, FillMaker, UpdateOrderStatus;
    l := LoopOf(UNCOVERED, IMPROVEMENT_PAIRS, TAKE_AT_TEN).value;
  }

  lemma TakeIsCutShort(t: Table)
    requires t == UNCOVERED.table[Key(1, "USDT") := Balance(0.0, 10.0)]
    ensures Made(t, TRADE_AT_EIGHT, "BTC") == 1.0 && Made(t, TRADE_AT_EIGHT, "USDT") == -8.0
  {
    assert Notional(TRADE_AT_EIGHT) == 8.0;
    assert At(t, Key(1, "USDT")).frozen == 10.0 && At(t, Key(2, "BTC")).frozen == 0.5;
  }

  lemma OneTradeMakes(s: State, takerId: OrderId, taker: UserId, tr: Trade, a: Asset)
    ensures MadeBy(s, takerId, taker, [tr], a) == Made(s.table, tr, a)
  {
    hide Made, RunTrade;
    assert [tr][1..] == [];
    assert MadeBy(RunTrade(s, takerId, taker, tr), takerId, taker, [], a) == 0.0;
  }

  /** So the buyer gets one unit the seller keeps, and pays eight the seller never sees. */
  lemma UncoveredTradeMakesOne()
    ensures var ops := [UNCOVER, TAKE_AT_TEN];
            && RunOk(AFTER_OFFER, IMPROVEMENT_PAIRS, ops)
            && var t, t' := AFTER_OFFER.table, Run(AFTER_OFFER, IMPROVEMENT_PAIRS, ops).table;
            Total(t', "BTC") == Total(t, "BTC") + 1.0 && Total(t', "USDT") == Total(t, "USDT") - 8.0
  {
    var ops := [UNCOVER, TAKE_AT_TEN];
    UncoverRuns();
    TakeIsStillOk();
    TakeMakesOne();
    hide Step, OpOk, MadeByStep, Total;
    assert ops[1..] == [TAKE_AT_TEN] && [TAKE_AT_TEN][1..] == [];
    assert RunOk(UNCOVERED, IMPROVEMENT_PAIRS, [TAKE_AT_TEN]);
    var s2 := Step(UNCOVERED, IMPROVEMENT_PAIRS, TAKE_AT_TEN);
    assert Run(UNCOVERED, IMPROVEMENT_PAIRS, [TAKE_AT_TEN]) == Run(s2, IMPROVEMENT_PAIRS, []) == s2;
    assert Run(AFTER_OFFER, IMPROVEMENT_PAIRS, ops) == s2;
    StepChanges(UNCOVERED, IMPROVEMENT_PAIRS, TAKE_AT_TEN, "BTC");
    StepChanges(UNCOVERED, IMPROVEMENT_PAIRS, TAKE_AT_TEN, "USDT");
    SameTotals();
  }

  lemma SameTotals()
    ensures forall a :: Total(UNCOVERED.table, a) == Total(AFTER_OFFER.table, a)
  {
    forall a ensures Total(UNCOVERED.table, a) == Total(AFTER_OFFER.table, a) {
      TotalUpdate(AFTER_OFFER.table, Key(2, "BTC"), Balance(0.5, 0.5), a);
      assert AFTER_OFFER.table[Key(2, "BTC") := Balance(0.5, 0.5)] == UNCOVERED.table;
    }
  }
}
