/** FIFO profit and loss (internal/analytics/pnl.go). Quantities are whole micro-units, the precision a trimmed lot
    is written back with; prices are exact. The reference keeps single units: the price of every unit bought and of
    every unit sold, where the k-th matched sale sells the k-th unit bought. */
module FifoPnl {
  import opened Sums

  datatype Side = Buy | Sell
  datatype Trade = Trade(pair: string, price: real, quantity: nat, side: Side)
  datatype Lot = Lot(price: real, quantity: nat)

  // ---------------------------------------------------------------- the unit-by-unit reference

  function Copies(price: real, n: nat): seq<real> {
    seq(n, _ => price)
  }

  function Total(units: seq<real>): real {
    if units == [] then 0.0 else units[0] + Total(units[1..])
  }

  function Min(x: int, y: int): int { if x <= y then x else y }

  /** The money `n` units change hands for, unit by unit; WorthIsProduct says it is n * price. */
  function Worth(n: nat, price: real): real { Total(Copies(price, n)) }

  /** Units bought and matched sales by price; the other fields are plain totals, `oversold` of the units sold that
      nothing had been bought for. */
  datatype Units = Units(bought: seq<real>, sales: seq<real>, sold: nat, cost: real, revenue: real, oversold: real,
                         volume: real, trades: nat)

  predicate Paired(u: Units) { |u.sales| <= |u.bought| }

  /** Bought units no sale has used up yet. */
  function Queued(u: Units): seq<real>
    requires Paired(u)
  {
    u.bought[|u.sales|..]
  }

  function Next(u: Units, t: Trade): (r: Units)
    requires Paired(u)
    ensures Paired(r)
  {
    var w := Worth(t.quantity, t.price);
    if t.side.Buy? then
      u.(bought := u.bought + Copies(t.price, t.quantity), cost := u.cost + w, volume := u.volume + w,
         trades := u.trades + 1)
    else
      var k := Min(t.quantity, |Queued(u)|);
      u.(sales := u.sales + Copies(t.price, k), sold := u.sold + t.quantity, revenue := u.revenue + w,
         oversold := u.oversold + Worth(t.quantity - k, t.price), volume := u.volume + w, trades := u.trades + 1)
  }

  /** The reference after a history of one pair. */
  function Replay(h: seq<Trade>): (r: Units)
    ensures Paired(r)
  {
    if h == [] then Units([], [], 0, 0.0, 0.0, 0.0, 0.0, 0) else Next(Replay(h[..|h| - 1]), h[|h| - 1])
  }

  lemma ReplayNext(h: seq<Trade>, t: Trade)
    ensures Replay(h + [t]) == Next(Replay(h), t)
  {
    assert (h + [t])[..|h|] == h;
  }

  /** Profit of selling the k-th unit at sales[k] after buying it at costs[k], over all k. */
  function Gain(sales: seq<real>, costs: seq<real>): real
    requires |sales| <= |costs|
  {
    if sales == [] then 0.0 else sales[0] - costs[0] + Gain(sales[1..], costs[1..])
  }

  function Realized(u: Units): real
    requires Paired(u)
  {
    Gain(u.sales, u.bought)
  }

  function Flatten(queue: seq<Lot>): seq<real> {
    if queue == [] then [] else Copies(queue[0].price, queue[0].quantity) + Flatten(queue[1..])
  }

  // ---------------------------------------------------------------- sums of units

  lemma {:induction false} TotalAppend(s: seq<real>, t: seq<real>)
    ensures Total(s + t) == Total(s) + Total(t)
  {
    if s == [] {
      assert s + t == t;
    } else {
      assert (s + t)[1..] == s[1..] + t;
      TotalAppend(s[1..], t);
    }
  }

  lemma {:induction false} WorthIsProduct(n: nat, price: real)
    ensures Worth(n, price) == n as real * price
  {
    if n == 0 {
    } else {
      assert Copies(price, n)[1..] == Copies(price, n - 1);
      WorthIsProduct(n - 1, price);
    }
  }

  lemma MoreWorth(done: nat, n: nat, price: real)
    ensures Worth(done + n, price) == Worth(done, price) + Worth(n, price)
  {
    assert Copies(price, done + n) == Copies(price, done) + Copies(price, n);
    TotalAppend(Copies(price, done), Copies(price, n));
  }

  lemma WorthOfSpread(n: nat, price: real, cost: real, profit: real)
    requires profit == (price - cost) * n as real
    ensures profit == Worth(n, price) - Worth(n, cost)
  {
    WorthIsProduct(n, price);
    WorthIsProduct(n, cost);
  }

  /** The unit-by-unit profit is what the sales brought less what those units cost. */
  lemma {:induction false} GainIsDifference(sales: seq<real>, costs: seq<real>)
    requires |sales| <= |costs|
    ensures Gain(sales, costs) == Total(sales) - Total(costs[..|sales|])
  {
    if sales == [] {
    } else {
      GainIsDifference(sales[1..], costs[1..]);
      assert costs[..|sales|][1..] == costs[1..][..|sales| - 1];
    }
  }

  lemma {:induction false} FlattenAppend(queue: seq<Lot>, lot: Lot)
    ensures Flatten(queue + [lot]) == Flatten(queue) + Copies(lot.price, lot.quantity)
  {
    if queue == [] {
      assert (queue + [lot])[1..] == [];
    } else {
      assert (queue + [lot])[1..] == queue[1..] + [lot];
      FlattenAppend(queue[1..], lot);
    }
  }

  /** What one more buy does to the units. */
  lemma AfterBuy(u: Units, t: Trade)
    requires Paired(u) && t.side.Buy?
    ensures Queued(Next(u, t)) == Queued(u) + Copies(t.price, t.quantity)
    ensures Realized(Next(u, t)) == Realized(u)
  {
    GainIsDifference(u.sales, u.bought);
    GainIsDifference(u.sales, Next(u, t).bought);
    assert Next(u, t).bought[..|u.sales|] == u.bought[..|u.sales|];
  }

  /** What one more sale does to the units. */
  lemma AfterSale(u: Units, t: Trade, k: nat)
    requires Paired(u) && t.side.Sell? && k == Min(t.quantity, |Queued(u)|)
    ensures Queued(Next(u, t)) == Queued(u)[k..]
    ensures Realized(Next(u, t)) == Realized(u) + Worth(k, t.price) - Total(Queued(u)[..k])
  {
    var m := |u.sales|;
    GainIsDifference(u.sales, u.bought);
    GainIsDifference(Next(u, t).sales, u.bought);
    TotalAppend(u.sales, Copies(t.price, k));
    assert u.bought[..m + k] == u.bought[..m] + Queued(u)[..k];
    TotalAppend(u.bought[..m], Queued(u)[..k]);
  }

  // ---------------------------------------------------------------- one pair

  class PairState {
    var queue: seq<Lot>
    var totalBought: nat
    var totalSold: nat
    var totalVolume: real
    var realized: real
    var totalBuyCost: real
    var totalSellRev: real
    var tradeCount: nat

    /** The state says of its pair what the single units say. */
    ghost predicate Follows(u: Units)
      requires Paired(u)
      reads this
    {
      && Flatten(queue) == Queued(u) && realized == Realized(u)
      && totalBought == |u.bought| && totalSold == u.sold
      && totalBuyCost == u.cost && totalSellRev == u.revenue
      && totalVolume == u.volume && tradeCount == u.trades
    }

    constructor ()
      ensures Follows(Replay([]))
    {
      queue, totalBought, totalSold, tradeCount := [], 0, 0, 0;
      totalVolume, realized, totalBuyCost, totalSellRev := 0.0, 0.0, 0.0, 0.0;
    }

    /** The FIFO loop: as many units leave the front as are sold, or all there are. */
    method Match(price: real, quantity: nat, ghost units: seq<real>, ghost k: nat)
      requires units == Flatten(queue) && k == Min(quantity, |units|)
      modifies this`queue, this`realized
      ensures Partway(queue, price, units, k, realized - old(realized))
    {
      hide Partway, Flatten;
      ghost var done: nat := 0;
      var remaining := quantity;
      NothingSoldYet(queue, price);
      while remaining > 0 && |queue| > 0
        invariant 0 <= remaining <= quantity && done == quantity - remaining
        invariant Partway(queue, price, units, done, realized - old(realized))
        decreases |queue|, remaining
      {
        var buy := queue[0];
        var matchQty := buy.quantity;
        if matchQty > remaining {
          matchQty := remaining;
        }
        var profit := (price - buy.price) * matchQty as real;
        EarnFromFront(queue, matchQty, price, units, done, realized - old(realized), profit);
        realized := realized + profit;
        remaining := remaining - matchQty;
        if matchQty >= buy.quantity {
          queue := queue[1..];
        } else {
          queue := queue[0 := Lot(buy.price, buy.quantity - matchQty)];
        }
        done := done + matchQty;
      }
      AllSold(queue, price, units, done, realized - old(realized), quantity);
    }

    /** One round of the loop over all trades, for the pair the trade belongs to. */
    method Record(t: Trade, ghost u: Units)
      requires Paired(u) && Follows(u)
      modifies this
      ensures Follows(Next(u, t))
    {
      hide Total, Gain, Flatten;
      tradeCount := tradeCount + 1;
      var qty, price := t.quantity, t.price;
      WorthIsProduct(qty, price);
      if t.side.Buy? {
        AfterBuy(u, t);
        FlattenAppend(queue, Lot(price, qty));
        totalBought := totalBought + qty;
        totalBuyCost := totalBuyCost + qty as real * price;
        queue := queue + [Lot(price, qty)];
      } else {
        ghost var k := Min(qty, |Queued(u)|);
        AfterSale(u, t, k);
        totalSold := totalSold + qty;
        totalSellRev := totalSellRev + qty as real * price;
        Match(price, qty, Queued(u), k);
      }
      totalVolume := totalVolume + qty as real * price;
    }

    method Holdings() returns (n: nat)
      ensures n == |Flatten(queue)|
    {
      n := 0;
      for i := 0 to |queue|
        invariant n + |Flatten(queue[i..])| == |Flatten(queue)|
      {
        assert queue[i..][1..] == queue[i + 1..];
        n := n + queue[i].quantity;
      }
    }
  }

  function Trimmed(queue: seq<Lot>, n: nat): seq<Lot>
    requires queue != [] && n <= queue[0].quantity
  {
    if n == queue[0].quantity then queue[1..] else queue[0 := Lot(queue[0].price, queue[0].quantity - n)]
  }

  /** `done` of the `units` have been sold at `price`, for a profit of `gained`. */
  ghost predicate Partway(queue: seq<Lot>, price: real, units: seq<real>, done: nat, gained: real) {
    done <= |units| && Flatten(queue) == units[done..] && gained == Worth(done, price) - Total(units[..done])
  }

  lemma NothingSoldYet(queue: seq<Lot>, price: real)
    ensures Partway(queue, price, Flatten(queue), 0, 0.0)
  {
  }

  lemma AllSold(queue: seq<Lot>, price: real, units: seq<real>, done: nat, gained: real, quantity: nat)
    requires Partway(queue, price, units, done, gained) && done <= quantity && (queue == [] || done == quantity)
    ensures done == Min(quantity, |units|)
  {
    assert |units[done..]| == |units| - done;
  }

  lemma SellFromFront(queue: seq<Lot>, n: nat, price: real, units: seq<real>, done: nat, gained: real, profit: real)
    requires queue != [] && n <= queue[0].quantity && Partway(queue, price, units, done, gained)
    requires profit == Worth(n, price) - Worth(n, queue[0].price)
    ensures Partway(Trimmed(queue, n), price, units, done + n, gained + profit)
  {
    MoreWorth(done, n, price);
    TakeUnits(queue, n, units, done);
  }

  lemma EarnFromFront(queue: seq<Lot>, n: nat, price: real, units: seq<real>, done: nat, gained: real, profit: real)
    requires queue != [] && n <= queue[0].quantity && Partway(queue, price, units, done, gained)
    requires profit == (price - queue[0].price) * n as real
    ensures Partway(Trimmed(queue, n), price, units, done + n, gained + profit)
  {
    WorthOfSpread(n, price, queue[0].price, profit);
    SellFromFront(queue, n, price, units, done, gained, profit);
  }

  /** Taking `n` units out of the first lot takes the first `n` units off the flattened queue. */
  lemma TakeUnits(queue: seq<Lot>, n: nat, units: seq<real>, done: nat)
    requires queue != [] && n <= queue[0].quantity && done <= |units| && Flatten(queue) == units[done..]
    ensures done + n <= |units| && Flatten(Trimmed(queue, n)) == units[done + n..]
    ensures Total(units[..done + n]) == Total(units[..done]) + Worth(n, queue[0].price)
  {
    var sold := Copies(queue[0].price, n);
    TrimmedUnits(queue, n);
    assert units == units[..done] + (sold + Flatten(Trimmed(queue, n)));
    assert units[..done + n] == units[..done] + sold;
    TotalAppend(units[..done], sold);
  }

  lemma TrimmedUnits(queue: seq<Lot>, n: nat)
    requires queue != [] && n <= queue[0].quantity
    ensures Flatten(queue) == Copies(queue[0].price, n) + Flatten(Trimmed(queue, n))
  {
    if n < queue[0].quantity {
      SplitCopies(queue[0].price, n, queue[0].quantity - n, Flatten(queue[1..]));
      assert Trimmed(queue, n)[1..] == queue[1..];
    }
  }

  lemma SplitCopies(price: real, m: nat, n: nat, rest: seq<real>)
    ensures Copies(price, m + n) + rest == Copies(price, m) + (Copies(price, n) + rest)
  {
    assert Copies(price, m + n) == Copies(price, m) + Copies(price, n);
  }

  // ---------------------------------------------------------------- accounting identities

  /** What a history's totals mean in single units. */
  ghost predicate Balanced(u: Units)
    requires Paired(u)
  {
    u.cost == Total(u.bought) && u.revenue == Total(u.sales) + u.oversold
  }

  lemma NextBalanced(u: Units, t: Trade)
    requires Paired(u) && Balanced(u)
    ensures Balanced(Next(u, t))
  {
    if t.side.Buy? {
      TotalAppend(u.bought, Copies(t.price, t.quantity));
    } else {
      var k := Min(t.quantity, |Queued(u)|);
      TotalAppend(u.sales, Copies(t.price, k));
      MoreWorth(k, t.quantity - k, t.price);
    }
  }

  lemma {:induction false} ReplayBalanced(h: seq<Trade>)
    ensures Balanced(Replay(h))
  {
    if h == [] {
    } else {
      ReplayBalanced(h[..|h| - 1]);
      NextBalanced(Replay(h[..|h| - 1]), h[|h| - 1]);
    }
  }

  lemma BalancedIdentity(u: Units)
    requires Paired(u) && Balanced(u)
    ensures u.cost == Total(u.bought[..|u.sales|]) + Total(Queued(u))
    ensures Realized(u) == u.revenue - u.oversold - u.cost + Total(Queued(u))
  {
    GainIsDifference(u.sales, u.bought);
    assert u.bought == u.bought[..|u.sales|] + Queued(u);
    TotalAppend(u.bought[..|u.sales|], Queued(u));
  }

  /** For every history: the money spent is in matched units or in the queue, and realized profit is revenue less cost
      plus what is still queued, less the oversold revenue. */
  lemma RealizedIdentity(h: seq<Trade>)
    ensures var u := Replay(h);
            && u.cost == Total(u.bought[..|u.sales|]) + Total(Queued(u))
            && Realized(u) == u.revenue - u.oversold - u.cost + Total(Queued(u))
  {
    ReplayBalanced(h);
    BalancedIdentity(Replay(h));
  }

  /** At no moment had more been sold than bought. */
  ghost predicate NeverOversold(h: seq<Trade>) {
    forall i :: 0 <= i <= |h| ==> CoveredAt(h, i)
  }

  ghost predicate CoveredAt(h: seq<Trade>, i: nat)
    requires i <= |h|
  {
    Replay(h[..i]).sold <= |Replay(h[..i]).bought|
  }

  predicate PositivePrices(h: seq<Trade>) {
    forall i :: 0 <= i < |h| ==> h[i].price > 0.0
  }

  /** Either everything sold was matched, or money came in for units that were not there. */
  ghost predicate Explained(u: Units)
    requires Paired(u)
  {
    |u.sales| <= u.sold && u.oversold >= 0.0 && (u.oversold == 0.0 <==> |u.sales| == u.sold)
  }

  lemma NextExplained(u: Units, t: Trade)
    requires Paired(u) && Explained(u) && t.price > 0.0
    ensures Explained(Next(u, t))
    ensures Next(u, t).oversold == 0.0 <==> u.oversold == 0.0 && Next(u, t).sold <= |Next(u, t).bought|
  {
    if t.side.Sell? {
      var left := t.quantity - Min(t.quantity, |Queued(u)|);
      PositiveWorth(left, t.price);
    }
  }

  lemma PositiveWorth(n: nat, price: real)
    requires price > 0.0
    ensures Worth(n, price) >= 0.0 && (Worth(n, price) == 0.0 <==> n == 0)
  {
    WorthIsProduct(n, price);
  }

  lemma {:induction false} OversoldShows(h: seq<Trade>)
    requires PositivePrices(h)
    ensures Explained(Replay(h))
    ensures Replay(h).oversold == 0.0 <==> NeverOversold(h)
  {
    if h == [] {
      assert h[..0] == [];
    } else {
      var n := |h| - 1;
      OversoldShows(h[..n]);
      NextExplained(Replay(h[..n]), h[n]);
      OneMoreCovered(h);
    }
  }

  lemma OneMoreCovered(h: seq<Trade>)
    requires h != []
    ensures NeverOversold(h) <==> NeverOversold(h[..|h| - 1]) && Replay(h).sold <= |Replay(h).bought|
  {
    var g := h[..|h| - 1];
    assert h[..|h|] == h;
    forall i | 0 <= i <= |g| ensures CoveredAt(h, i) <==> CoveredAt(g, i) {
      assert h[..i] == g[..i];
    }
    assert CoveredAt(h, |h|) <==> Replay(h).sold <= |Replay(h).bought|;
  }

  /** The simple identity, revenue less cost plus the queue, holds exactly for accounts that never sold what they had
      not bought. */
  lemma SimpleIdentityIff(h: seq<Trade>)
    requires PositivePrices(h)
    ensures var u := Replay(h);
            Realized(u) == u.revenue - u.cost + Total(Queued(u)) <==> NeverOversold(h)
  {
    RealizedIdentity(h);
    OversoldShows(h);
  }

  // ---------------------------------------------------------------- the reference in figures

  /** Units bought, or sold, over a history. */
  function Moved(h: seq<Trade>, side: Side): nat {
    if h == [] then 0
    else (if h[|h| - 1].side == side then h[|h| - 1].quantity else 0) + Moved(h[..|h| - 1], side)
  }

  /** What a trade changed hands for. */
  function Value(t: Trade): real { t.quantity as real * t.price }

  /** The money of a history's purchases, or sales. */
  function Money(h: seq<Trade>, side: Side): real {
    if h == [] then 0.0
    else
      (if h[|h| - 1].side == side then Value(h[|h| - 1]) else 0.0) + Money(h[..|h| - 1], side)
  }

  /** The totals of a history are sums over its purchases and over its sales, quantity by quantity and quantity times
      price; no more is matched than was sold or bought. */
  lemma {:induction false} ReplayInFigures(h: seq<Trade>)
    ensures var u := Replay(h);
            && |u.bought| == Moved(h, Buy) && u.sold == Moved(h, Sell)
            && u.cost == Money(h, Buy) && u.revenue == Money(h, Sell)
            && u.volume == Money(h, Buy) + Money(h, Sell) && u.trades == |h|
            && |u.sales| <= u.sold && |u.sales| <= |u.bought|
  {
    if h == [] {
    } else {
      hide *;
      LastInFigures(h);
      ReplayInFigures(h[..|h| - 1]);
      NextInFigures(Replay(h[..|h| - 1]), h[|h| - 1]);
    }
  }

  lemma LastInFigures(h: seq<Trade>)
    requires h != []
    ensures var g, t := h[..|h| - 1], h[|h| - 1];
            && Replay(h) == Next(Replay(g), t) && Paired(Replay(g)) && Paired(Replay(h))
            && (forall side :: Moved(h, side) == Moved(g, side) + (if t.side == side then t.quantity else 0))
            && (forall side :: Money(h, side) == Money(g, side) + (if t.side == side then Value(t) else 0.0))
  {
    hide Next;
  }

  /** One trade more. */
  lemma NextInFigures(u: Units, t: Trade)
    requires Paired(u)
    ensures var u', x := Next(u, t), Value(t);
            && |u'.bought| == |u.bought| + (if t.side == Buy then t.quantity else 0)
            && u'.sold == u.sold + (if t.side == Sell then t.quantity else 0)
            && u'.cost == u.cost + (if t.side == Buy then x else 0.0)
            && u'.revenue == u.revenue + (if t.side == Sell then x else 0.0)
            && u'.volume == u.volume + x && u'.trades == u.trades + 1
            && |u'.sales| <= |u.sales| + (if t.side == Sell then t.quantity else 0)
  {
    WorthIsProduct(t.quantity, t.price);
    hide Worth;
  }

  /** The price a bought unit has is the price of its purchase, in the order of the purchases. */
  lemma BoughtInOrder(h: seq<Trade>, t: Trade)
    ensures t.side == Buy ==>
              var u, u' := Replay(h), Replay(h + [t]);
              && |u'.bought| == |u.bought| + t.quantity && u'.bought[..|u.bought|] == u.bought && u'.sales == u.sales
              && forall i :: |u.bought| <= i < |u'.bought| ==> u'.bought[i] == t.price
    ensures t.side == Sell ==>
              var u, u' := Replay(h), Replay(h + [t]);
              var left := |u.bought| - |u.sales|;
              && u'.bought == u.bought
              && |u'.sales| == |u.sales| + (if t.quantity <= left then t.quantity else left)
              && u'.sales[..|u.sales|] == u.sales
              && forall i :: |u.sales| <= i < |u'.sales| ==> u'.sales[i] == t.price
  {
    ReplayNext(h, t);
  }

  /** Two units at 10 and three at 20 are bought and four sold at 30: both cheap ones and two dear ones are matched, which
      earns 60, and one is left. */
  lemma FourOfFive()
    ensures var u := Replay([Trade("BTC", 10.0, 2, Buy), Trade("BTC", 20.0, 3, Buy), Trade("BTC", 30.0, 4, Sell)]);
            Realized(u) == 60.0 && Queued(u) == [20.0]
  {
    var a, b, c := Trade("BTC", 10.0, 2, Buy), Trade("BTC", 20.0, 3, Buy), Trade("BTC", 30.0, 4, Sell);
    assert [a, b] + [c] == [a, b, c] && [a] + [b] == [a, b] && [] + [a] == [a];
    FiveBought(a, b);
    BoughtInOrder([a, b], c);
    var u := Replay([a, b, c]);
    assert u.sales == [30.0, 30.0, 30.0, 30.0];
    hide Replay, Next, Worth, Gain;
    GainIsDifference(u.sales, u.bought);
    TotalOfFour(30.0, 30.0, 30.0, 30.0);
    TotalOfFour(10.0, 10.0, 20.0, 20.0);
    assert u.bought[..4] == [10.0, 10.0, 20.0, 20.0] && u.bought[4..] == [20.0];
  }

  lemma FiveBought(a: Trade, b: Trade)
    requires a == Trade("BTC", 10.0, 2, Buy) && b == Trade("BTC", 20.0, 3, Buy)
    ensures Replay([a, b]).bought == [10.0, 10.0, 20.0, 20.0, 20.0] && Replay([a, b]).sales == []
  {
    BoughtInOrder([], a);
    BoughtInOrder([a], b);
    assert [] + [a] == [a] && [a] + [b] == [a, b];
    var u1 := Replay([a]);
    assert u1.bought == [10.0, 10.0] && u1.sales == [];
    hide Replay, Next, Worth;
  }

  lemma TotalOfFour(a: real, b: real, c: real, d: real)
    ensures Total([a, b, c, d]) == a + b + c + d
  {
    TotalOf(a, [b, c, d]);
    TotalOf(b, [c, d]);
    TotalOf(c, [d]);
    TotalOf(d, []);
    assert [a] + [b, c, d] == [a, b, c, d] && [b] + [c, d] == [b, c, d] && [c] + [d] == [c, d] && [d] + [] == [d];
    assert Total([]) == 0.0;
    hide Total;
  }

  lemma TotalOf(a: real, rest: seq<real>)
    ensures Total([a] + rest) == a + Total(rest)
  {
    assert ([a] + rest)[1..] == rest;
  }

  // ---------------------------------------------------------------- all pairs of a user

  datatype PairPnl = PairPnl(pair: string, realized: real, totalBought: nat, totalSold: nat, holdings: nat,
                             avgBuyPrice: real, avgSellPrice: real, volume: real, trades: nat)
  datatype UserPnl = UserPnl(pairs: seq<PairPnl>, totalRealized: real, totalTrades: nat, totalVolume: real)

  /** The trades of one pair, in order. */
  function History(trades: seq<Trade>, pair: string): seq<Trade> {
    if trades == [] then []
    else
      var t := trades[|trades| - 1];
      History(trades[..|trades| - 1], pair) + if t.pair == pair then [t] else []
  }

  function PairsOf(trades: seq<Trade>): set<string> {
    set i | 0 <= i < |trades| :: trades[i].pair
  }

  function UnitsOf(trades: seq<Trade>, pair: string): (u: Units)
    ensures Paired(u)
  {
    Replay(History(trades, pair))
  }

  /** One more trade advances its own pair and no other. */
  lemma UnitsNext(trades: seq<Trade>, t: Trade, pair: string)
    ensures UnitsOf(trades + [t], pair) == if t.pair == pair then Next(UnitsOf(trades, pair), t) else UnitsOf(trades, pair)
  {
    assert (trades + [t])[..|trades|] == trades;
    if t.pair == pair {
      ReplayNext(History(trades, pair), t);
    } else {
      assert History(trades, pair) + [] == History(trades, pair);
    }
  }

  lemma {:induction false} NoUnits(trades: seq<Trade>, pair: string)
    requires pair !in PairsOf(trades)
    ensures UnitsOf(trades, pair) == Replay([])
  {
    if trades == [] {
    } else {
      var g, t := trades[..|trades| - 1], trades[|trades| - 1];
      assert t.pair in PairsOf(trades);
      assert forall i :: 0 <= i < |g| ==> g[i] == trades[i];
      NoUnits(g, pair);
      UnitsNext(g, t, pair);
      assert trades == g + [t];
    }
  }

  /** The average price: all units at that price come to the same total; zero when there are none. */
  predicate Average(avg: real, total: real, n: nat) {
    Worth(n, avg) == total && (n == 0 ==> avg == 0.0)
  }

  /** That is the quotient. */
  lemma AverageInFigures(avg: real, total: real, n: nat)
    requires Average(avg, total, n)
    ensures avg == if n > 0 then total / n as real else 0.0
  {
    WorthIsProduct(n, avg);
  }

  /** What a report says, in the figures of its own history. */
  lemma ReportInFigures(r: PairPnl, h: seq<Trade>)
    requires Reports(r, Replay(h))
    ensures r.totalBought == Moved(h, Buy) && r.totalSold == Moved(h, Sell) && r.trades == |h|
    ensures r.volume == Money(h, Buy) + Money(h, Sell)
    ensures r.avgBuyPrice == if r.totalBought > 0 then Money(h, Buy) / r.totalBought as real else 0.0
    ensures r.avgSellPrice == if r.totalSold > 0 then Money(h, Sell) / r.totalSold as real else 0.0
    ensures r.holdings == |Queued(Replay(h))|
  {
    ReplayInFigures(h);
    ReplayBalanced(h);
    hide Replay, Realized, Worth;
    AverageInFigures(r.avgBuyPrice, Money(h, Buy), r.totalBought);
    AverageInFigures(r.avgSellPrice, Money(h, Sell), r.totalSold);
  }

  ghost predicate Reports(r: PairPnl, u: Units)
    requires Paired(u)
  {
    && r.realized == Realized(u)
    && r.totalBought == |u.bought| && r.totalSold == u.sold
    && r.holdings + |u.sales| == r.totalBought
    && Average(r.avgBuyPrice, Total(u.bought), r.totalBought)
    && Average(r.avgSellPrice, Total(u.sales) + u.oversold, r.totalSold)
    && r.volume == u.cost + u.revenue && r.trades == u.trades
  }

  /** Nothing sold, nothing earned; and every trade is a purchase or a sale. */
  ghost predicate Plain(u: Units) {
    (u.sold == 0 ==> u.revenue == 0.0) && u.volume == u.cost + u.revenue
  }

  lemma {:induction false} ReplayPlain(h: seq<Trade>)
    ensures Plain(Replay(h))
  {
    if h == [] {
    } else {
      ReplayPlain(h[..|h| - 1]);
    }
  }

  method Mean(total: real, n: nat) returns (avg: real)
    requires n == 0 ==> total == 0.0
    ensures Average(avg, total, n)
  {
    avg := 0.0;
    if n > 0 {
      avg := total / n as real;
    }
    WorthIsProduct(n, avg);
  }

  method Report(pair: string, ps: PairState, ghost u: Units) returns (r: PairPnl)
    requires Paired(u) && Balanced(u) && Plain(u) && ps.Follows(u)
    ensures r.pair == pair && Reports(r, u)
  {
    var avgBuy := Mean(ps.totalBuyCost, ps.totalBought);
    var avgSell := Mean(ps.totalSellRev, ps.totalSold);
    var holdings := ps.Holdings();
    return PairPnl(pair, ps.realized, ps.totalBought, ps.totalSold, holdings, avgBuy, avgSell, ps.totalVolume,
                   ps.tradeCount);
  }

  // ---------------------------------------------------------------- totals over the pairs

  ghost function Gains(trades: seq<Trade>): map<string, real> {
    map p | p in PairsOf(trades) :: Realized(UnitsOf(trades, p))
  }

  function VolumeOf(trades: seq<Trade>, pair: string): real { UnitsOf(trades, pair).volume }
  function CountOf(trades: seq<Trade>, pair: string): real { UnitsOf(trades, pair).trades as real }

  ghost function Volumes(trades: seq<Trade>): map<string, real> {
    map p | p in PairsOf(trades) :: VolumeOf(trades, p)
  }

  ghost function Counts(trades: seq<Trade>): map<string, real> {
    map p | p in PairsOf(trades) :: CountOf(trades, p)
  }

  /** What all trades together turned over, whatever their pair. */
  function Turnover(trades: seq<Trade>): real {
    if trades == [] then 0.0
    else Turnover(trades[..|trades| - 1]) + Worth(trades[|trades| - 1].quantity, trades[|trades| - 1].price)
  }

  lemma MorePairs(g: seq<Trade>, t: Trade)
    ensures PairsOf(g + [t]) == PairsOf(g) + {t.pair}
  {
    var h := g + [t];
    forall p | p in PairsOf(g) ensures p in PairsOf(h) {
      var i :| 0 <= i < |g| && g[i].pair == p;
      assert h[i].pair == p;
    }
    assert h[|g|].pair == t.pair;
  }

  /** A trade adds to the volume and count of its own pair and to no other. */
  lemma MoreOf(g: seq<Trade>, t: Trade, p: string)
    ensures VolumeOf(g + [t], p) == VolumeOf(g, p) + if t.pair == p then Worth(t.quantity, t.price) else 0.0
    ensures CountOf(g + [t], p) == CountOf(g, p) + if t.pair == p then 1.0 else 0.0
    ensures p !in PairsOf(g) ==> VolumeOf(g, p) == 0.0 && CountOf(g, p) == 0.0
  {
    UnitsNext(g, t, p);
    if p !in PairsOf(g) { NoUnits(g, p); }
  }

  /** One entry grew by `w`, or is new with `w`; the rest are as they were. */
  ghost predicate Grew(m: map<string, real>, m': map<string, real>, p: string, w: real) {
    && m'.Keys == m.Keys + {p}
    && (forall q <- m :: q != p ==> m'[q] == m[q])
    && m'[p] == (if p in m then m[p] else 0.0) + w
  }

  lemma GrewSum(m: map<string, real>, m': map<string, real>, p: string, w: real)
    requires Grew(m, m', p, w)
    ensures Sum(m') == Sum(m) + w
  {
    SumUpdate(m, p, m'[p]);
    assert m' == m[p := m'[p]];
  }

  lemma VolumesGrow(g: seq<Trade>, t: Trade)
    ensures Grew(Volumes(g), Volumes(g + [t]), t.pair, Worth(t.quantity, t.price))
  {
    hide VolumeOf, CountOf, PairsOf, Worth;
    MorePairs(g, t);
    MoreOf(g, t, t.pair);
    forall q | q in PairsOf(g) && q != t.pair ensures VolumeOf(g + [t], q) == VolumeOf(g, q) {
      MoreOf(g, t, q);
    }
  }

  lemma CountsGrow(g: seq<Trade>, t: Trade)
    ensures Grew(Counts(g), Counts(g + [t]), t.pair, 1.0)
  {
    hide VolumeOf, CountOf, PairsOf, Worth;
    MorePairs(g, t);
    MoreOf(g, t, t.pair);
    forall q | q in PairsOf(g) && q != t.pair ensures CountOf(g + [t], q) == CountOf(g, q) {
      MoreOf(g, t, q);
    }
  }

  ghost predicate Shared(trades: seq<Trade>) {
    Sum(Volumes(trades)) == Turnover(trades) && Sum(Counts(trades)) == |trades| as real
  }

  /** The pairs share the trades out among themselves: nothing twice, nothing left over. */
  lemma {:induction false} PairsPartition(trades: seq<Trade>)
    ensures Shared(trades)
    decreases |trades|
  {
    if trades == [] {
      EmptyShared();
    } else {
      var g, t := SplitLast(trades);
      PairsPartition(g);
      OneMoreShared(g, t, trades);
    }
  }

  lemma SplitLast(trades: seq<Trade>) returns (g: seq<Trade>, t: Trade)
    requires trades != []
    ensures trades == g + [t] && |g| < |trades|
  {
    g, t := trades[..|trades| - 1], trades[|trades| - 1];
  }

  lemma EmptyShared()
    ensures Shared([])
  {
    assert Volumes([]) == map[] && Counts([]) == map[];
  }

  lemma OneMoreShared(g: seq<Trade>, t: Trade, trades: seq<Trade>)
    requires trades == g + [t] && Shared(g)
    ensures Shared(trades)
  {
    OneMoreTrade(g, t, trades);
    assert trades[..|g|] == g;
  }

  lemma OneMoreTrade(g: seq<Trade>, t: Trade, trades: seq<Trade>)
    requires trades == g + [t]
    ensures Sum(Volumes(trades)) == Sum(Volumes(g)) + Worth(t.quantity, t.price)
    ensures Sum(Counts(trades)) == Sum(Counts(g)) + 1.0
  {
    VolumesGrow(g, t);
    CountsGrow(g, t);
    GrewSum(Volumes(g), Volumes(trades), t.pair, Worth(t.quantity, t.price));
    GrewSum(Counts(g), Counts(trades), t.pair, 1.0);
  }

  ghost predicate Tracks(ps: PairState, trades: seq<Trade>, pair: string)
    reads ps
  {
    ps.Follows(UnitsOf(trades, pair))
  }

  method RecordTrade(ps: PairState, t: Trade, ghost g: seq<Trade>)
    requires Tracks(ps, g, t.pair)
    modifies ps
    ensures Tracks(ps, g + [t], t.pair)
  {
    UnitsNext(g, t, t.pair);
    ps.Record(t, UnitsOf(g, t.pair));
  }

  lemma OthersTrack(ps: PairState, g: seq<Trade>, t: Trade, pair: string)
    requires Tracks(ps, g, pair) && t.pair != pair
    ensures Tracks(ps, g + [t], pair)
  {
    UnitsNext(g, t, pair);
  }

  method NewPairState(ghost g: seq<Trade>, ghost pair: string) returns (ps: PairState)
    requires pair !in PairsOf(g)
    ensures fresh(ps) && Tracks(ps, g, pair)
  {
    NoUnits(g, pair);
    ps := new PairState();
  }

  /** What ComputeUserPnL promises: each pair that was traded is reported once, with the result of its own trades
      however the pairs are interleaved; the totals are over everything, in whatever order the pairs are walked. */
  ghost predicate Complete(r: UserPnl, trades: seq<Trade>) {
    && AllReport(r.pairs, trades) && Covers(r.pairs, PairsOf(trades), {})
    && r.totalTrades == |trades| && r.totalVolume == Turnover(trades) && r.totalRealized == Sum(Gains(trades))
  }

  ghost predicate AllReport(reports: seq<PairPnl>, trades: seq<Trade>) {
    forall i :: 0 <= i < |reports| ==> Reports(reports[i], UnitsOf(trades, reports[i].pair))
  }

  type PairMap = map<string, PairState>

  ghost predicate AllTrack(pairs: PairMap, trades: seq<Trade>)
    reads pairs.Values
  {
    forall p <- pairs :: Tracks(pairs[p], trades, p)
  }

  /** No two pairs share their state. */
  predicate Separate(pairs: PairMap) {
    forall p, q :: p in pairs && q in pairs && p != q ==> pairs[p] != pairs[q]
  }

  method ComputeUserPnl(trades: seq<Trade>) returns (r: UserPnl)
    ensures Complete(r, trades)
  {
    hide Replay, Next, Complete, Tracks;
    var pairs: PairMap := map[];
    for i := 0 to |trades|
      invariant pairs.Keys == PairsOf(trades[..i]) && Separate(pairs) && AllTrack(pairs, trades[..i])
      invariant forall p <- pairs :: fresh(pairs[p])
    {
      assert trades[..i + 1] == trades[..i] + [trades[i]];
      pairs := Dispatch(pairs, trades[i], trades[..i]);
    }
    assert trades[..|trades|] == trades;
    r := Summarize(pairs, trades);
  }

  /** One round of the loop: find or create the state of the trade's pair and record the trade there. */
  method Dispatch(pairs0: PairMap, t: Trade, ghost g: seq<Trade>) returns (pairs: PairMap)
    requires pairs0.Keys == PairsOf(g) && Separate(pairs0) && AllTrack(pairs0, g)
    modifies pairs0.Values
    ensures pairs.Keys == PairsOf(g + [t]) && Separate(pairs) && AllTrack(pairs, g + [t])
    ensures forall p <- pairs :: (p in pairs0 && pairs[p] == pairs0[p]) || fresh(pairs[p])
  {
    hide Replay, Next;
    pairs := pairs0;
    MorePairs(g, t);
    if t.pair !in pairs {
      var ps := NewPairState(g, t.pair);
      pairs := pairs[t.pair := ps];
    }
    RecordTrade(pairs[t.pair], t, g);
    forall p | p in pairs && p != t.pair ensures Tracks(pairs[p], g + [t], p) {
      OthersTrack(pairs[p], g, t, p);
    }
  }

  method Summarize(pairs: PairMap, ghost trades: seq<Trade>) returns (r: UserPnl)
    requires pairs.Keys == PairsOf(trades) && AllTrack(pairs, trades)
    ensures Complete(r, trades)
  {
    hide Replay, Next, Summed, Complete, Tracks;
    var left := pairs.Keys;
    r := UserPnl([], 0.0, 0, 0.0);
    NoneSummed(r, trades, left);
    while left != {}
      invariant left <= pairs.Keys && Summed(r, trades, left)
      decreases |left|
    {
      var p :| p in left;
      r := AddPair(r, p, pairs[p], trades, left);
      left := left - {p};
    }
    AllSummed(r, trades);
  }

  method AddPair(r0: UserPnl, pair: string, ps: PairState, ghost trades: seq<Trade>, ghost left: set<string>)
    returns (r: UserPnl)
    requires pair in left && left <= PairsOf(trades) && Tracks(ps, trades, pair) && Summed(r0, trades, left)
    ensures Summed(r, trades, left - {pair})
  {
    var rep := ReportOf(pair, ps, trades);
    OneMoreSummed(r0, trades, left, rep);
    r := UserPnl(r0.pairs + [rep], r0.totalRealized + rep.realized, r0.totalTrades + rep.trades,
                 r0.totalVolume + rep.volume);
  }

  /** The pairs in `left` are still to be added to the result. */
  ghost predicate Summed(r: UserPnl, trades: seq<Trade>, left: set<string>) {
    && AllReport(r.pairs, trades) && Covers(r.pairs, PairsOf(trades), left)
    && Rest(r.totalRealized, Gains(trades), left, Sum(Gains(trades)))
    && Rest(r.totalVolume, Volumes(trades), left, Turnover(trades))
    && Rest(r.totalTrades as real, Counts(trades), left, |trades| as real)
  }

  /** What `left` still adds brings the running total `sum` to `all`. */
  ghost predicate Rest(sum: real, m: map<string, real>, left: set<string>, all: real) {
    sum + Sum(Only(m, left)) == all
  }

  ghost predicate ReportsOf(r: PairPnl, trades: seq<Trade>) {
    && r.pair in PairsOf(trades) && Reports(r, UnitsOf(trades, r.pair))
    && r.realized == Gains(trades)[r.pair] && r.volume == Volumes(trades)[r.pair]
    && r.trades as real == Counts(trades)[r.pair]
  }

  lemma NoneSummed(r: UserPnl, trades: seq<Trade>, left: set<string>)
    requires r == UserPnl([], 0.0, 0, 0.0) && left == PairsOf(trades)
    ensures Summed(r, trades, left)
  {
    PairsPartition(trades);
    OnlyAll(Gains(trades), PairsOf(trades));
    OnlyAll(Volumes(trades), PairsOf(trades));
    OnlyAll(Counts(trades), PairsOf(trades));
  }

  lemma RestNext(sum: real, m: map<string, real>, left: set<string>, all: real, p: string)
    requires Rest(sum, m, left, all) && p in left && p in m
    ensures Rest(sum + m[p], m, left - {p}, all)
  {
    SumRemove(Only(m, left), p);
    assert Only(m, left) - {p} == Only(m, left - {p});
  }

  lemma AllReportNext(reports: seq<PairPnl>, trades: seq<Trade>, rep: PairPnl)
    requires AllReport(reports, trades) && ReportsOf(rep, trades)
    ensures AllReport(reports + [rep], trades)
  {
  }

  lemma OneMoreSummed(r: UserPnl, trades: seq<Trade>, left: set<string>, rep: PairPnl)
    requires Summed(r, trades, left) && left <= PairsOf(trades) && ReportsOf(rep, trades) && rep.pair in left
    ensures Summed(UserPnl(r.pairs + [rep], r.totalRealized + rep.realized, r.totalTrades + rep.trades,
                           r.totalVolume + rep.volume), trades, left - {rep.pair})
  {
    RestNext(r.totalRealized, Gains(trades), left, Sum(Gains(trades)), rep.pair);
    RestNext(r.totalVolume, Volumes(trades), left, Turnover(trades), rep.pair);
    RestNext(r.totalTrades as real, Counts(trades), left, |trades| as real, rep.pair);
    MoreCovered(r.pairs, PairsOf(trades), left, rep);
    AllReportNext(r.pairs, trades, rep);
  }

  lemma AllSummed(r: UserPnl, trades: seq<Trade>)
    requires Summed(r, trades, {})
    ensures Complete(r, trades)
  {
    OnlyNone(Gains(trades));
    OnlyNone(Volumes(trades));
    OnlyNone(Counts(trades));
  }

  method ReportOf(pair: string, ps: PairState, ghost trades: seq<Trade>) returns (r: PairPnl)
    requires pair in PairsOf(trades) && Tracks(ps, trades, pair)
    ensures r.pair == pair && ReportsOf(r, trades)
  {
    ReplayBalanced(History(trades, pair));
    ReplayPlain(History(trades, pair));
    r := Report(pair, ps, UnitsOf(trades, pair));
  }

  ghost function Only(m: map<string, real>, keys: set<string>): map<string, real> {
    map p | p in m && p in keys :: m[p]
  }

  lemma OnlyAll(m: map<string, real>, keys: set<string>)
    requires m.Keys == keys
    ensures Only(m, keys) == m
  {
  }

  lemma OnlyNone(m: map<string, real>)
    ensures Sum(Only(m, {})) == 0.0
  {
    assert Only(m, {}) == map[];
  }

  /** Each report is of another pair; the pairs still to come are `left` of `all`. */
  ghost predicate Covers(reports: seq<PairPnl>, all: set<string>, left: set<string>) {
    && (forall i, j :: 0 <= i < j < |reports| ==> reports[i].pair != reports[j].pair)
    && all - left == set i | 0 <= i < |reports| :: reports[i].pair
  }

  lemma MoreCovered(reports: seq<PairPnl>, all: set<string>, left: set<string>, r: PairPnl)
    requires Covers(reports, all, left) && r.pair in left && left <= all
    ensures Covers(reports + [r], all, left - {r.pair})
  {
    var more := reports + [r];
    forall i | 0 <= i < |reports| ensures more[i].pair != r.pair {
      assert reports[i].pair in all - left;
    }
    assert forall i :: 0 <= i < |reports| ==> more[i].pair in all - left by {
      forall i | 0 <= i < |reports| ensures more[i].pair in all - left { assert reports[i].pair in all - left; }
    }
    forall p | p in all - (left - {r.pair}) ensures p in set i | 0 <= i < |more| :: more[i].pair {
      if p == r.pair {
        assert more[|reports|].pair == p;
      } else {
        assert p in all - left;
        var i :| 0 <= i < |reports| && reports[i].pair == p;
        assert more[i].pair == p;
      }
    }
  }
}
