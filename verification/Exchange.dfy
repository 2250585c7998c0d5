/** The whole exchange on its one balance table: users trade while they withdraw and are credited, and the daemons
    run in between. Each side is a service whose frozen funds the other side leaves alone. */
module Exchange {
  import opened Sums
  import opened Ledger
  import Trading
  import Custody
  import T = TradingProofs
  import C = CustodyProofs

  /** The two halves of the database; they share the balance table. */
  datatype State = State(trade: Trading.State, custody: Custody.State)

  datatype Event = Order(op: Trading.Op) | Daemon(action: Custody.Action)

  predicate EventOk(s: State, pairs: map<string, Trading.Pair>, e: Event) {
    e.Order? ==> Trading.OpOk(s.trade, pairs, e.op)
  }

  function Step(s: State, pairs: map<string, Trading.Pair>, e: Event): State
    requires EventOk(s, pairs, e)
  {
    match e
    case Order(op) =>
      var t := Trading.Step(s.trade, pairs, op);
      State(t, s.custody.(table := t.table))
    case Daemon(a) =>
      var c := Custody.Step(s.custody, a);
      State(s.trade.(table := c.table), c)
  }

  predicate RunOk(s: State, pairs: map<string, Trading.Pair>, events: seq<Event>)
    decreases |events|
  {
    events == [] || (EventOk(s, pairs, events[0]) && RunOk(Step(s, pairs, events[0]), pairs, events[1..]))
  }

  function Run(s: State, pairs: map<string, Trading.Pair>, events: seq<Event>): State
    requires RunOk(s, pairs, events)
    decreases |events|
  {
    if events == [] then s else Run(Step(s, pairs, events[0]), pairs, events[1..])
  }

  // ---------------------------------------------------------------- the joint invariant

  /** Orders' reservations and price improvement, unreleased withdrawals, and other services' holds. */
  ghost predicate FrozenAt(s: State, others: Holds, k: Key) {
    At(s.trade.table, k).frozen == T.Owed(s.trade, others, k) + C.Tally(s.custody.rows, k, C.OnHold)
  }

  ghost predicate Inv(s: State, others: Holds) {
    && s.custody.table == s.trade.table
    && T.RowsOk(s.trade, others) && C.Core(s.custody)
    && forall k: Key :: FrozenAt(s, others, k)
  }

  /** What the withdrawals hold, as trading sees it. */
  function WithdrawalHolds(rows: seq<Custody.Row>, others: Holds): Holds {
    map k | k in others.Keys + RowKeys(rows) :: Held(others, k) + C.Tally(rows, k, C.OnHold)
  }

  function RowKeys(rows: seq<Custody.Row>): set<Key> {
    set i | 0 <= i < |rows| :: rows[i].key
  }

  lemma {:induction false} NoRowsNoTally(rows: seq<Custody.Row>, k: Key, part: C.Part)
    requires k !in RowKeys(rows)
    ensures C.Tally(rows, k, part) == 0.0
  {
    if rows == [] {
    } else {
      var n := |rows| - 1;
      assert rows[n].key in RowKeys(rows);
      assert forall i :: 0 <= i < n ==> rows[..n][i] == rows[i];
      NoRowsNoTally(rows[..n], k, part);
    }
  }

  lemma WithdrawalsHold(rows: seq<Custody.Row>, others: Holds, k: Key)
    ensures Held(WithdrawalHolds(rows, others), k) == Held(others, k) + C.Tally(rows, k, C.OnHold)
  {
    if k !in RowKeys(rows) { NoRowsNoTally(rows, k, C.OnHold); }
  }

  /** What orders hold, as the daemons see it. */
  function OrderHolds(t: Trading.State, others: Holds): Holds {
    map k | k in others.Keys + OrderKeys(t.orders) + FillKeys(t.fills) ::
      Held(others, k) + T.Reserved(t.orders, k) + T.Residue(t.fills, k)
  }

  function OrderKeys(orders: seq<Trading.Order>): set<Key> {
    set i | 0 <= i < |orders| :: orders[i].FundingKey()
  }

  function FillKeys(fills: seq<Trading.Fill>): set<Key> {
    set i | 0 <= i < |fills| :: T.BuyKey(fills[i].trade)
  }

  lemma NoOrdersNothingReserved(orders: seq<Trading.Order>, k: Key)
    requires k !in OrderKeys(orders)
    ensures T.Reserved(orders, k) == 0.0
  {
    assert forall i :: 0 <= i < |orders| ==> orders[i].FundingKey() in OrderKeys(orders);
    T.ReservedElsewhere(orders, {}, k);
  }

  lemma {:induction false} NoFillsNoResidue(fills: seq<Trading.Fill>, k: Key)
    requires k !in FillKeys(fills)
    ensures T.Residue(fills, k) == 0.0
  {
    if fills == [] {
    } else {
      var n := |fills| - 1;
      assert T.BuyKey(fills[n].trade) in FillKeys(fills);
      assert forall i :: 0 <= i < n ==> fills[..n][i] == fills[i];
      NoFillsNoResidue(fills[..n], k);
    }
  }

  lemma OrdersHold(t: Trading.State, others: Holds, k: Key)
    ensures Held(OrderHolds(t, others), k) == T.Owed(t, others, k)
  {
    if k !in OrderKeys(t.orders) { NoOrdersNothingReserved(t.orders, k); }
    if k !in FillKeys(t.fills) { NoFillsNoResidue(t.fills, k); }
  }

  /** Each side's own invariant holds with the other side as a holder of funds. So in every reachable state of the
      exchange everything said of trading and of the daemons alone is true: all settlement calls succeed, every
      refund is paid in full, and no clamp takes effect. */
  lemma BothSidesHold(s: State, others: Holds)
    requires Inv(s, others)
    ensures T.Inv(s.trade, WithdrawalHolds(s.custody.rows, others))
    ensures C.Inv(s.custody, OrderHolds(s.trade, others))
  {
    var w, o := WithdrawalHolds(s.custody.rows, others), OrderHolds(s.trade, others);
    forall k: Key ensures T.InvAt(s.trade, w, k) && C.FrozenAt(s.custody, o, k) {
      assert FrozenAt(s, others, k);
      WithdrawalsHold(s.custody.rows, others, k);
      OrdersHold(s.trade, others, k);
    }
    forall k | k in w ensures w[k] >= 0.0 { C.TallyBounds(s.custody.rows, k, C.OnHold); }
    forall k | k in o ensures o[k] >= 0.0 { T.OwedBounds(s.trade, others, k); OrdersHold(s.trade, others, k); }
  }

  // ---------------------------------------------------------------- steps

  lemma CoreIgnoresTable(c: Custody.State, c': Custody.State)
    requires C.Core(c) && c' == c.(table := c'.table)
    ensures C.Core(c')
  {
    hide C.RowOk, C.CountsOk, C.StatusOk, C.WatchedOk, C.DepositOk, C.JobRowOk;
    forall p | p in c'.passes ensures C.PassOk(c', c'.passes[p]) { assert C.PassOk(c, c.passes[p]); }
    forall w | w in c'.jobs ensures C.JobOk(c'.rows, c'.jobs[w]) { assert C.JobOk(c.rows, c.jobs[w]); }
  }

  /** The other services' holds once a handler has left funds frozen for no order; the daemons leave none. */
  function Strand(s: State, pairs: map<string, Trading.Pair>, e: Event, others: Holds): Holds {
    match e
    case Order(op) => T.Strand(s.trade, pairs, op, others)
    case Daemon(_) => others
  }

  /** No amend loses the call that would have frozen again what it had released. */
  predicate OnlyStrands(s: State, e: Event) {
    e.Order? ==> T.OnlyStrands(s.trade, e.op)
  }

  lemma OrderKeeps(s: State, pairs: map<string, Trading.Pair>, op: Trading.Op, others: Holds)
    requires Inv(s, others) && EventOk(s, pairs, Order(op)) && OnlyStrands(s, Order(op))
    ensures Inv(Step(s, pairs, Order(op)), Strand(s, pairs, Order(op), others))
  {
    var s', others' := Step(s, pairs, Order(op)), T.Strand(s.trade, pairs, op, others);
    var w := WithdrawalHolds(s.custody.rows, others);
    BothSidesHold(s, others);
    T.StrandRows(s.trade, pairs, op, w, others);
    CoreIgnoresTable(s.custody, s'.custody);
    hide Trading.Step, Trading.OpOk, WithdrawalHolds, C.Tally, T.Reserved, T.Residue, C.Core, T.Lost, T.OnlyStrands;
    hide T.Strand, T.RowsOk, T.Inv;
    forall k: Key ensures FrozenAt(s', others', k) {
      T.StepIsOffBy(s.trade, pairs, op, w, k);
      T.StrandHolds(s.trade, pairs, op, others, k);
      WithdrawalsHold(s.custody.rows, others, k);
    }
  }

  lemma DaemonKeeps(s: State, pairs: map<string, Trading.Pair>, a: Custody.Action, others: Holds)
    requires Inv(s, others)
    ensures Inv(Step(s, pairs, Daemon(a)), others)
  {
    var s' := Step(s, pairs, Daemon(a));
    var o := OrderHolds(s.trade, others);
    BothSidesHold(s, others);
    C.StepKeepsInv(s.custody, a, o);
    forall k: Key ensures FrozenAt(s', others, k) {
      assert C.FrozenAt(s'.custody, o, k);
      OrdersHold(s.trade, others, k);
    }
  }

  /** The guards against paying out too much stay idle on both sides: a cancel refunds what it computes, and a
      withdrawal's unlock and burn move exactly its amount. */
  lemma GuardsStayIdle(s: State, others: Holds)
    requires Inv(s, others)
    ensures forall i :: 0 <= i < |s.trade.orders| && s.trade.orders[i].Live() ==>
              var o := s.trade.orders[i]; Trading.CancelAmount(s.trade.table, o) == o.Cost(o.Remaining())
    ensures forall w <- s.custody.jobs :: ReleasesExactly(s.custody, w)
  {
    BothSidesHold(s, others);
    forall i | 0 <= i < |s.trade.orders| && s.trade.orders[i].Live()
      ensures var o := s.trade.orders[i]; Trading.CancelAmount(s.trade.table, o) == o.Cost(o.Remaining())
    {
      T.ClampNeverLowers(s.trade, i, WithdrawalHolds(s.custody.rows, others));
    }
    forall w | w in s.custody.jobs ensures ReleasesExactly(s.custody, w) {
      C.ClampsNeverAct(s.custody, OrderHolds(s.trade, others), w);
      assert C.JobOk(s.custody.rows, s.custody.jobs[w]);
    }
  }

  predicate ReleasesExactly(c: Custody.State, w: Custody.ActorId)
    requires w in c.jobs
  {
    && c.jobs[w].id < |c.rows|
    && var r := c.rows[c.jobs[w].id];
    && UnfreezeMove(c.table, r.key, r.amount) == Moved(Custody.Unlock(c.table, r.key, r.amount))
    && DebitFrozenMove(c.table, r.key, r.amount) == Moved(Custody.Burn(c.table, r.key, r.amount))
  }

  // ---------------------------------------------------------------- the assets of the whole exchange

  /** All withdrawals of an asset that were burned, or dropped by a rejection. */
  function Gone(rows: seq<Custody.Row>, a: Asset, part: C.Part): real {
    if rows == [] then 0.0
    else
      var r := rows[|rows| - 1];
      Gone(rows[..|rows| - 1], a, part) + if r.key.asset == a then C.Weight(r, r.key, part) else 0.0
  }

  /** All credited deposits of an asset. */
  function Arrived(ds: seq<Custody.Deposit>, a: Asset): real {
    if ds == [] then 0.0
    else
      var d := ds[|ds| - 1];
      Arrived(ds[..|ds| - 1], a) + if d.key.asset == a then C.CreditOf(d, d.key) else 0.0
  }

  /** What all users together would hold of an asset had nothing left or entered the exchange. */
  ghost function AssetBook(c: Custody.State, a: Asset): real {
    Total(c.table, a) + Gone(c.rows, a, C.Burned) + Gone(c.rows, a, C.Dropped) - Arrived(c.deposits, a)
  }

  /** `keys` are the balance rows of asset `a` that matter to `c`, and perhaps more. */
  ghost predicate KeysOf(c: Custody.State, a: Asset, keys: set<Key>) {
    && (forall k <- keys :: k.asset == a)
    && (forall k <- c.table :: k.asset == a ==> k in keys)
    && (forall i :: 0 <= i < |c.rows| && c.rows[i].key.asset == a ==> c.rows[i].key in keys)
    && (forall i :: 0 <= i < |c.deposits| && c.deposits[i].key.asset == a ==> c.deposits[i].key in keys)
  }

  ghost function Books(c: Custody.State, keys: set<Key>): map<Key, real> {
    map k | k in keys :: C.Book(c, k)
  }

  ghost function Tallies(rows: seq<Custody.Row>, keys: set<Key>, part: C.Part): map<Key, real> {
    map k | k in keys :: C.Tally(rows, k, part)
  }

  ghost function Credits(ds: seq<Custody.Deposit>, keys: set<Key>): map<Key, real> {
    map k | k in keys :: C.CreditSum(ds, k)
  }

  ghost function Owns(t: Table, keys: set<Key>): map<Key, real> {
    map k | k in keys :: At(t, k).available + At(t, k).frozen
  }

  lemma ZeroSum(m: map<Key, real>)
    requires forall k <- m :: m[k] == 0.0
    ensures Sum(m) == 0.0
  {
    SumExtend(map[], m);
  }

  lemma {:induction false} TalliesSum(rows: seq<Custody.Row>, a: Asset, keys: set<Key>, part: C.Part)
    requires forall k <- keys :: k.asset == a
    requires forall i :: 0 <= i < |rows| && rows[i].key.asset == a ==> rows[i].key in keys
    ensures Sum(Tallies(rows, keys, part)) == Gone(rows, a, part)
  {
    if rows == [] {
      ZeroSum(Tallies(rows, keys, part));
    } else {
      var n := |rows| - 1;
      var r := rows[n];
      assert forall i :: 0 <= i < n ==> rows[..n][i] == rows[i];
      TalliesSum(rows[..n], a, keys, part);
      TalliesGrow(rows, a, keys, part);
      hide Sum, C.Tally, C.Weight, Tallies;
      if r.key.asset == a {
        var m := Tallies(rows[..n], keys, part);
        SumUpdate(m, r.key, C.Tally(rows[..n], r.key, part) + C.Weight(r, r.key, part));
      }
    }
  }

  /** The last row counts for its own key only. */
  lemma TalliesGrow(rows: seq<Custody.Row>, a: Asset, keys: set<Key>, part: C.Part)
    requires rows != [] && forall k <- keys :: k.asset == a
    requires rows[|rows| - 1].key.asset == a ==> rows[|rows| - 1].key in keys
    ensures var n := |rows| - 1;
            var r, m := rows[n], Tallies(rows[..n], keys, part);
            if r.key.asset == a then
              && Tallies(rows, keys, part) == m[r.key := C.Tally(rows[..n], r.key, part) + C.Weight(r, r.key, part)]
              && r.key in m && m[r.key] == C.Tally(rows[..n], r.key, part)
            else Tallies(rows, keys, part) == m
  {
  }

  lemma {:induction false} CreditsSum(ds: seq<Custody.Deposit>, a: Asset, keys: set<Key>)
    requires forall k <- keys :: k.asset == a
    requires forall i :: 0 <= i < |ds| && ds[i].key.asset == a ==> ds[i].key in keys
    ensures Sum(Credits(ds, keys)) == Arrived(ds, a)
  {
    if ds == [] {
      ZeroSum(Credits(ds, keys));
    } else {
      var n := |ds| - 1;
      var d := ds[n];
      assert forall i :: 0 <= i < n ==> ds[..n][i] == ds[i];
      CreditsSum(ds[..n], a, keys);
      var m := Credits(ds[..n], keys);
      if d.key.asset == a {
        SumUpdate(m, d.key, m[d.key] + C.CreditOf(d, d.key));
        assert Credits(ds, keys) == m[d.key := m[d.key] + C.CreditOf(d, d.key)];
      } else {
        assert Credits(ds, keys) == m;
      }
    }
  }

  lemma OwnsSum(t: Table, a: Asset, keys: set<Key>)
    requires (forall k <- keys :: k.asset == a) && forall k <- t :: k.asset == a ==> k in keys
    ensures Sum(Owns(t, keys)) == Total(t, a)
  {
    SumExtend(Holdings(t, a), Owns(t, keys));
  }

  lemma BooksAdd(c: Custody.State, keys: set<Key>)
    ensures forall k <- keys :: Books(c, keys)[k] + Credits(c.deposits, keys)[k]
              == Owns(c.table, keys)[k] + (Tallies(c.rows, keys, C.Burned)[k] + Tallies(c.rows, keys, C.Dropped)[k])
  {
    hide C.Tally, C.CreditSum, At;
  }

  /** The books of single balance rows, summed over an asset. */
  lemma BooksSum(c: Custody.State, a: Asset, keys: set<Key>)
    requires KeysOf(c, a, keys)
    ensures Sum(Books(c, keys)) == AssetBook(c, a)
  {
    var owns, burned, dropped := Owns(c.table, keys), Tallies(c.rows, keys, C.Burned), Tallies(c.rows, keys, C.Dropped);
    var credits, books := Credits(c.deposits, keys), Books(c, keys);
    BooksAdd(c, keys);
    hide C.Book, C.Tally, C.CreditSum, C.Weight, C.CreditOf, Sum, Gone, Arrived, Holdings;
    OwnsSum(c.table, a, keys);
    TalliesSum(c.rows, a, keys, C.Burned);
    TalliesSum(c.rows, a, keys, C.Dropped);
    CreditsSum(c.deposits, a, keys);
    var gone := map k | k in keys :: burned[k] + dropped[k];
    var all := map k | k in keys :: owns[k] + gone[k];
    SumAdd(burned, dropped, gone);
    SumAdd(owns, gone, all);
    SumAdd(books, credits, all);
  }

  function KeysOfAsset(c: Custody.State, a: Asset): set<Key> {
    set k | k in c.table.Keys + RowKeys(c.rows) + DepositKeys(c.deposits) && k.asset == a
  }

  function DepositKeys(ds: seq<Custody.Deposit>): set<Key> {
    set i | 0 <= i < |ds| :: ds[i].key
  }

  lemma KeysSuffice(c: Custody.State, a: Asset, keys: set<Key>)
    requires KeysOfAsset(c, a) <= keys && forall k <- keys :: k.asset == a
    ensures KeysOf(c, a, keys)
  {
    forall i | 0 <= i < |c.rows| && c.rows[i].key.asset == a ensures c.rows[i].key in keys {
      assert c.rows[i].key in RowKeys(c.rows);
      assert c.rows[i].key in KeysOfAsset(c, a);
    }
    forall i | 0 <= i < |c.deposits| && c.deposits[i].key.asset == a ensures c.deposits[i].key in keys {
      assert c.deposits[i].key in DepositKeys(c.deposits);
      assert c.deposits[i].key in KeysOfAsset(c, a);
    }
    forall k | k in c.table && k.asset == a ensures k in keys { assert k in KeysOfAsset(c, a); }
  }

  lemma SameBooksSameAsset(c: Custody.State, c': Custody.State, a: Asset)
    requires forall k :: C.Book(c', k) == C.Book(c, k)
    ensures AssetBook(c', a) == AssetBook(c, a)
  {
    var keys := KeysOfAsset(c, a) + KeysOfAsset(c', a);
    KeysSuffice(c, a, keys);
    KeysSuffice(c', a, keys);
    BooksSum(c, a, keys);
    BooksSum(c', a, keys);
    assert Books(c, keys) == Books(c', keys);
  }

  lemma StepKeepsAsset(s: State, pairs: map<string, Trading.Pair>, e: Event, others: Holds, a: Asset)
    requires Inv(s, others) && EventOk(s, pairs, e)
    ensures AssetBook(Step(s, pairs, e).custody, a) == AssetBook(s.custody, a)
  {
    BothSidesHold(s, others);
    match e
    case Order(op) => T.StepKeepsInv(s.trade, pairs, op, WithdrawalHolds(s.custody.rows, others));
    case Daemon(action) =>
      C.StepKeepsInv(s.custody, action, OrderHolds(s.trade, others));
      SameBooksSameAsset(s.custody, Custody.Step(s.custody, action), a);
  }

  // ---------------------------------------------------------------- every run

  /** No amend of the run loses the call that would have frozen again what it had released. */
  predicate RunStrands(s: State, pairs: map<string, Trading.Pair>, events: seq<Event>)
    requires RunOk(s, pairs, events)
    decreases |events|
  {
    events == [] || (OnlyStrands(s, events[0]) && RunStrands(Step(s, pairs, events[0]), pairs, events[1..]))
  }

  function Stranded(s: State, pairs: map<string, Trading.Pair>, events: seq<Event>, others: Holds): Holds
    requires RunOk(s, pairs, events)
    decreases |events|
  {
    if events == [] then others
    else Stranded(Step(s, pairs, events[0]), pairs, events[1..], Strand(s, pairs, events[0], others))
  }

  /** What the handlers of a run have lost on balance `k`, all of it still frozen. */
  function LostByRun(s: State, pairs: map<string, Trading.Pair>, events: seq<Event>, k: Key): real
    requires RunOk(s, pairs, events)
    decreases |events|
  {
    if events == [] then 0.0
    else
      (if events[0].Order? then T.Lost(s.trade, pairs, events[0].op, k) else 0.0)
      + LostByRun(Step(s, pairs, events[0]), pairs, events[1..], k)
  }

  lemma {:induction false} StrandedIs(s: State, pairs: map<string, Trading.Pair>, events: seq<Event>, others: Holds,
                                      k: Key)
    requires RunOk(s, pairs, events)
    ensures Held(Stranded(s, pairs, events, others), k) == Held(others, k) + LostByRun(s, pairs, events, k)
    decreases |events|
  {
    if events == [] {
    } else {
      hide Step, T.Strand, T.Lost;
      if events[0].Order? { T.StrandHolds(s.trade, pairs, events[0].op, others, k); }
      StrandedIs(Step(s, pairs, events[0]), pairs, events[1..], Strand(s, pairs, events[0], others), k);
    }
  }

  /** Whatever users, admins, workers, watchers and scanners do, interleaved in any order, and whichever refunds and
      compensations fail, as long as what a failing amend loses only stays frozen: the joint invariant holds with the
      stranded amounts as further holds, and per asset nothing is created or lost but by deposits and withdrawals. */
  lemma {:induction false} RunKeepsInv(s: State, pairs: map<string, Trading.Pair>, events: seq<Event>, others: Holds)
    requires Inv(s, others) && RunOk(s, pairs, events) && RunStrands(s, pairs, events)
    ensures Inv(Run(s, pairs, events), Stranded(s, pairs, events, others))
    ensures forall a :: AssetBook(Run(s, pairs, events).custody, a) == AssetBook(s.custody, a)
    decreases |events|
  {
    if events == [] {
    } else {
      var e := events[0];
      hide Step, EventOk, Strand, OnlyStrands, Inv, AssetBook;
      StepKeeps(s, pairs, e, others);
      forall a ensures AssetBook(Step(s, pairs, e).custody, a) == AssetBook(s.custody, a) {
        StepKeepsAsset(s, pairs, e, others, a);
      }
      RunKeepsInv(Step(s, pairs, e), pairs, events[1..], Strand(s, pairs, e, others));
    }
  }

  lemma StepKeeps(s: State, pairs: map<string, Trading.Pair>, e: Event, others: Holds)
    requires Inv(s, others) && EventOk(s, pairs, e) && OnlyStrands(s, e)
    ensures Inv(Step(s, pairs, e), Strand(s, pairs, e, others))
  {
    hide Step, Inv, EventOk, OnlyStrands;
    match e
    case Order(op) => OrderKeeps(s, pairs, op, others);
    case Daemon(a) => DaemonKeeps(s, pairs, a, others);
  }

  function Start(table: Table): State {
    State(Trading.State(table, [], [], map[]), C.Start(table))
  }

  /** From a table whose frozen parts all belong to others, in every run of the whole exchange in which what failing
      amends lose only stays frozen: each user's frozen balance is exactly open reservations, price improvement,
      unreleased withdrawals, other holds and what was stranded; and all users' balances of an asset together, plus what
      was burned or dropped, are the initial ones plus the credited deposits. */
  lemma EverythingIsAccountedFor(table: Table, pairs: map<string, Trading.Pair>, events: seq<Event>, others: Holds,
                                 k: Key, a: Asset)
    requires C.FrozenForOthers(table, others)
    requires RunOk(Start(table), pairs, events) && RunStrands(Start(table), pairs, events)
    ensures var s := Run(Start(table), pairs, events);
            && s.custody.table == s.trade.table
            && At(s.trade.table, k).frozen == T.Reserved(s.trade.orders, k) + T.Residue(s.trade.fills, k)
                                              + C.Tally(s.custody.rows, k, C.OnHold) + Held(others, k)
                                              + LostByRun(Start(table), pairs, events, k)
            && Total(s.trade.table, a) + Gone(s.custody.rows, a, C.Burned) + Gone(s.custody.rows, a, C.Dropped)
               == Total(table, a) + Arrived(s.custody.deposits, a)
  {
    assert forall j: Key :: FrozenAt(Start(table), others, j);
    RunKeepsInv(Start(table), pairs, events, others);
    StrandedIs(Start(table), pairs, events, others, k);
    hide Step, RunOk, RunStrands, Stranded, LostByRun, C.Core, Total;
    var s := Run(Start(table), pairs, events);
    assert FrozenAt(s, Stranded(Start(table), pairs, events, others), k);
    assert AssetBook(s.custody, a) == AssetBook(C.Start(table), a);
  }
}
