/** Bitcoin coin selection and the amounts of a built transaction (internal/chainwallet/btc_builder.go). */
module CoinSelection {
  import opened Options

  datatype Utxo = Utxo(txid: string, vout: nat, value: int)

  const DUST := 546
  const SATOSHI := 100000000.0

  function Sum(s: seq<Utxo>): int {
    if s == [] then 0 else s[0].value + Sum(s[1..])
  }

  function EstimateSize(inputs: nat, outputs: nat): nat {
    inputs * 148 + outputs * 34 + 10
  }

  /** The fee for a transaction with that many inputs, always assuming two outputs. */
  function Fee(inputs: nat, rate: int): int {
    EstimateSize(inputs, 2) * rate
  }

  /** A selection pays the target and its own fee. */
  predicate Sufficient(s: seq<Utxo>, target: int, rate: int) {
    Sum(s) >= target + Fee(|s|, rate)
  }

  /** An empty transaction is 10 bytes; each input adds 148 and each output 34. */
  lemma SizeInFigures(inputs: nat, outputs: nat)
    ensures EstimateSize(0, 0) == 10
    ensures EstimateSize(inputs + 1, outputs) == EstimateSize(inputs, outputs) + 148
    ensures EstimateSize(inputs, outputs + 1) == EstimateSize(inputs, outputs) + 34
  {
  }

  /** So a selection pays exactly if it covers the target and 148 bytes for each input and 78 besides. */
  lemma SufficientInFigures(s: seq<Utxo>, target: int, rate: int)
    ensures Sufficient(s, target, rate) <==> Sum(s) >= target + (148 * |s| + 78) * rate
  {
  }

  /** `s` picks outputs of `pool`, each at most as often as it occurs there; the order is irrelevant. */
  predicate PickedFrom(s: seq<Utxo>, pool: seq<Utxo>) {
    multiset(s) <= multiset(pool)
  }

  predicate Descending(s: seq<Utxo>) {
    forall i, j :: 0 <= i < j < |s| ==> s[i].value >= s[j].value
  }

  // ---------------------------------------------------------------- sorting

  predicate Rearranged(s: seq<Utxo>, t: seq<Utxo>) {
    multiset(s) == multiset(t)
  }

  /** The first `i` places are final: nothing behind them is larger. */
  predicate SettledTo(s: seq<Utxo>, i: nat) {
    forall p, q :: 0 <= p < i && p < q < |s| ==> s[p].value >= s[q].value
  }

  /** Place `i` holds the largest of the places `i` to `j - 1`. */
  predicate LargestTo(s: seq<Utxo>, i: nat, j: nat)
    requires i < j <= |s|
  {
    forall q :: i < q < j ==> s[i].value >= s[q].value
  }

  lemma SwapRearranges(s: seq<Utxo>, i: nat, j: nat)
    requires i < j < |s|
    ensures Rearranged(s[i := s[j]][j := s[i]], s)
  {
    var u := s[i := s[j]];
    assert multiset(u) == multiset(s) - multiset{s[i]} + multiset{s[j]};
    assert multiset(u[j := s[i]]) == multiset(u) - multiset{s[j]} + multiset{s[i]};
  }

  lemma SwapKeeps(s: seq<Utxo>, i: nat, j: nat, t: seq<Utxo>)
    requires i < j < |s| && SettledTo(s, i) && LargestTo(s, i, j) && s[i].value < s[j].value
    requires t == s[i := s[j]][j := s[i]]
    ensures Rearranged(t, s) && SettledTo(t, i) && LargestTo(t, i, j + 1)
  {
    SwapRearranges(s, i, j);
  }

  method SortDescending(a: array<Utxo>)
    modifies a
    ensures Descending(a[..]) && Rearranged(a[..], old(a[..]))
  {
    for i := 0 to a.Length
      invariant SettledTo(a[..], i) && Rearranged(a[..], old(a[..]))
    {
      for j := i + 1 to a.Length
        invariant SettledTo(a[..], i) && LargestTo(a[..], i, j) && Rearranged(a[..], old(a[..]))
      {
        ghost var s := a[..];
        if a[i].value < a[j].value {
          a[i], a[j] := a[j], a[i];
          assert a[..] == s[i := s[j]][j := s[i]];
          SwapKeeps(s, i, j, a[..]);
        }
      }
    }
  }

  // ---------------------------------------------------------------- the exchange argument

  lemma {:induction false} SumAppend(s: seq<Utxo>, t: seq<Utxo>)
    ensures Sum(s + t) == Sum(s) + Sum(t)
  {
    if s == [] {
      assert s + t == t;
    } else {
      assert (s + t)[1..] == s[1..] + t;
      SumAppend(s[1..], t);
    }
  }

  /** `s` with place `i` taken out. */
  function Without(s: seq<Utxo>, i: nat): seq<Utxo>
    requires i < |s|
  {
    s[..i] + s[i + 1..]
  }

  lemma SumCons(u: Utxo, tail: seq<Utxo>)
    ensures Sum([u] + tail) == u.value + Sum(tail)
  {
    assert ([u] + tail)[1..] == tail;
  }

  lemma SumWithout(s: seq<Utxo>, i: nat)
    requires i < |s|
    ensures Sum(s) == s[i].value + Sum(Without(s, i))
  {
    hide Sum;
    var tail := s[i + 1..];
    assert s == s[..i] + ([s[i]] + tail);
    SumCons(s[i], tail);
    SumAppend(s[..i], [s[i]] + tail);
    SumAppend(s[..i], tail);
  }

  lemma MultisetAround(head: seq<Utxo>, u: Utxo, tail: seq<Utxo>, s: seq<Utxo>)
    requires s == head + [u] + tail
    ensures multiset(s) == multiset(head + tail) + multiset{u}
  {
    assert multiset([u]) == multiset{u};
    assert multiset(head + [u] + tail) == multiset(head + [u]) + multiset(tail);
  }

  lemma PickWithout(s: seq<Utxo>, i: nat)
    requires i < |s|
    ensures multiset(s) == multiset(Without(s, i)) + multiset{s[i]}
  {
    assert s[..i] + [s[i]] + s[i + 1..] == s;
    MultisetAround(s[..i], s[i], s[i + 1..], s);
  }

  lemma TakeOut(s: seq<Utxo>, i: nat)
    requires i < |s|
    ensures multiset(s) == multiset(Without(s, i)) + multiset{s[i]}
    ensures Sum(s) == s[i].value + Sum(Without(s, i))
  {
    SumWithout(s, i);
    PickWithout(s, i);
  }

  lemma Cancel(a: multiset<Utxo>, b: multiset<Utxo>, u: Utxo)
    requires a + multiset{u} == b + multiset{u}
    ensures a == b
  {
    assert a == a + multiset{u} - multiset{u};
    assert b == b + multiset{u} - multiset{u};
  }

  lemma {:induction false} SumIgnoresOrder(s: seq<Utxo>, t: seq<Utxo>)
    requires Rearranged(s, t)
    ensures Sum(s) == Sum(t)
  {
    if s == [] {
      assert |multiset(t)| == |multiset(s)|;
    } else {
      assert s[0] in multiset(t);
      var i :| 0 <= i < |t| && t[i] == s[0];
      TakeOut(t, i);
      TakeOut(s, 0);
      assert Without(s, 0) == s[1..];
      Cancel(multiset(s[1..]), multiset(Without(t, i)), s[0]);
      SumIgnoresOrder(s[1..], Without(t, i));
    }
  }

  lemma PickedIsShorter(s: seq<Utxo>, d: seq<Utxo>)
    requires PickedFrom(s, d)
    ensures |s| <= |d|
  {
    var rest := multiset(d) - multiset(s);
    assert multiset(d) == multiset(s) + rest;
    assert |multiset(d)| == |multiset(s)| + |rest|;
  }

  /** No selection of a given size is worth more than the largest outputs: if the largest output is in the
      selection take it out of both, otherwise trade any one pick for it. */
  lemma {:induction false} TopSum(s: seq<Utxo>, d: seq<Utxo>)
    requires Descending(d) && PickedFrom(s, d) && |s| <= |d|
    ensures Sum(s) <= Sum(d[..|s|])
    decreases |d|
  {
    if s == [] {
    } else {
      var i := if d[0] in s then IndexOf(s, d[0]) else 0;
      assert s[i].value <= d[0].value by { assert s[i] in multiset(d); }
      StillPicked(s, d, i);
      TopSum(Without(s, i), d[1..]);
      SumWithout(s, i);
      SumWithout(d[..|s|], 0);
      assert Without(d[..|s|], 0) == d[1..][..|s| - 1];
    }
  }

  function IndexOf(s: seq<Utxo>, u: Utxo): (i: nat)
    requires u in s
    ensures i < |s| && s[i] == u
  {
    if s[0] == u then 0 else 1 + IndexOf(s[1..], u)
  }

  lemma StillPicked(s: seq<Utxo>, d: seq<Utxo>, i: nat)
    requires i < |s| && d != [] && PickedFrom(s, d) && (s[i] == d[0] || d[0] !in s)
    ensures PickedFrom(Without(s, i), d[1..])
  {
    var rest, tail := multiset(Without(s, i)), multiset(d[1..]);
    PickWithout(s, i);
    PickWithout(d, 0);
    assert Without(d, 0) == d[1..];
    forall u ensures rest[u] <= tail[u] {
      assert multiset(s)[u] == rest[u] + if u == s[i] then 1 else 0;
      assert multiset(d)[u] == tail[u] + if u == d[0] then 1 else 0;
      assert multiset(s)[u] <= multiset(d)[u];
      if u == d[0] && u != s[i] {
        assert u !in multiset(s) && multiset(s)[u] == 0;
      }
    }
  }

  /** Nobody picks fewer than `k` outputs, at least one, and pays: no prefix shorter than `k` of the sorted list does. */
  lemma PrefixesDecide(d: seq<Utxo>, pool: seq<Utxo>, k: nat, target: int, rate: int)
    requires Descending(d) && Rearranged(d, pool)
    requires forall j :: 0 < j < k && j <= |d| ==> !Sufficient(d[..j], target, rate)
    ensures forall s :: s != [] && |s| < k && PickedFrom(s, pool) ==> !Sufficient(s, target, rate)
  {
    forall s: seq<Utxo> | s != [] && |s| < k && PickedFrom(s, pool) ensures !Sufficient(s, target, rate) {
      PickedIsShorter(s, d);
      TopSum(s, d);
    }
  }

  /** Some selection pays. */
  ghost predicate Payable(pool: seq<Utxo>, target: int, rate: int) {
    exists s: seq<Utxo> :: s != [] && PickedFrom(s, pool) && Sufficient(s, target, rate)
  }

  /** `s` pays, nothing smaller does, and nothing of the same size is worth more. */
  ghost predicate Best(s: seq<Utxo>, pool: seq<Utxo>, target: int, rate: int) {
    && s != [] && PickedFrom(s, pool) && Sufficient(s, target, rate)
    && (forall t :: t != [] && PickedFrom(t, pool) && Sufficient(t, target, rate) ==> |s| <= |t|)
    && (forall t :: |t| == |s| && PickedFrom(t, pool) ==> Sum(t) <= Sum(s))
  }

  /** With a positive rate and no negative target the empty selection pays nothing, so Payable means that any
      selection at all pays. */
  lemma PayableByAny(pool: seq<Utxo>, target: int, rate: int)
    requires target >= 0 && rate > 0
    ensures Payable(pool, target, rate) <==> exists s: seq<Utxo> :: PickedFrom(s, pool) && Sufficient(s, target, rate)
  {
    assert !Sufficient([], target, rate);
  }

  lemma PrefixIsBest(d: seq<Utxo>, pool: seq<Utxo>, k: nat, target: int, rate: int)
    requires Descending(d) && Rearranged(d, pool) && 0 < k <= |d|
    requires Sufficient(d[..k], target, rate)
    requires forall j :: 0 < j < k ==> !Sufficient(d[..j], target, rate)
    ensures Best(d[..k], pool, target, rate)
  {
    assert d == d[..k] + d[k..];
    PrefixesDecide(d, pool, k, target, rate);
    forall t: seq<Utxo> | |t| == k && PickedFrom(t, pool) ensures Sum(t) <= Sum(d[..k]) {
      TopSum(t, d);
    }
  }

  lemma NothingPays(d: seq<Utxo>, pool: seq<Utxo>, target: int, rate: int)
    requires Descending(d) && Rearranged(d, pool)
    requires forall j :: 0 < j <= |d| ==> !Sufficient(d[..j], target, rate)
    ensures !Payable(pool, target, rate) && d[..|d|] == d && Sum(d) == Sum(pool)
  {
    PrefixesDecide(d, pool, |d| + 1, target, rate);
    SumIgnoresOrder(d, pool);
    forall s: seq<Utxo> | PickedFrom(s, pool) ensures |s| <= |d| { PickedIsShorter(s, d); }
  }

  /** `s` is a non-empty choice from the pool that covers the target, 148 bytes for each input and 78 besides. */
  ghost predicate PaysInFigures(s: seq<Utxo>, pool: seq<Utxo>, target: int, rate: int) {
    s != [] && multiset(s) <= multiset(pool) && Sum(s) >= target + (148 * |s| + 78) * rate
  }

  lemma PaysIff(s: seq<Utxo>, pool: seq<Utxo>, target: int, rate: int)
    ensures PaysInFigures(s, pool, target, rate) <==> s != [] && PickedFrom(s, pool) && Sufficient(s, target, rate)
  {
    SufficientInFigures(s, target, rate);
  }

  /** What is said of a selection and of a pool, in figures: nothing of fewer inputs pays, nothing of as many is worth
      more; and a pool is payable when something pays. */
  lemma SelectionInFigures(s: seq<Utxo>, pool: seq<Utxo>, target: int, rate: int)
    ensures Best(s, pool, target, rate) <==>
            && PaysInFigures(s, pool, target, rate)
            && (forall t: seq<Utxo> :: PaysInFigures(t, pool, target, rate) ==> |s| <= |t|)
            && (forall t: seq<Utxo> :: |t| == |s| && multiset(t) <= multiset(pool) ==> Sum(t) <= Sum(s))
    ensures Payable(pool, target, rate) <==> exists t: seq<Utxo> :: PaysInFigures(t, pool, target, rate)
  {
    forall t: seq<Utxo>
      ensures PaysInFigures(t, pool, target, rate) <==> t != [] && PickedFrom(t, pool) && Sufficient(t, target, rate)
    {
      PaysIff(t, pool, target, rate);
    }
    assert forall t: seq<Utxo> :: PickedFrom(t, pool) <==> multiset(t) <= multiset(pool);
    hide Sum, Sufficient, PickedFrom, PaysInFigures;
  }

  /** selectUTXOs. The caller's list is left as it was. */
  method SelectUtxos(utxos: array<Utxo>, target: int, rate: int) returns (selected: Option<seq<Utxo>>, total: int)
    ensures selected.None? <==> !Payable(utxos[..], target, rate)
    ensures selected.None? ==> total == Sum(utxos[..])
    ensures selected.Some? ==> total == Sum(selected.value) && Best(selected.value, utxos[..], target, rate)
  {
    var sorted := new Utxo[utxos.Length](i requires 0 <= i < utxos.Length reads utxos => utxos[i]);
    ghost var pool := utxos[..];
    assert sorted[..] == pool;
    SortDescending(sorted);
    ghost var d := sorted[..];
    var picked: seq<Utxo> := [];
    total := 0;
    for i := 0 to sorted.Length
      invariant sorted[..] == d && utxos[..] == pool
      invariant picked == d[..i] && total == Sum(picked)
      invariant forall j :: 0 < j <= i ==> !Sufficient(d[..j], target, rate)
    {
      SumAppend(picked, [sorted[i]]);
      picked := picked + [sorted[i]];
      assert picked == d[..i + 1];
      total := total + sorted[i].value;
      var txSize := EstimateSize(|picked|, 2);
      var feeNeeded := txSize * rate;
      if total >= target + feeNeeded {
        PrefixIsBest(d, pool, i + 1, target, rate);
        return Some(picked), total;
      }
    }
    NothingPays(d, pool, target, rate);
    return None, total;
  }

  // ---------------------------------------------------------------- the transaction's amounts

  datatype BuildError = AmountNotPositive | NoUtxos | InsufficientFunds(need: int, have: int)
  datatype Built = Tx(inputs: seq<Utxo>, outputs: seq<int>, fee: int) | Rejected(error: BuildError)

  function Total(outputs: seq<int>): int {
    if outputs == [] then 0 else outputs[0] + Total(outputs[1..])
  }

  lemma TotalOf(outputs: seq<int>)
    requires 1 <= |outputs| <= 2
    ensures Total(outputs) == outputs[0] + if |outputs| == 2 then outputs[1] else 0
  {
    if |outputs| == 2 {
      assert outputs[1..][1..] == [];
    }
  }

  /** What the transaction really pays the miner. */
  function Paid(inputs: seq<Utxo>, outputs: seq<int>): int {
    Sum(inputs) - Total(outputs)
  }

  /** The fee rate a builder uses; NewBtcBuilder replaces 0. */
  function RateOf(configured: int): int {
    if configured == 0 then 20 else configured
  }

  /** Build, from the parsed amount to the amounts on the transaction. */
  method Build(amount: real, utxos: array<Utxo>, configured: int) returns (r: Built)
    ensures r == Rejected(AmountNotPositive) <==> amount <= 0.0
    ensures r == Rejected(NoUtxos) <==> amount > 0.0 && utxos.Length == 0
    ensures r.Rejected? && r.error.InsufficientFunds? <==>
            amount > 0.0 && utxos.Length > 0 && !Payable(utxos[..], (amount * SATOSHI).Floor, RateOf(configured))
    ensures r.Rejected? && r.error.InsufficientFunds? ==>
              r.error == InsufficientFunds((amount * SATOSHI).Floor, Sum(utxos[..]))
    ensures r.Tx? ==> Best(r.inputs, utxos[..], (amount * SATOSHI).Floor, RateOf(configured))
    ensures r.Tx? ==> |r.outputs| in {1, 2} && r.outputs[0] == (amount * SATOSHI).Floor
    ensures r.Tx? && |r.outputs| == 2 ==> r.outputs[1] > DUST
    ensures r.Tx? ==> r.fee == (148 * |r.inputs| + 78) * (if configured == 0 then 20 else configured)
    ensures r.Tx? ==> Sum(r.inputs) >= r.outputs[0] + r.fee
    ensures r.Tx? ==> (|r.outputs| == 2 <==> Sum(r.inputs) - r.outputs[0] - r.fee > 546)
    ensures r.Tx? && |r.outputs| == 2 ==> r.outputs[1] == Sum(r.inputs) - r.outputs[0] - r.fee
    ensures r.Tx? ==> r.fee <= Paid(r.inputs, r.outputs) <= r.fee + DUST
    ensures r.Tx? ==> (r.fee == Paid(r.inputs, r.outputs) <==>
                       |r.outputs| == 2 || Sum(r.inputs) == r.outputs[0] + r.fee)
  {
    if amount <= 0.0 { return Rejected(AmountNotPositive); }
    if utxos.Length == 0 { return Rejected(NoUtxos); }
    var amountSat := (amount * SATOSHI).Floor;
    var rate := RateOf(configured);
    var selected, totalIn := SelectUtxos(utxos, amountSat, rate);
    if selected.None? { return Rejected(InsufficientFunds(amountSat, totalIn)); }
    var fee := EstimateSize(|selected.value|, 2) * rate;
    var outputs := [amountSat];
    var change := totalIn - amountSat - fee;
    if change > DUST {
      outputs := outputs + [change];
    }
    TotalOf(outputs);
    return Tx(selected.value, outputs, fee);
  }

  // ---------------------------------------------------------------- int64

  predicate FitsInt64(x: int) {
    -0x8000_0000_0000_0000 <= x < 0x8000_0000_0000_0000
  }

  const SUPPLY := 2100000000000000       // satoshis that will ever exist
  const MAX_RATE := 1000000000
  const MAX_UTXOS := 0x100_0000

  lemma {:induction false} PrefixSumBounds(d: seq<Utxo>, k: nat)
    requires k <= |d| && forall i :: 0 <= i < |d| ==> d[i].value >= 0
    ensures 0 <= Sum(d[..k]) <= Sum(d)
  {
    if k != 0 {
      assert d[..k][1..] == d[1..][..k - 1];
      PrefixSumBounds(d[1..], k - 1);
    } else if d != [] {
      PrefixSumBounds(d[1..], 0);
    }
  }

  lemma FeeBound(size: nat, rate: int, largest: nat)
    requires size <= largest && 0 < rate <= MAX_RATE
    ensures 0 <= size * rate <= largest * MAX_RATE
  {
    assert size * rate <= largest * rate;
    assert largest * rate <= largest * MAX_RATE;
  }

  /** Every number selectUTXOs and Build compute fits in 64 bits, whichever prefix `d[..k]` they are at, when no more
      coins exist than can, and the list and the rate stay below about 16 million outputs and 10 BTC per byte. */
  lemma NoOverflow(d: seq<Utxo>, k: nat, target: int, rate: int)
    requires k <= |d| <= MAX_UTXOS && Sum(d) <= SUPPLY && forall i :: 0 <= i < |d| ==> d[i].value >= 0
    requires 0 <= target <= SUPPLY && 0 < rate <= MAX_RATE
    ensures FitsInt64(Sum(d[..k])) && FitsInt64(EstimateSize(k, 2)) && FitsInt64(Fee(k, rate))
    ensures FitsInt64(target + Fee(k, rate))
    ensures FitsInt64(Sum(d[..k]) - target) && FitsInt64(Sum(d[..k]) - target - Fee(k, rate))
  {
    PrefixSumBounds(d, k);
    FeeBound(EstimateSize(k, 2), rate, 148 * MAX_UTXOS + 78);
  }
}
