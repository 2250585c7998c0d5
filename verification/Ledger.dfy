/** The balance table of migrations/0001_init.up.sql and the wallet service that moves money in it. */
module Ledger {
  import opened Sums

  type UserId = nat
  type Asset = string
  datatype Key = Key(user: UserId, asset: Asset)
  datatype Balance = Balance(available: real, frozen: real)
  type Table = map<Key, Balance>

  /** A missing row reads as a zero balance. */
  function At(t: Table, k: Key): Balance {
    if k in t then t[k] else Balance(0.0, 0.0)
  }

  /** The two CHECK constraints of the table. */
  ghost predicate NonNegative(t: Table) {
    forall k <- t :: t[k].available >= 0.0 && t[k].frozen >= 0.0
  }

  ghost function Holdings(t: Table, a: Asset): map<Key, real> {
    map k | k in t && k.asset == a :: t[k].available + t[k].frozen
  }

  /** Everything all users hold of one asset, available and frozen together. */
  ghost function Total(t: Table, a: Asset): real {
    Sum(Holdings(t, a))
  }

  function Owned(b: Balance): real {
    b.available + b.frozen
  }

  /** Funds frozen on behalf of services a theorem does not look into. */
  type Holds = map<Key, real>

  function Held(others: Holds, k: Key): real {
    if k in others then others[k] else 0.0
  }

  lemma HoldingsUpdate(t: Table, k: Key, b: Balance)
    ensures Holdings(t[k := b], k.asset) == Holdings(t, k.asset)[k := Owned(b)]
  {
  }

  lemma HoldingsOfOthers(t: Table, k: Key, b: Balance, a: Asset)
    requires k.asset != a
    ensures Holdings(t[k := b], a) == Holdings(t, a)
  {
  }

  lemma HoldingsAt(t: Table, k: Key)
    ensures (if k in Holdings(t, k.asset) then Holdings(t, k.asset)[k] else 0.0) == Owned(At(t, k))
  {
  }

  lemma TotalUpdate(t: Table, k: Key, b: Balance, a: Asset)
    ensures Total(t[k := b], a) == Total(t, a) + if k.asset == a then Owned(b) - Owned(At(t, k)) else 0.0
  {
    hide Holdings, Sum, At, Owned;
    if k.asset == a {
      HoldingsUpdate(t, k, b);
      HoldingsAt(t, k);
      SumUpdate(Holdings(t, a), k, Owned(b));
    } else {
      HoldingsOfOthers(t, k, b, a);
    }
  }

  datatype WalletError = NegativeAmount | InsufficientBalance | InsufficientFrozen
  datatype Move = Moved(table: Table) | Refused(error: WalletError)

  function CreditMove(t: Table, k: Key, amount: real): Move {
    if amount <= 0.0 then Refused(NegativeAmount)
    else Moved(t[k := At(t, k).(available := At(t, k).available + amount)])
  }

  function FreezeMove(t: Table, k: Key, amount: real): Move {
    if amount <= 0.0 then Refused(NegativeAmount)
    else if k in t && t[k].available >= amount then
      Moved(t[k := Balance(t[k].available - amount, t[k].frozen + amount)])
    else Refused(InsufficientBalance)
  }

  function UnfreezeMove(t: Table, k: Key, amount: real): Move {
    if amount <= 0.0 then Refused(NegativeAmount)
    else if k in t && t[k].frozen >= amount then
      Moved(t[k := Balance(t[k].available + amount, t[k].frozen - amount)])
    else Refused(InsufficientFrozen)
  }

  function DebitFrozenMove(t: Table, k: Key, amount: real): Move {
    if amount <= 0.0 then Refused(NegativeAmount)
    else if k in t && t[k].frozen >= amount then
      Moved(t[k := t[k].(frozen := t[k].frozen - amount)])
    else Refused(InsufficientFrozen)
  }

  /** Which moves go through, and the row each leaves; every other row stays as it is. */
  lemma MovesInFigures(t: Table, k: Key, amount: real)
    ensures CreditMove(t, k, amount) ==
              if amount <= 0.0 then Refused(NegativeAmount)
              else if k in t then Moved(t[k := Balance(t[k].available + amount, t[k].frozen)])
              else Moved(t[k := Balance(amount, 0.0)])
    ensures FreezeMove(t, k, amount) ==
              if amount <= 0.0 then Refused(NegativeAmount)
              else if k !in t || t[k].available < amount then Refused(InsufficientBalance)
              else Moved(t[k := Balance(t[k].available - amount, t[k].frozen + amount)])
    ensures UnfreezeMove(t, k, amount) ==
              if amount <= 0.0 then Refused(NegativeAmount)
              else if k !in t || t[k].frozen < amount then Refused(InsufficientFrozen)
              else Moved(t[k := Balance(t[k].available + amount, t[k].frozen - amount)])
    ensures DebitFrozenMove(t, k, amount) ==
              if amount <= 0.0 then Refused(NegativeAmount)
              else if k !in t || t[k].frozen < amount then Refused(InsufficientFrozen)
              else Moved(t[k := Balance(t[k].available, t[k].frozen - amount)])
  {
  }

  /** The table once a move's outcome has been taken into account: a refused move changes nothing. */
  function After(m: Move, t: Table): Table {
    if m.Moved? then m.table else t
  }

  /** The wallet service: every operation is one guarded UPDATE, so it either moves the amount or refuses. */
  class Wallet {
    var table: Table

    constructor ()
      ensures table == map[]
    {
      table := map[];
    }

    method Credit(k: Key, amount: real) returns (ok: bool)
      modifies this
      ensures table == After(CreditMove(old(table), k, amount), old(table))
      ensures ok <==> CreditMove(old(table), k, amount).Moved?
    {
      if amount <= 0.0 { return false; }
      if k in table {
        table := table[k := table[k].(available := table[k].available + amount)];
      } else {
        table := table[k := Balance(0.0 + amount, 0.0)];
      }
      return true;
    }

    method Freeze(k: Key, amount: real) returns (ok: bool)
      modifies this
      ensures table == After(FreezeMove(old(table), k, amount), old(table))
      ensures ok <==> FreezeMove(old(table), k, amount).Moved?
    {
      if amount <= 0.0 { return false; }
      if k !in table || table[k].available < amount { return false; }
      table := table[k := Balance(table[k].available - amount, table[k].frozen + amount)];
      return true;
    }

    method Unfreeze(k: Key, amount: real) returns (ok: bool)
      modifies this
      ensures table == After(UnfreezeMove(old(table), k, amount), old(table))
      ensures ok <==> UnfreezeMove(old(table), k, amount).Moved?
    {
      if amount <= 0.0 { return false; }
      if k !in table || table[k].frozen < amount { return false; }
      table := table[k := Balance(table[k].available + amount, table[k].frozen - amount)];
      return true;
    }

    method DebitFrozen(k: Key, amount: real) returns (ok: bool)
      modifies this
      ensures table == After(DebitFrozenMove(old(table), k, amount), old(table))
      ensures ok <==> DebitFrozenMove(old(table), k, amount).Moved?
    {
      if amount <= 0.0 { return false; }
      if k !in table || table[k].frozen < amount { return false; }
      table := table[k := table[k].(frozen := table[k].frozen - amount)];
      return true;
    }
  }

  lemma FreezeConserves(t: Table, k: Key, amount: real, a: Asset)
    requires NonNegative(t) && FreezeMove(t, k, amount).Moved?
    ensures var t' := FreezeMove(t, k, amount).table;
            Total(t', a) == Total(t, a) && NonNegative(t') && UnfreezeMove(t', k, amount) == Moved(t)
  {
    var t' := FreezeMove(t, k, amount).table;
    TotalUpdate(t, k, t'[k], a);
    assert t'[k := t[k]] == t;
  }

  lemma UnfreezeConserves(t: Table, k: Key, amount: real, a: Asset)
    requires NonNegative(t) && UnfreezeMove(t, k, amount).Moved?
    ensures var t' := UnfreezeMove(t, k, amount).table;
            Total(t', a) == Total(t, a) && NonNegative(t') && FreezeMove(t', k, amount) == Moved(t)
  {
    var t' := UnfreezeMove(t, k, amount).table;
    TotalUpdate(t, k, t'[k], a);
    assert t'[k := t[k]] == t;
  }

  /** Freezing and unfreezing keep what everybody owns, keep the CHECK constraints, and undo each other exactly. */
  lemma MovesConserve(t: Table, k: Key, amount: real, a: Asset)
    requires NonNegative(t)
    ensures var m := FreezeMove(t, k, amount);
            m.Moved? ==> Total(m.table, a) == Total(t, a) && NonNegative(m.table)
                         && UnfreezeMove(m.table, k, amount) == Moved(t)
    ensures var m := UnfreezeMove(t, k, amount);
            m.Moved? ==> Total(m.table, a) == Total(t, a) && NonNegative(m.table)
                         && FreezeMove(m.table, k, amount) == Moved(t)
  {
    if FreezeMove(t, k, amount).Moved? { FreezeConserves(t, k, amount, a); }
    if UnfreezeMove(t, k, amount).Moved? { UnfreezeConserves(t, k, amount, a); }
  }
}
