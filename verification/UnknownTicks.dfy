/** The unknown-transaction counter that wallet-api keeps inside a withdrawal's error_msg column. */
module UnknownTicks {
  import opened Decimals

  const PREFIX := "unknown_ticks="
  const THRESHOLD := 12

  /** error_msg LIKE '%unknown_ticks=%' at position p. In SQL the underscore stands for any one character. */
  predicate LikeAt(s: string, p: nat) {
    p + |PREFIX| <= |s| && s[p..p + 7] == "unknown" && s[p + 8..p + 14] == "ticks="
  }

  predicate Like(s: string) {
    exists p: nat :: p < |s| && LikeAt(s, p)
  }

  /** What one tick appends. */
  function Bump(s: string): string {
    s + (if Like(s) then "" else PREFIX) + "1,"
  }

  predicate OccursAt(s: string, sub: string, p: int) {
    0 <= p <= |s| - |sub| && s[p..p + |sub|] == sub
  }

  function LastIndexFrom(s: string, sub: string, p: int): (i: int)
    requires p <= |s| - |sub|
    ensures i == -1 || (i <= p && OccursAt(s, sub, i))
    ensures forall j :: i < j <= p ==> !OccursAt(s, sub, j)
    decreases p + 1
  {
    if p < 0 then -1 else if OccursAt(s, sub, p) then p else LastIndexFrom(s, sub, p - 1)
  }

  /** strings.LastIndex: the last place `sub` occurs at, or -1. */
  function LastIndex(s: string, sub: string): (i: int)
    ensures i == -1 || OccursAt(s, sub, i)
    ensures forall j :: i < j ==> !OccursAt(s, sub, j)
  {
    LastIndexFrom(s, sub, |s| - |sub|)
  }

  /** The part of the tail that is read: everything before its first comma. */
  function BeforeComma(s: string): (r: string)
    ensures |r| <= |s| && r == s[..|r|]
    ensures forall i :: 0 <= i < |r| ==> r[i] != ','
    ensures |r| < |s| ==> s[|r|] == ','
  {
    if s == [] || s[0] == ',' then [] else [s[0]] + BeforeComma(s[1..])
  }

  function Count(s: string): nat {
    var i := LastIndex(s, PREFIX);
    if i < 0 then 0
    else
      var head := BeforeComma(s[i + |PREFIX|..]);
      if AllDigits(head) then Decimal(head) else 0
  }

  /** countUnknownTicks: scan to the first comma after the last prefix, adding up the digits on the way. */
  method CountUnknownTicks(s: string) returns (n: nat)
    ensures n == Count(s)
  {
    var idx := LastIndex(s, PREFIX);
    if idx < 0 { return 0; }
    var tail := s[idx + |PREFIX|..];
    var end := 0;
    while end < |tail| && tail[end] != ','
      invariant end <= |tail| && forall i :: 0 <= i < end ==> tail[i] != ','
    {
      end := end + 1;
    }
    BeforeCommaIs(tail, end);
    n := ParseDigits(tail[..end]);
  }

  method ParseDigits(head: string) returns (n: nat)
    ensures n == if AllDigits(head) then Decimal(head) else 0
  {
    n := 0;
    for i := 0 to |head|
      invariant AllDigits(head[..i]) && n == Decimal(head[..i])
    {
      if head[i] < '0' || head[i] > '9' { return 0; }
      assert head[..i + 1][..i] == head[..i];
      n := n * 10 + (head[i] - '0') as nat;
    }
    assert head[..|head|] == head;
  }

  lemma BeforeCommaIs(s: string, end: nat)
    requires end <= |s| && forall i :: 0 <= i < end ==> s[i] != ','
    requires end < |s| ==> s[end] == ','
    ensures BeforeComma(s) == s[..end]
  {
    if end > 0 {
      BeforeCommaIs(s[1..], end - 1);
      assert s[..end] == [s[0]] + s[1..][..end - 1];
    }
  }

  function Ticks(n: nat): string {
    if n == 0 then "" else "1," + Ticks(n - 1)
  }

  /** The column after n ticks on a row whose message was empty. */
  function AfterTicks(n: nat): string {
    if n == 0 then "" else Bump(AfterTicks(n - 1))
  }

  lemma {:induction false} TicksShape(n: nat)
    ensures Ticks(n) + "1," == Ticks(n + 1) && |Ticks(n)| == 2 * n
    ensures forall i :: 0 <= i < |Ticks(n)| ==> Ticks(n)[i] == if i % 2 == 0 then '1' else ','
  {
    if n == 0 {
    } else {
      TicksShape(n - 1);
      assert Ticks(n) + "1," == "1," + (Ticks(n - 1) + "1,");
      assert Ticks(n - 1) + "1," == Ticks(n);
      forall i | 0 <= i < |Ticks(n)| ensures Ticks(n)[i] == if i % 2 == 0 then '1' else ',' {
        if i >= 2 { assert Ticks(n)[i] == Ticks(n - 1)[i - 2]; }
      }
    }
  }

  lemma {:induction false} AfterTicksShape(n: nat)
    requires n > 0
    ensures AfterTicks(n) == PREFIX + Ticks(n)
  {
    hide Like;
    if n == 1 {
      EmptyIsNotLike();
      assert Ticks(1) == "1," + Ticks(0) == "1,";
      assert AfterTicks(1) == Bump(AfterTicks(0)) == "" + PREFIX + "1,";
    } else {
      AfterTicksShape(n - 1);
      PrefixIsLike(AfterTicks(n - 1), Ticks(n - 1));
      TicksShape(n - 1);
      hide LikeAt, Ticks;
      assert PREFIX + Ticks(n - 1) + "1," == PREFIX + (Ticks(n - 1) + "1,");
    }
  }

  /** A prefix at the very end is the last one, whatever stands before it, and counts nothing. */
  lemma NothingAfterPrefix(head: string)
    ensures Count(head + "unknown_ticks=") == 0
  {
    var s := head + PREFIX;
    assert s[|head|..] == PREFIX && OccursAt(s, PREFIX, |head|);
    var i := LastIndex(s, PREFIX);
    assert i == |head|;
    assert s[i + |PREFIX|..] == "" && BeforeComma("") == "" && Decimal("") == 0;
  }

  /** Ticks in a row are the prefix and one "1," each. */
  lemma TicksInFigures(n: nat)
    ensures AfterTicks(0) == "" && AfterTicks(1) == "unknown_ticks=1," && AfterTicks(2) == "unknown_ticks=1,1,"
    ensures n > 0 ==> |AfterTicks(n)| == 14 + 2 * n && AfterTicks(n + 1) == AfterTicks(n) + "1,"
  {
    TicksShape(1);
    TicksShape(2);
    AfterTicksShape(1);
    AfterTicksShape(2);
    assert Ticks(1) == "1," + Ticks(0) == "1,";
    assert Ticks(2) == "1," + Ticks(1) == "1,1,";
    if n > 0 {
      AfterTicksShape(n);
      AfterTicksShape(n + 1);
      TicksShape(n);
      hide Ticks;
      assert PREFIX + Ticks(n) + "1," == PREFIX + (Ticks(n) + "1,");
    }
  }

  lemma EmptyIsNotLike()
    ensures !Like("")
  {
  }

  lemma PrefixIsLike(s: string, rest: string)
    requires s == PREFIX + rest
    ensures Like(s)
  {
    assert s[0..7] == PREFIX[0..7] == "unknown";
    assert s[8..14] == PREFIX[8..14] == "ticks=";
    assert LikeAt(s, 0);
  }

  /** The counter never gets past one, however many ticks go by: each tick appends "1," but only the digits up to
      the first comma are read. So the threshold of twelve is never met by counting. */
  lemma TicksNeverReachThreshold(n: nat)
    ensures Count(AfterTicks(n)) == if n == 0 then 0 else 1
    ensures Count(AfterTicks(n)) < THRESHOLD
  {
    if n > 0 {
      AfterTicksShape(n);
      TicksShape(n);
      var s := AfterTicks(n);
      assert s[0..|PREFIX|] == PREFIX && OccursAt(s, PREFIX, 0);
      OnlyAtStart(n);
      assert LastIndex(s, PREFIX) == 0;
      assert s[|PREFIX|..] == Ticks(n);
      BeforeCommaIs(Ticks(n), 1);
      var head := Ticks(n)[..1];
      assert head == "1" && head[..0] == "";
      assert Decimal(head) == Decimal(head[..0]) * 10 + 1;
    }
  }

  /** A message made of ticks alone. */
  ghost predicate TicksOnly(s: string) {
    exists n: nat :: s == AfterTicks(n)
  }

  lemma TicksStayFew(s: string)
    requires TicksOnly(s)
    ensures Count(s) < THRESHOLD
  {
    var n: nat :| s == AfterTicks(n);
    TicksNeverReachThreshold(n);
  }

  lemma BumpIsATick(s: string)
    requires TicksOnly(s)
    ensures TicksOnly(Bump(s))
  {
    var n: nat :| s == AfterTicks(n);
    assert AfterTicks(n + 1) == Bump(AfterTicks(n));
  }

  lemma OnlyAtStart(n: nat)
    requires n > 0
    ensures forall p :: p > 0 ==> !OccursAt(AfterTicks(n), PREFIX, p)
  {
    AfterTicksShape(n);
    TicksShape(n);
    var s := AfterTicks(n);
    forall p | p > 0 ensures !OccursAt(s, PREFIX, p) {
      if p <= |s| - |PREFIX| {
        assert s[p] == if p < |PREFIX| then PREFIX[p] else Ticks(n)[p - |PREFIX|];
        assert s[p] != 'u' && PREFIX[0] == 'u';
        assert s[p..p + |PREFIX|][0] == s[p];
      }
    }
  }
}
