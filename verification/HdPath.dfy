/** BIP-44 derivation paths (internal/signing/hd_signer.go): the printers and the parser with its 32-bit arithmetic.
    Deriving a child key is opaque; what counts is the list of indices the parser derives with. */
module HdPath {
  import opened Decimals

  const WORD := 0x1_0000_0000
  const HARDENED := 0x8000_0000
  const HARDENED_LEVELS := 3

  datatype Error = BadStart | NonNumeric(position: nat)
  datatype Parsed = Ok(indices: seq<nat>) | Err(error: Error)

  // ---------------------------------------------------------------- what a path means

  /** The first slash from `i` on; the length when there is none. */
  function Slash(s: string, i: nat): (end: nat)
    requires i <= |s|
    ensures i <= end <= |s| && (forall j :: i <= j < end ==> s[j] != '/') && (end < |s| ==> s[end] == '/')
    decreases |s| - i
  {
    if i == |s| || s[i] == '/' then i else Slash(s, i + 1)
  }

  /** The pieces between slashes; a final slash opens no further piece. */
  function Components(s: string): seq<string>
    decreases |s|
  {
    if s == "" then []
    else
      var end := Slash(s, 0);
      [s[..end]] + if end == |s| then [] else Components(s[end + 1..])
  }

  predicate PathChar(c: char) { IsDigit(c) || c == '/' }

  /** The first character that belongs in no path; the length when there is none. */
  function FirstBad(s: string, i: nat): (p: nat)
    requires i <= |s|
    ensures i <= p <= |s| && (forall j :: i <= j < p ==> PathChar(s[j])) && (p < |s| ==> !PathChar(s[p]))
    decreases |s| - i
  {
    if i == |s| || !PathChar(s[i]) then i else FirstBad(s, i + 1)
  }

  /** The first three levels are hardened, in 32-bit arithmetic. */
  function Index(c: string, depth: nat): (idx: nat)
    requires AllDigits(c)
    ensures idx < WORD
  {
    (Decimal(c) + if depth < HARDENED_LEVELS then HARDENED else 0) % WORD
  }

  function Indices(cs: seq<string>): (r: seq<nat>)
    requires forall i :: 0 <= i < |cs| ==> AllDigits(cs[i])
    ensures |r| == |cs|
  {
    seq(|cs|, i requires 0 <= i < |cs| => Index(cs[i], i))
  }

  /** Where the components start: after "m" or "m/". */
  function Start(path: string): (i: nat)
    requires |path| >= 2
    ensures i <= |path|
  {
    if path[1] == '/' then 2 else 1
  }

  lemma ComponentsFrom(s: string, end: nat)
    requires s != "" && end == Slash(s, 0)
    ensures Components(s) == [s[..end]] + if end == |s| then [] else Components(s[end + 1..])
  {
  }

  lemma {:induction false} GoodComponents(s: string)
    requires forall i :: 0 <= i < |s| ==> PathChar(s[i])
    ensures forall i :: 0 <= i < |Components(s)| ==> AllDigits(Components(s)[i])
    decreases |s|
  {
    if s == "" {
    } else {
      var end := Slash(s, 0);
      ComponentsFrom(s, end);
      assert AllDigits(s[..end]);
      hide Components, AllDigits, Slash, PathChar;
      if end < |s| { GoodComponents(s[end + 1..]); }
    }
  }

  /** What the whole parser answers, said without its loops. */
  function Parse(path: string): Parsed {
    if |path| < 2 || path[0] != 'm' then Err(BadStart)
    else
      var start := Start(path);
      if FirstBad(path, start) < |path| then Err(NonNumeric(FirstBad(path, start)))
      else
        GoodComponents(path[start..]);
        Ok(Indices(Components(path[start..])))
  }

  // ---------------------------------------------------------------- the parser

  lemma WholeWords(x: nat, words: nat)
    ensures (x + words * WORD) % WORD == x % WORD
  {
  }

  /** Working modulo 2^32 from digit to digit or once at the end comes to the same. */
  lemma WrapStep(x: nat, d: nat)
    ensures (x % WORD * 10 + d) % WORD == (x * 10 + d) % WORD
  {
    WholeWords(x % WORD * 10 + d, x / WORD * 10);
    assert x * 10 + d == x % WORD * 10 + d + x / WORD * 10 * WORD;
  }

  lemma WrapHarden(x: nat, h: nat)
    ensures (x % WORD + h) % WORD == (x + h) % WORD
  {
  }

  lemma DigitStep(path: string, start: nat, i: nat)
    requires start <= i < |path| && AllDigits(path[start..i]) && IsDigit(path[i])
    ensures AllDigits(path[start..i + 1])
    ensures (Decimal(path[start..i]) % WORD * 10 + (path[i] - '0') as nat) % WORD == Decimal(path[start..i + 1]) % WORD
  {
    var s, c := path[start..i], path[i];
    assert path[start..i + 1] == s + [c];
    WrapStep(Decimal(s), (c - '0') as nat);
    assert (s + [c])[..|s|] == s;
  }

  /** The digit loop over one component; `good` is false at the first character that is no digit, at `position`. */
  method ParseIndex(path: string, start: nat, end: nat) returns (good: bool, idx: nat, position: nat)
    requires start <= end <= |path|
    ensures good <==> AllDigits(path[start..end])
    ensures good ==> idx == Decimal(path[start..end]) % WORD
    ensures !good ==> start <= position < end && AllDigits(path[start..position]) && !IsDigit(path[position])
  {
    good, idx, position := true, 0, start;
    for i := start to end
      invariant AllDigits(path[start..i]) && idx == Decimal(path[start..i]) % WORD
    {
      var c := path[i];
      if c < '0' || c > '9' {
        assert path[start..end][i - start] == c;
        return false, idx, i;
      }
      DigitStep(path, start, i);
      idx := (idx * 10 + (c - '0') as nat) % WORD;
    }
  }

  method ParseBip32Path(path: string) returns (r: Parsed)
    ensures r == Parse(path)
  {
    hide Parse, Components, Remaining, Indices, Decimal, FirstBad;
    if |path| < 2 || path[0] != 'm' {
      MeansBadStart(path);
      return Err(BadStart);
    }
    var start := 1;
    if start < |path| && path[start] == '/' {
      start := start + 1;
    }
    ghost var first := start;
    var current := [];
    var depth := 0;
    ghost var seen := [];
    NothingSeen(path, first);
    while start < |path|
      invariant first <= start && first == Start(path) && depth == |seen| && AllGood(seen) && current == Indices(seen)
      invariant GoodTo(path, first, start)
      invariant Components(path[first..]) == seen + Remaining(path, start)
      decreases |path| - start
    {
      var end := start;
      while end < |path| && path[end] != '/'
        invariant start <= end <= |path| && forall j :: start <= j < end ==> path[j] != '/'
      {
        end := end + 1;
      }
      var good, idx, position := ParseIndex(path, start, end);
      if !good {
        BadAt(path, first, start, position);
        return Err(NonNumeric(position));
      }
      if depth < HARDENED_LEVELS {
        idx := (idx + HARDENED) % WORD;
      }
      OneMoreSeen(path, first, start, end, seen, idx);
      current := current + [idx];
      depth := depth + 1;
      seen := seen + [path[start..end]];
      start := end + 1;
    }
    AllSeen(path, first, start, seen);
    return Ok(current);
  }

  lemma MeansBadStart(path: string)
    requires |path| < 2 || path[0] != 'm'
    ensures Parse(path) == Err(BadStart)
  {
  }

  lemma NothingSeen(path: string, first: nat)
    requires first <= |path|
    ensures Components(path[first..]) == [] + Remaining(path, first) && Indices([]) == []
  {
  }

  predicate GoodTo(path: string, first: nat, start: nat) {
    forall j :: first <= j < start && j < |path| ==> PathChar(path[j])
  }

  lemma IndexIs(c: string, depth: nat, idx: nat)
    requires AllDigits(c)
    requires idx == if depth < HARDENED_LEVELS then (Decimal(c) % WORD + HARDENED) % WORD else Decimal(c) % WORD
    ensures idx == Index(c, depth)
  {
    WrapHarden(Decimal(c), HARDENED);
  }

  lemma OneMoreSeen(path: string, first: nat, start: nat, end: nat, seen: seq<string>, idx: nat)
    requires first <= start < |path| && start <= end <= |path| && (end < |path| ==> path[end] == '/')
    requires (forall j :: start <= j < end ==> path[j] != '/') && AllDigits(path[start..end])
    requires GoodTo(path, first, start) && AllGood(seen)
    requires idx == if |seen| < HARDENED_LEVELS then (Decimal(path[start..end]) % WORD + HARDENED) % WORD
                    else Decimal(path[start..end]) % WORD
    requires Components(path[first..]) == seen + Remaining(path, start)
    ensures GoodTo(path, first, end + 1) && AllGood(seen + [path[start..end]])
    ensures Components(path[first..]) == seen + [path[start..end]] + Remaining(path, end + 1)
    ensures Indices(seen + [path[start..end]]) == Indices(seen) + [idx]
  {
    hide Components, Remaining, Indices, Decimal, AllDigits, GoodTo, Index, Slash;
    var c := path[start..end];
    NextComponent(path, start, end);
    MoreGood(path, first, start, end);
    IndicesNext(seen, c);
    IndexIs(c, |seen|, idx);
    assert seen + [c] + Remaining(path, end + 1) == seen + ([c] + Remaining(path, end + 1));
  }

  lemma AllSeen(path: string, first: nat, start: nat, seen: seq<string>)
    requires |path| >= 2 && path[0] == 'm' && first == Start(path) && start >= |path|
    requires GoodTo(path, first, start) && AllGood(seen)
    requires Components(path[first..]) == seen + Remaining(path, start)
    ensures Parse(path) == Ok(Indices(seen))
  {
    FirstBadNone(path, first);
    assert seen + [] == seen;
  }

  predicate AllGood(cs: seq<string>) { forall i :: 0 <= i < |cs| ==> AllDigits(cs[i]) }

  function Remaining(path: string, start: nat): seq<string> {
    if start >= |path| then [] else Components(path[start..])
  }

  lemma NextComponent(path: string, start: nat, end: nat)
    requires start < |path| && start <= end <= |path| && (end < |path| ==> path[end] == '/')
    requires forall j :: start <= j < end ==> path[j] != '/'
    ensures Remaining(path, start) == [path[start..end]] + Remaining(path, end + 1)
  {
    var s, e := path[start..], end - start;
    hide Components, Slash;
    SlashIs(s, 0, e);
    ComponentsFrom(s, e);
    CutAt(path, start, end);
    NoComponents();
  }

  lemma CutAt(path: string, start: nat, end: nat)
    requires start <= end <= |path|
    ensures path[start..][..end - start] == path[start..end]
    ensures end < |path| ==> path[start..][end - start + 1..] == path[end + 1..]
    ensures end + 1 == |path| ==> path[end + 1..] == ""
  {
  }

  lemma NoComponents()
    ensures Components("") == []
  {
  }

  lemma SlashIs(s: string, i: nat, end: nat)
    requires i <= end <= |s| && (forall j :: i <= j < end ==> s[j] != '/') && (end < |s| ==> s[end] == '/')
    ensures Slash(s, i) == end
  {
  }

  lemma IndicesNext(cs: seq<string>, c: string)
    requires AllGood(cs) && AllDigits(c)
    ensures AllGood(cs + [c]) && Indices(cs + [c]) == Indices(cs) + [Index(c, |cs|)]
  {
  }

  lemma BadAt(path: string, first: nat, start: nat, position: nat)
    requires first <= start <= position < |path| && !IsDigit(path[position]) && path[position] != '/'
    requires AllDigits(path[start..position]) && GoodTo(path, first, start)
    requires |path| >= 2 && path[0] == 'm' && first == Start(path)
    ensures Parse(path) == Err(NonNumeric(position))
  {
    forall j | first <= j < position ensures PathChar(path[j]) {
      if j >= start { assert path[start..position][j - start] == path[j]; }
    }
  }

  lemma MoreGood(path: string, first: nat, start: nat, end: nat)
    requires first <= start <= end <= |path| && AllDigits(path[start..end]) && (end < |path| ==> path[end] == '/')
    requires GoodTo(path, first, start)
    ensures GoodTo(path, first, end + 1)
  {
    forall j | first <= j < end + 1 && j < |path| ensures PathChar(path[j]) {
      if start <= j < end { assert path[start..end][j - start] == path[j]; }
    }
  }

  lemma FirstBadNone(path: string, first: nat)
    requires first <= |path| && forall j :: first <= j < |path| ==> PathChar(path[j])
    ensures FirstBad(path, first) == |path|
  {
  }

  // ---------------------------------------------------------------- the printers

  /** DerivationPathBTC and DerivationPathCustom. */
  function DerivationPathBtc(coin: nat, account: nat, change: nat, index: nat): string {
    "m/44/" + Digits(coin) + "/" + Digits(account) + "/" + Digits(change) + "/" + Digits(index)
  }

  /** DerivationPath: coin type 60 and change 0. */
  function DerivationPath(account: nat, index: nat): string {
    "m/44/60/" + Digits(account) + "/0/" + Digits(index)
  }

  function Joined(cs: seq<string>): string {
    if cs == [] then "" else if |cs| == 1 then cs[0] else cs[0] + "/" + Joined(cs[1..])
  }

  lemma ComponentsCons(c: string, rest: string, s: string)
    requires AllDigits(c) && s == c + "/" + rest
    ensures Components(s) == [c] + Components(rest)
  {
    assert forall j :: 0 <= j < |c| ==> s[j] == c[j];
    assert s[|c|] == '/';
    SlashIs(s, 0, |c|);
    assert s[..|c|] == c && s[|c| + 1..] == rest;
  }

  /** Joining non-empty strings of digits and taking the result apart gives the strings back. */
  lemma {:induction false} ComponentsOfJoined(cs: seq<string>)
    requires AllGood(cs) && forall i :: 0 <= i < |cs| ==> cs[i] != ""
    ensures Components(Joined(cs)) == cs
  {
    if |cs| == 1 {
      SlashIs(cs[0], 0, |cs[0]|);
      assert cs[0][..|cs[0]|] == cs[0] && cs == [cs[0]] + [];
    } else if |cs| > 1 {
      ComponentsOfJoined(cs[1..]);
      ComponentsCons(cs[0], Joined(cs[1..]), Joined(cs));
    }
  }

  predicate AllPathChars(s: string) { forall i :: 0 <= i < |s| ==> PathChar(s[i]) }

  lemma {:induction false} JoinedChars(cs: seq<string>)
    requires AllGood(cs)
    ensures AllPathChars(Joined(cs))
  {
    if |cs| <= 1 {
    } else {
      JoinedChars(cs[1..]);
    }
  }

  /** A path printed from components means their indices. */
  lemma ParseOfJoined(cs: seq<string>, path: string)
    requires AllGood(cs) && (forall i :: 0 <= i < |cs| ==> cs[i] != "") && path == "m/" + Joined(cs)
    ensures Parse(path) == Ok(Indices(cs))
  {
    JoinedChars(cs);
    ComponentsOfJoined(cs);
    hide Joined, Indices;
    assert path[2..] == Joined(cs);
    FirstBadNone(path, 2);
  }

  // ---------------------------------------------------------------- round trips

  lemma PathIsJoined(coin: nat, account: nat, change: nat, index: nat)
    ensures DerivationPathBtc(coin, account, change, index)
            == "m/" + Joined(["44", Digits(coin), Digits(account), Digits(change), Digits(index)])
  {
    var c, a, h, i := Digits(coin), Digits(account), Digits(change), Digits(index);
    hide Digits;
    JoinedTwo(h, i);
    JoinedMore(a, [h, i]);
    JoinedMore(c, [a, h, i]);
    JoinedMore("44", [c, a, h, i]);
    assert [a] + [h, i] == [a, h, i] && [c] + [a, h, i] == [c, a, h, i] && ["44"] + [c, a, h, i] == ["44", c, a, h, i];
    hide Joined;
    Nested(c, a, h, i);
  }

  lemma JoinedTwo(x: string, y: string)
    ensures Joined([x, y]) == x + "/" + y
  {
    assert [x, y][1..] == [y];
  }

  lemma JoinedMore(x: string, cs: seq<string>)
    requires cs != []
    ensures Joined([x] + cs) == x + "/" + Joined(cs)
  {
    assert ([x] + cs)[1..] == cs;
  }

  lemma Nested(c: string, a: string, h: string, i: string)
    ensures "m/44/" + c + "/" + a + "/" + h + "/" + i == "m/" + ("44" + "/" + (c + "/" + (a + "/" + (h + "/" + i))))
  {
  }

  lemma EvmPathIsBtcPath(account: nat, index: nat)
    ensures DerivationPath(account, index) == DerivationPathBtc(60, account, 0, index)
  {
    assert Digits(6) == "6";
    assert Digits(60) == "60" && Digits(0) == "0";
  }

  predicate IsWord(n: nat) { n < WORD }

  /** Parsing a printed path, for all 32-bit arguments: the three hardened levels are taken modulo 2^32. */
  lemma PathReadsBack(coin: nat, account: nat, change: nat, index: nat)
    requires IsWord(coin) && IsWord(account) && IsWord(change) && IsWord(index)
    ensures Parse(DerivationPathBtc(coin, account, change, index))
            == Ok([0x8000_0000 + 44, (0x8000_0000 + coin) % 0x1_0000_0000, (0x8000_0000 + account) % 0x1_0000_0000, change,
                   index])
  {
    hide Parse, Digits, Decimal, DerivationPathBtc;
    PathIsJoined(coin, account, change, index);
    var cs := ["44", Digits(coin), Digits(account), Digits(change), Digits(index)];
    ParseOfJoined(cs, DerivationPathBtc(coin, account, change, index));
    hide Joined;
    FortyFour();
    DigitsReadBack(coin);
    DigitsReadBack(account);
    DigitsReadBack(change);
    DigitsReadBack(index);
  }

  lemma FortyFour()
    ensures Digits(44) == "44" && Decimal("44") == 44
  {
    DigitsReadBack(44);
    assert Digits(4) == "4";
  }

  lemma WrapsIff(x: nat)
    requires IsWord(x)
    ensures (HARDENED + x) % WORD == HARDENED + x <==> x < HARDENED
  {
  }

  /** No index wraps, and all of the first three levels are hardened, exactly when coin type and account are below
      2^31; beyond that the parser silently derives an unhardened level. */
  lemma StandardPathIff(coin: nat, account: nat, change: nat, index: nat)
    requires IsWord(coin) && IsWord(account) && IsWord(change) && IsWord(index)
    ensures Parse(DerivationPathBtc(coin, account, change, index))
            == Ok([HARDENED + 44, HARDENED + coin, HARDENED + account, change, index])
            <==> coin < HARDENED && account < HARDENED
  {
    hide Parse, DerivationPathBtc;
    PathReadsBack(coin, account, change, index);
    WrapsIff(coin);
    WrapsIff(account);
  }

  /** The EVM path. */
  lemma EvmPathReadsBack(account: nat, index: nat)
    requires account < HARDENED && IsWord(index)
    ensures Parse(DerivationPath(account, index)) == Ok([0x8000_0000 + 44, 0x8000_0000 + 60, 0x8000_0000 + account, 0, index])
  {
    hide Parse, DerivationPathBtc, DerivationPath;
    EvmPathIsBtcPath(account, index);
    PathReadsBack(60, account, 0, index);
  }

  lemma WrapInjective(x: nat, y: nat)
    requires IsWord(x) && IsWord(y)
    ensures (HARDENED + x) % WORD == (HARDENED + y) % WORD <==> x == y
  {
  }

  /** Distinct arguments derive distinct index lists, wrapped or not, so also distinct paths. */
  lemma PathsAreDistinct(coin: nat, account: nat, change: nat, index: nat,
                         coin': nat, account': nat, change': nat, index': nat)
    requires IsWord(coin) && IsWord(account) && IsWord(change) && IsWord(index)
    requires IsWord(coin') && IsWord(account') && IsWord(change') && IsWord(index')
    ensures Parse(DerivationPathBtc(coin, account, change, index))
            == Parse(DerivationPathBtc(coin', account', change', index'))
            <==> coin == coin' && account == account' && change == change' && index == index'
  {
    hide Parse, DerivationPathBtc;
    PathReadsBack(coin, account, change, index);
    PathReadsBack(coin', account', change', index');
    WrapInjective(coin, coin');
    WrapInjective(account, account');
    var r := Parse(DerivationPathBtc(coin, account, change, index));
    var r' := Parse(DerivationPathBtc(coin', account', change', index'));
    assert r == r' ==> forall i :: 0 <= i < 5 ==> r.indices[i] == r'.indices[i];
  }
}
