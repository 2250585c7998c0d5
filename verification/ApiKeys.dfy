/** API keys (internal/apikeys/service.go): ValidateRequest as the three moments at which it touches shared state,
    with any number of calls, revocations and new keys in between. */
module ApiKeys {
  import opened Options

  type RowId = nat
  type CallId = nat

  const SKEW_MS := 300000

  /** `accepted` lists the nonces whose UPDATE hit the row, in commit order. */
  datatype Key = Key(keyId: string, user: nat, expiresAt: Option<int>, revoked: bool, lastNonce: int, accepted: seq<int>)

  /** A call in flight: it has read its row, or it has passed the checks and is about to UPDATE. */
  datatype Call = Looked(row: RowId, nonce: int, seenNonce: int, seenExpiry: Option<int>) | Checked(row: RowId, nonce: int)

  datatype Outcome = Accepted(row: RowId, nonce: int) | NotFound | Expired | ClockSkew | Replayed

  datatype State = State(keys: seq<Key>, calls: map<CallId, Call>, done: map<CallId, Outcome>)

  // ---------------------------------------------------------------- the key id inside a full key

  /** strings.SplitN(s, "_", n). */
  function SplitN(s: string, n: nat): (parts: seq<string>)
    requires n > 0
    ensures 1 <= |parts| <= n
    decreases n
  {
    if n == 1 then [s]
    else
      var i := Find(s);
      if i == |s| then [s] else [s[..i]] + SplitN(s[i + 1..], n - 1)
  }

  /** Where the first underscore is; the length when there is none. */
  function Find(s: string): (i: nat)
    ensures i <= |s| && (forall j :: 0 <= j < i ==> s[j] != '_') && (i < |s| ==> s[i] == '_')
  {
    if s == [] || s[0] == '_' then 0 else 1 + Find(s[1..])
  }

  /** The row to look a full key up by; None is the answer "not found" without a lookup. */
  function KeyIdOf(fullKey: string): Option<string> {
    if !("gk_" <= fullKey) then None
    else
      var parts := SplitN(fullKey, 4);
      if |parts| < 3 then None else Some(parts[0] + "_" + parts[1] + "_" + parts[2])
  }

  function PublicId(secret: string): string
    requires |secret| >= 8
  {
    "gk_live_" + secret[..8]
  }

  /** What Generate hands out for a secret. */
  function FullKey(secret: string): string
    requires |secret| >= 8
  {
    PublicId(secret) + "_" + secret[8..]
  }

  predicate NoUnderscore(s: string) { forall i :: 0 <= i < |s| ==> s[i] != '_' }

  lemma FindAt(s: string, head: string, tail: string)
    requires s == head + tail && NoUnderscore(head) && (tail == [] || tail[0] == '_')
    ensures Find(s) == |head|
  {
    assert forall j :: 0 <= j < |head| ==> s[j] == head[j];
    assert tail != [] ==> s[|head|] == tail[0];
  }

  lemma SplitAt(s: string, head: string, rest: string, n: nat)
    requires s == head + "_" + rest && NoUnderscore(head) && n > 1
    ensures SplitN(s, n) == [head] + SplitN(rest, n - 1)
  {
    assert s == head + ("_" + rest);
    FindAt(s, head, "_" + rest);
    assert s[..|head|] == head && s[|head| + 1..] == rest;
  }

  /** One part and then nothing or an underscore and anything. */
  lemma SplitFirst(s: string, head: string, rest: string, n: nat)
    requires s == head + rest && NoUnderscore(head) && (rest == "" || rest[0] == '_') && n > 0
    ensures n > 1 || rest == "" ==> SplitN(s, n)[0] == head
  {
    FindAt(s, head, rest);
    assert s[..|head|] == head;
  }

  /** The string is three parts without underscores, the first of them "gk", and then nothing or an underscore and
      anything. */
  predicate Layout(s: string, b: string, c: string, rest: string) {
    && s == "gk_" + (b + "_" + (c + rest))
    && NoUnderscore(b) && NoUnderscore(c) && (rest == "" || rest[0] == '_')
  }

  lemma IdReadsBack(s: string, b: string, c: string, rest: string)
    requires Layout(s, b, c, rest)
    ensures KeyIdOf(s) == Some("gk" + "_" + b + "_" + c)
  {
    hide SplitN;
    var u := c + rest;
    var t := b + "_" + u;
    assert s == "gk" + "_" + t;
    SplitAt(s, "gk", t, 4);
    SplitAt(t, b, u, 3);
    SplitFirst(u, c, rest, 2);
    assert "gk_" <= s;
  }

  lemma GeneratedLayout(secret: string)
    requires |secret| >= 8
    ensures FullKey(secret) == "gk_" + ("live" + "_" + (secret[..8] + ("_" + secret[8..])))
    ensures PublicId(secret) == "gk" + "_" + "live" + "_" + secret[..8]
  {
    assert "gk_live_" == "gk_" + "live" + "_" == "gk" + "_" + "live" + "_";
  }

  /** Every key Generate hands out is looked up under the id it was stored with. */
  lemma GeneratedKeyIsFound(secret: string)
    requires |secret| >= 8 && NoUnderscore(secret)
    ensures KeyIdOf(FullKey(secret)) == Some(PublicId(secret))
  {
    GeneratedLayout(secret);
    IdReadsBack(FullKey(secret), "live", secret[..8], "_" + secret[8..]);
  }

  lemma LayoutOf(s: string, t: string, u: string, i: nat, j: nat)
    requires s == "gk_" + t && i < |t| && i == Find(t) && u == t[i + 1..] && j == Find(u)
    ensures Layout(s, t[..i], u[..j], u[j..])
  {
    Rejoin(t, i);
    CutIn(u, j);
    Cuts(t, i, u, j);
    hide NoUnderscore;
  }

  lemma Cuts(t: string, i: nat, u: string, j: nat)
    requires i < |t| && i == Find(t) && u == t[i + 1..] && j == Find(u)
    ensures NoUnderscore(t[..i]) && NoUnderscore(u[..j]) && (u[j..] == "" || u[j..][0] == '_')
  {
  }

  lemma CutIn(u: string, j: nat)
    requires j <= |u|
    ensures u[..j] + u[j..] == u
  {
  }

  lemma Rejoin(t: string, i: nat)
    requires i < |t| && t[i] == '_'
    ensures t == t[..i] + "_" + t[i + 1..]
  {
    assert t == t[..i] + [t[i]] + t[i + 1..];
  }

  lemma TwoMoreParts(t: string)
    requires |SplitN(t, 3)| >= 2
    ensures Find(t) < |t|
  {
  }

  lemma AfterPrefix(s: string) returns (t: string)
    requires KeyIdOf(s).Some?
    ensures s == "gk_" + t && Find(t) < |t|
  {
    t := s[3..];
    assert s == "gk_" + t;
    assert s == "gk" + "_" + t by { assert "gk_" == "gk" + "_"; }
    SplitAt(s, "gk", t, 4);
    hide NoUnderscore, Find;
    TwoMoreParts(t);
  }

  lemma LookedUpHasLayout(s: string) returns (b: string, c: string, rest: string)
    requires KeyIdOf(s).Some?
    ensures Layout(s, b, c, rest)
  {
    var t := AfterPrefix(s);
    hide SplitN, KeyIdOf, Layout, NoUnderscore;
    var i := Find(t);
    var u := t[i + 1..];
    var j := Find(u);
    LayoutOf(s, t, u, i, j);
    b, c, rest := t[..i], u[..j], u[j..];
  }

  /** A string is looked up at all exactly when it has that layout, whatever follows the third part. */
  lemma LookedUpIff(s: string)
    ensures KeyIdOf(s).Some? <==> exists b, c, rest :: Layout(s, b, c, rest)
  {
    hide Layout, KeyIdOf;
    if b, c, rest :| Layout(s, b, c, rest) {
      IdReadsBack(s, b, c, rest);
    }
    if KeyIdOf(s).Some? {
      var b, c, rest := LookedUpHasLayout(s);
    }
  }

  // ---------------------------------------------------------------- steps

  datatype Action =
    | Generate(keyId: string, user: nat, expiresAt: Option<int>)
    | Revoke(row: RowId, user: nat)
    | Lookup(call: CallId, keyId: string, nonce: int)
    | Check(call: CallId, now: int, nowMs: int, credential: bool)
    | Commit(call: CallId)
    | Abandon(call: CallId)

  predicate Found(keys: seq<Key>, keyId: string, row: RowId) {
    row < |keys| && keys[row].keyId == keyId && !keys[row].revoked
  }

  /** The row a lookup finds from row `i` on; the number of rows when there is none. */
  function FindKey(keys: seq<Key>, keyId: string, i: nat): (row: RowId)
    requires i <= |keys|
    ensures i <= row <= |keys| && (row < |keys| ==> Found(keys, keyId, row))
    ensures forall r :: i <= r < row ==> !Found(keys, keyId, r)
    decreases |keys| - i
  {
    if i == |keys| || Found(keys, keyId, i) then i else FindKey(keys, keyId, i + 1)
  }

  predicate KnownId(keys: seq<Key>, keyId: string) {
    exists r :: 0 <= r < |keys| && keys[r].keyId == keyId
  }

  /** key_id is UNIQUE, so a second key with the same id is refused. */
  function GenerateStep(s: State, keyId: string, user: nat, expiresAt: Option<int>): State {
    if KnownId(s.keys, keyId) then s else s.(keys := s.keys + [Key(keyId, user, expiresAt, false, 0, [])])
  }

  function RevokeStep(s: State, row: RowId, user: nat): State {
    if row < |s.keys| && s.keys[row].user == user then s.(keys := s.keys[row := s.keys[row].(revoked := true)]) else s
  }

  /** Step 1. A call is made once: its number is not used again. */
  function LookupStep(s: State, call: CallId, keyId: string, nonce: int): State {
    if call in s.calls || call in s.done then s
    else
      var row := FindKey(s.keys, keyId, 0);
      if row == |s.keys| then s.(done := s.done[call := NotFound])
      else s.(calls := s.calls[call := Looked(row, nonce, s.keys[row].lastNonce, s.keys[row].expiresAt)])
  }

  predicate InWindow(nonce: int, nowMs: int) {
    nowMs - SKEW_MS <= nonce <= nowMs + SKEW_MS
  }

  /** Steps 1b to 4, on what the lookup saw; None means that all checks pass. `credential` is bcrypt's answer. */
  function Verdict(c: Call, now: int, nowMs: int, credential: bool): Option<Outcome>
    requires c.Looked?
  {
    if c.seenExpiry.Some? && c.seenExpiry.value < now then Some(Expired)
    else if !InWindow(c.nonce, nowMs) then Some(ClockSkew)
    else if c.nonce <= c.seenNonce then Some(Replayed)
    else if !credential then Some(NotFound)
    else None
  }

  function CheckStep(s: State, call: CallId, now: int, nowMs: int, credential: bool): State {
    if call !in s.calls || !s.calls[call].Looked? then s
    else
      var v := Verdict(s.calls[call], now, nowMs, credential);
      if v.Some? then s.(calls := s.calls - {call}, done := s.done[call := v.value])
      else s.(calls := s.calls[call := Checked(s.calls[call].row, s.calls[call].nonce)])
  }

  /** Step 5: UPDATE ... WHERE last_nonce < nonce. */
  predicate UpdateHits(keys: seq<Key>, row: RowId, nonce: int) {
    row < |keys| && keys[row].lastNonce < nonce
  }

  function CommitStep(s: State, call: CallId): State {
    if call !in s.calls || !s.calls[call].Checked? then s
    else
      var row, nonce := s.calls[call].row, s.calls[call].nonce;
      if UpdateHits(s.keys, row, nonce) then
        State(s.keys[row := s.keys[row].(lastNonce := nonce, accepted := s.keys[row].accepted + [nonce])],
              s.calls - {call}, s.done[call := Accepted(row, nonce)])
      else s.(calls := s.calls - {call}, done := s.done[call := Replayed])
  }

  function Step(s: State, a: Action): State {
    match a
    case Generate(keyId, user, expiresAt) => GenerateStep(s, keyId, user, expiresAt)
    case Revoke(row, user) => RevokeStep(s, row, user)
    case Lookup(call, keyId, nonce) => LookupStep(s, call, keyId, nonce)
    case Check(call, now, nowMs, credential) => CheckStep(s, call, now, nowMs, credential)
    case Commit(call) => CommitStep(s, call)
    case Abandon(call) => s.(calls := s.calls - {call})
  }

  function Run(s: State, actions: seq<Action>): State
    decreases |actions|
  {
    if actions == [] then s else Run(Step(s, actions[0]), actions[1..])
  }

  // ---------------------------------------------------------------- the invariant

  /** Accepted nonces strictly increase in commit order, and last_nonce is the last and largest of them. */
  predicate KeyOk(k: Key) {
    && (forall i, j :: 0 <= i < j < |k.accepted| ==> k.accepted[i] < k.accepted[j])
    && (forall i :: 0 <= i < |k.accepted| ==> 0 < k.accepted[i] <= k.lastNonce)
    && k.lastNonce == if k.accepted == [] then 0 else k.accepted[|k.accepted| - 1]
  }

  /** What a call has seen of its row is never ahead of the row. */
  predicate CallOk(keys: seq<Key>, c: Call) {
    c.row < |keys| && (c.Looked? ==> c.seenNonce <= keys[c.row].lastNonce)
  }

  predicate OutcomeOk(keys: seq<Key>, o: Outcome) {
    o.Accepted? ==> o.row < |keys| && o.nonce in keys[o.row].accepted
  }

  predicate SameNonce(o: Outcome, p: Outcome) {
    o.Accepted? && p.Accepted? && o.row == p.row && o.nonce == p.nonce
  }

  ghost predicate Inv(s: State) {
    && (forall r :: 0 <= r < |s.keys| ==> KeyOk(s.keys[r]))
    && (forall c <- s.calls :: c !in s.done && CallOk(s.keys, s.calls[c]))
    && (forall c <- s.done :: OutcomeOk(s.keys, s.done[c]))
    && (forall c, d :: c in s.done && d in s.done && c != d ==> !SameNonce(s.done[c], s.done[d]))
  }

  const START := State([], map[], map[])

  lemma StartInv()
    ensures Inv(START)
  {
  }

  /** Rows are only added, and a row's last_nonce and accepted list only grow. */
  predicate KeysGrow(keys: seq<Key>, keys': seq<Key>) {
    && |keys| <= |keys'|
    && forall r :: 0 <= r < |keys| ==>
         keys[r].lastNonce <= keys'[r].lastNonce && keys[r].accepted <= keys'[r].accepted
         && (keys[r].revoked ==> keys'[r].revoked)
  }

  lemma RevokedOk(k: Key)
    requires KeyOk(k)
    ensures KeyOk(k.(revoked := true))
  {
  }

  lemma CommittedOk(k: Key, nonce: int)
    requires KeyOk(k) && k.lastNonce < nonce
    ensures KeyOk(k.(lastNonce := nonce, accepted := k.accepted + [nonce])) && nonce !in k.accepted
  {
  }

  lemma CommitKeeps(s: State, call: CallId)
    requires Inv(s)
    ensures Inv(CommitStep(s, call)) && KeysGrow(s.keys, CommitStep(s, call).keys)
  {
    hide KeyOk;
    if call in s.calls && s.calls[call].Checked? {
      var row, nonce := s.calls[call].row, s.calls[call].nonce;
      if UpdateHits(s.keys, row, nonce) {
        var s' := CommitStep(s, call);
        CommittedOk(s.keys[row], nonce);
        assert s'.keys[row].accepted[|s.keys[row].accepted|] == nonce;
        forall c | c in s.done ensures OutcomeOk(s'.keys, s.done[c]) && !SameNonce(s.done[c], s'.done[call]) {
          assert OutcomeOk(s.keys, s.done[c]);
        }
      }
    }
  }

  lemma GenerateKeeps(s: State, keyId: string, user: nat, expiresAt: Option<int>)
    requires Inv(s)
    ensures Inv(GenerateStep(s, keyId, user, expiresAt)) && KeysGrow(s.keys, GenerateStep(s, keyId, user, expiresAt).keys)
  {
  }

  lemma RevokeKeeps(s: State, row: RowId, user: nat)
    requires Inv(s)
    ensures Inv(RevokeStep(s, row, user)) && KeysGrow(s.keys, RevokeStep(s, row, user).keys)
  {
    hide KeyOk;
    if row < |s.keys| { RevokedOk(s.keys[row]); }
  }

  lemma LookupKeeps(s: State, call: CallId, keyId: string, nonce: int)
    requires Inv(s)
    ensures Inv(LookupStep(s, call, keyId, nonce)) && KeysGrow(s.keys, LookupStep(s, call, keyId, nonce).keys)
  {
    hide KeyOk;
  }

  lemma CheckKeeps(s: State, call: CallId, now: int, nowMs: int, credential: bool)
    requires Inv(s)
    ensures Inv(CheckStep(s, call, now, nowMs, credential))
    ensures KeysGrow(s.keys, CheckStep(s, call, now, nowMs, credential).keys)
  {
    hide KeyOk;
    if call in s.calls { assert CallOk(s.keys, s.calls[call]); }
  }

  lemma StepKeepsInv(s: State, a: Action)
    requires Inv(s)
    ensures Inv(Step(s, a)) && KeysGrow(s.keys, Step(s, a).keys)
  {
    match a
    case Generate(keyId, user, expiresAt) => GenerateKeeps(s, keyId, user, expiresAt);
    case Revoke(row, user) => RevokeKeeps(s, row, user);
    case Lookup(call, keyId, nonce) => LookupKeeps(s, call, keyId, nonce);
    case Check(call, now, nowMs, credential) => CheckKeeps(s, call, now, nowMs, credential);
    case Commit(call) => CommitKeeps(s, call);
    case Abandon(call) =>
  }

  lemma {:induction false} RunKeepsInv(s: State, actions: seq<Action>)
    requires Inv(s)
    ensures Inv(Run(s, actions)) && KeysGrow(s.keys, Run(s, actions).keys)
    decreases |actions|
  {
    if actions == [] {
    } else {
      var a := actions[0];
      StepKeepsInv(s, a);
      RunKeepsInv(Step(s, a), actions[1..]);
    }
  }

  // ---------------------------------------------------------------- theorems

  /** Whatever calls, revocations and crashes interleave: the accepted nonces of a key strictly increase in commit
      order, last_nonce is their maximum, and no two calls are accepted with the same nonce. */
  lemma NoNonceTwice(actions: seq<Action>, r: RowId, c: CallId, d: CallId)
    requires r < |Run(START, actions).keys|
    ensures KeyOk(Run(START, actions).keys[r])
    ensures var done := Run(START, actions).done;
            c in done && d in done && c != d ==> !SameNonce(done[c], done[d])
  {
    StartInv();
    RunKeepsInv(START, actions);
  }

  /** The early check on the stale read costs nobody anything: a nonce it rejects is one the guarded UPDATE would
      reject too, now and after anything else that may happen. */
  lemma StaleCheckIsHarmless(s: State, call: CallId, later: seq<Action>)
    requires Inv(s) && call in s.calls && s.calls[call].Looked?
    requires s.calls[call].nonce <= s.calls[call].seenNonce
    ensures !UpdateHits(Run(s, later).keys, s.calls[call].row, s.calls[call].nonce)
  {
    RunKeepsInv(s, later);
    assert CallOk(s.keys, s.calls[call]);
  }

  /** A captured request is worthless: once its nonce is accepted, no call with that nonce or an older one ever is. */
  lemma ReplayNeverHits(s: State, row: RowId, nonce: int, later: seq<Action>)
    requires Inv(s) && row < |s.keys| && nonce in s.keys[row].accepted
    ensures forall n: int :: n <= nonce ==> !UpdateHits(Run(s, later).keys, row, n)
  {
    RunKeepsInv(s, later);
    assert KeyOk(s.keys[row]);
  }

  /** Of the calls that end accepted on a row, those not already done in `s`. */
  predicate NewlyAccepted(s: State, s': State, row: RowId, c: CallId) {
    c in s'.done && s'.done[c].Accepted? && s'.done[c].row == row && c !in s.done
  }

  /** The call has read the row, and its nonce is one the guarded UPDATE would still take. */
  predicate InFlight(s: State, row: RowId, c: CallId)
    requires row < |s.keys|
  {
    c in s.calls && s.calls[c].row == row && s.calls[c].nonce > s.keys[row].lastNonce
  }

  /** Every call on a revoked row had read the row before, with the nonce it has now. */
  ghost predicate OnlyOld(s: State, t: State, row: RowId) {
    && row < |s.keys| <= |t.keys| && t.keys[row].revoked && s.keys[row].lastNonce <= t.keys[row].lastNonce
    && s.done.Keys <= t.done.Keys
    && (forall c <- t.calls :: t.calls[c].row == row ==> Inherited(s, t, c))
    && (forall c :: NewlyAccepted(s, t, row, c) ==> InFlight(s, row, c))
  }

  predicate Inherited(s: State, t: State, c: CallId)
    requires c in t.calls
  {
    c in s.calls && s.calls[c].row == t.calls[c].row && s.calls[c].nonce == t.calls[c].nonce
  }

  lemma RevokedStep(s: State, t: State, row: RowId, a: Action)
    requires Inv(t) && OnlyOld(s, t, row)
    ensures OnlyOld(s, Step(t, a), row)
  {
    hide KeyOk, OutcomeOk, SameNonce;
    var t' := Step(t, a);
    assert forall c <- t.calls :: CallOk(t.keys, t.calls[c]);
    forall c | NewlyAccepted(s, t', row, c) ensures InFlight(s, row, c) {
      if !NewlyAccepted(s, t, row, c) {
        assert a == Commit(c) && Inherited(s, t, c);
      }
    }
  }

  lemma {:induction false} RevokedRun(s: State, t: State, row: RowId, actions: seq<Action>)
    requires Inv(t) && OnlyOld(s, t, row)
    ensures OnlyOld(s, Run(t, actions), row)
    decreases |actions|
  {
    if actions == [] {
    } else {
      RevokedStep(s, t, row, actions[0]);
      StepKeepsInv(t, actions[0]);
      RevokedRun(s, Step(t, actions[0]), row, actions[1..]);
    }
  }

  /** After a revocation only calls that had already read the row can still be accepted on it. */
  lemma RevocationHoldsForNewCalls(s: State, row: RowId, actions: seq<Action>, c: CallId)
    requires Inv(s) && row < |s.keys| && s.keys[row].revoked
    ensures NewlyAccepted(s, Run(s, actions), row, c) ==> InFlight(s, row, c)
  {
    RevokedRun(s, s, row, actions);
  }

  /** The two moments a call in flight still has before it, undisturbed. */
  lemma InFlightPasses(s: State, row: RowId, c: CallId) returns (actions: seq<Action>)
    requires Inv(s) && row < |s.keys| && InFlight(s, row, c)
    ensures NewlyAccepted(s, Run(s, actions), row, c)
  {
    var call := s.calls[c];
    assert CallOk(s.keys, call) && c !in s.done;
    var t := s;
    actions := [];
    if call.Looked? {
      var a := Check(c, if call.seenExpiry.Some? then call.seenExpiry.value else 0, call.nonce, true);
      t := Step(s, a);
      actions := [a];
      assert t.keys == s.keys && t.calls[c] == Checked(row, call.nonce);
      Advance(s, a, [Commit(c)]);
    }
    Advance(t, Commit(c), []);
    actions := actions + [Commit(c)];
  }

  /** Which calls a revocation comes too late for: exactly those in flight on the row with a nonce above the last one
      accepted. The guarded UPDATE does not look at `revoked`. */
  lemma AcceptedAfterRevocationIff(s: State, row: RowId, c: CallId)
    requires Inv(s) && row < |s.keys| && s.keys[row].revoked
    ensures (exists actions: seq<Action> :: NewlyAccepted(s, Run(s, actions), row, c)) <==> InFlight(s, row, c)
  {
    hide Inv, NewlyAccepted;
    if actions: seq<Action> :| NewlyAccepted(s, Run(s, actions), row, c) {
      RevocationHoldsForNewCalls(s, row, actions, c);
    }
    if InFlight(s, row, c) {
      var actions := InFlightPasses(s, row, c);
      assert NewlyAccepted(s, Run(s, actions), row, c);
    }
  }

  /** Such calls occur: five steps from the start, one is accepted on a key already revoked. */
  lemma RevokedYetAccepted()
    ensures exists actions: seq<Action>, c: CallId :: AcceptedOnRevoked(Run(START, actions), c)
  {
    var k, n := "gk_live_00000000", 1735689600123;
    var s1 := Step(START, Generate(k, 7, None));
    assert s1.keys == [Key(k, 7, None, false, 0, [])];
    assert Found(s1.keys, k, 0);
    var s2 := Step(s1, Lookup(1, k, n));
    assert FindKey(s1.keys, k, 0) == 0;
    assert s2.calls[1] == Looked(0, n, 0, None);
    var s3 := Step(s2, Check(1, n, n, true));
    var s4 := Step(s3, Revoke(0, 7));
    var s5 := Step(s4, Commit(1));
    assert AcceptedOnRevoked(s5, 1);
    FiveSteps(START, Generate(k, 7, None), Lookup(1, k, n), Check(1, n, n, true), Revoke(0, 7), Commit(1));
  }

  predicate AcceptedOnRevoked(s: State, c: CallId) {
    c in s.done && s.done[c].Accepted? && s.done[c].row < |s.keys| && s.keys[s.done[c].row].revoked
  }

  lemma Advance(s: State, a: Action, rest: seq<Action>)
    ensures Run(s, [a] + rest) == Run(Step(s, a), rest)
  {
    assert ([a] + rest)[1..] == rest;
  }

  lemma FiveSteps(s: State, a: Action, b: Action, c: Action, d: Action, e: Action)
    ensures Run(s, [a, b, c, d, e]) == Step(Step(Step(Step(Step(s, a), b), c), d), e)
  {
    hide Step;
    var s1 := Step(s, a);
    var s2 := Step(s1, b);
    var s3 := Step(s2, c);
    var s4 := Step(s3, d);
    Advance(s, a, [b, c, d, e]);
    Advance(s1, b, [c, d, e]);
    Advance(s2, c, [d, e]);
    Advance(s3, d, [e]);
    Advance(s4, e, []);
    assert [a] + [b, c, d, e] == [a, b, c, d, e];
    assert [b] + [c, d, e] == [b, c, d, e];
    assert [c] + [d, e] == [c, d, e];
    assert [d] + [e] == [d, e];
    assert [e] + [] == [e];
  }
}
