/** What an undisturbed request is answered and does, said on the fields of the key rows alone. */
module ApiKeyFigures {
  import opened Options
  import opened ApiKeys
  import opened ApiKeyService

  /** No two rows have the same public id, as the UNIQUE constraint of the table demands. */
  predicate UniqueIds(keys: seq<Key>) {
    forall i, j :: 0 <= i < j < |keys| ==> keys[i].keyId != keys[j].keyId
  }

  /** Rows keep their place, id, owner and expiry, and none comes back from a revocation. */
  predicate Kept(keys: seq<Key>, keys': seq<Key>) {
    && |keys| <= |keys'|
    && forall i :: 0 <= i < |keys| ==>
         && keys'[i].keyId == keys[i].keyId && keys'[i].user == keys[i].user && keys'[i].expiresAt == keys[i].expiresAt
         && (keys[i].revoked ==> keys'[i].revoked)
  }

  lemma StepKeepsIds(s: State, a: Action)
    requires UniqueIds(s.keys)
    ensures UniqueIds(Step(s, a).keys) && Kept(s.keys, Step(s, a).keys)
  {
    match a
    case Generate(keyId, _, _) =>
      if !KnownId(s.keys, keyId) { assert forall i :: 0 <= i < |s.keys| ==> s.keys[i].keyId != keyId; }
    case Revoke(_, _) =>
    case Lookup(_, _, _) =>
    case Check(_, _, _, _) =>
    case Commit(_) =>
    case Abandon(_) =>
  }

  lemma {:induction false} RunKeepsIds(s: State, actions: seq<Action>)
    requires UniqueIds(s.keys)
    ensures UniqueIds(Run(s, actions).keys) && Kept(s.keys, Run(s, actions).keys)
    decreases |actions|
  {
    if actions == [] {
    } else {
      hide Step;
      StepKeepsIds(s, actions[0]);
      RunKeepsIds(Step(s, actions[0]), actions[1..]);
    }
  }

  /** Revoking marks the row of its owner and no other, and nobody else can. */
  lemma RevokeInFigures(s: State, row: RowId, user: nat)
    ensures Step(s, Revoke(row, user)) ==
              if row < |s.keys| && s.keys[row].user == user then
                var k := s.keys[row];
                s.(keys := s.keys[row := Key(k.keyId, k.user, k.expiresAt, true, k.lastNonce, k.accepted)])
              else s
  {
  }

  /** A request with an id that no unrevoked row has is not found, and no row changes. */
  lemma UnknownIsNotFound(s: State, call: CallId, keyId: string, nonce: int, now: int, nowMs: int, credential: bool)
    requires call !in s.calls && call !in s.done
    requires forall r :: 0 <= r < |s.keys| ==> s.keys[r].keyId != keyId || s.keys[r].revoked
    ensures Validated(s, call, keyId, nonce, now, nowMs, credential) == s.(done := s.done[call := NotFound])
  {
    var row := FindKey(s.keys, keyId, 0);
    assert row == |s.keys|;
  }

  /** A request with the id of an unrevoked row is decided on that row: expired, outside five minutes of the clock, not
      above the row's last nonce, or with the wrong credential it is refused and no row changes; otherwise it is accepted
      and that row alone gets its nonce. */
  lemma DecidedOnItsRow(s: State, call: CallId, r: RowId, nonce: int, now: int, nowMs: int, credential: bool)
    requires UniqueIds(s.keys) && r < |s.keys| && !s.keys[r].revoked && call !in s.calls && call !in s.done
    ensures var k := s.keys[r];
            var o := if k.expiresAt.Some? && k.expiresAt.value < now then Expired
                     else if nonce < nowMs - 300000 || nonce > nowMs + 300000 then ClockSkew
                     else if nonce <= k.lastNonce then Replayed
                     else if !credential then NotFound
                     else Accepted(r, nonce);
            Validated(s, call, k.keyId, nonce, now, nowMs, credential)
              == State(if o.Accepted? then
                         s.keys[r := Key(k.keyId, k.user, k.expiresAt, false, nonce, k.accepted + [nonce])]
                       else s.keys,
                       s.calls, s.done[call := o])
  {
    var k := s.keys[r];
    OnlyRow(s.keys, r);
    var looked := Looked(r, nonce, k.lastNonce, k.expiresAt);
    var s1 := LookupStep(s, call, k.keyId, nonce);
    assert s1 == s.(calls := s.calls[call := looked]) && s1.calls - {call} == s.calls;
    var v := Verdict(looked, now, nowMs, credential);
    var s2 := CheckStep(s1, call, now, nowMs, credential);
    if v.Some? {
      assert s2 == State(s.keys, s.calls, s.done[call := v.value]);
    } else {
      assert s2.calls == s.calls[call := Checked(r, nonce)] && s2.calls - {call} == s.calls;
    }
  }

  lemma OnlyRow(keys: seq<Key>, r: RowId)
    requires UniqueIds(keys) && r < |keys| && !keys[r].revoked
    ensures FindKey(keys, keys[r].keyId, 0) == r
  {
    var row := FindKey(keys, keys[r].keyId, 0);
    assert Found(keys, keys[r].keyId, r);
  }

  /** End to end: a key just generated, and then anything at all. Until the key is revoked, a request with the full key
      that was handed out is decided on the row that was stored, and afterwards it is not found. */
  lemma GeneratedKeyIsItsRow(s: State, secret: string, user: nat, expiresAt: Option<int>, actions: seq<Action>)
    requires UniqueIds(s.keys) && |secret| == 32 && NoUnderscore(secret)
    requires forall r :: 0 <= r < |s.keys| ==> s.keys[r].keyId != "gk_live_" + secret[..8]
    ensures var row, s' := |s.keys|, Run(GenerateStep(s, PublicId(secret), user, expiresAt), actions);
            && UniqueIds(s'.keys) && row < |s'.keys|
            && KeyIdOf(FullKey(secret)) == Some(s'.keys[row].keyId)
            && s'.keys[row].user == user && s'.keys[row].expiresAt == expiresAt
            && (s'.keys[row].revoked ==>
                  forall r :: 0 <= r < |s'.keys| ==> s'.keys[r].keyId != s'.keys[row].keyId || s'.keys[r].revoked)
  {
    hide *;
    GeneratedKeyIsFound(secret);
    GeneratedRow(s, secret, user, expiresAt);
    RunKeepsIds(GenerateStep(s, PublicId(secret), user, expiresAt), actions);
    var keys := Run(GenerateStep(s, PublicId(secret), user, expiresAt), actions).keys;
    KeptRow(GenerateStep(s, PublicId(secret), user, expiresAt).keys, keys, |s.keys|);
    if keys[|s.keys|].revoked { LostIsLost(keys, |s.keys|); }
  }

  lemma GeneratedRow(s: State, secret: string, user: nat, expiresAt: Option<int>)
    requires UniqueIds(s.keys) && |secret| >= 8
    requires forall r :: 0 <= r < |s.keys| ==> s.keys[r].keyId != "gk_live_" + secret[..8]
    ensures var keys := GenerateStep(s, PublicId(secret), user, expiresAt).keys;
            && UniqueIds(keys) && |keys| == |s.keys| + 1
            && keys[|s.keys|] == Key(PublicId(secret), user, expiresAt, false, 0, [])
  {
  }

  lemma LostIsLost(keys: seq<Key>, row: RowId)
    requires UniqueIds(keys) && row < |keys| && keys[row].revoked
    ensures forall r :: 0 <= r < |keys| ==> keys[r].keyId != keys[row].keyId || keys[r].revoked
  {
  }

  lemma KeptRow(keys: seq<Key>, keys': seq<Key>, row: RowId)
    requires Kept(keys, keys') && row < |keys|
    ensures row < |keys'| && keys'[row].keyId == keys[row].keyId
    ensures keys'[row].user == keys[row].user && keys'[row].expiresAt == keys[row].expiresAt
  {
  }
}
