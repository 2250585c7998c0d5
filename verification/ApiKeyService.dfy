/** The key service as it runs. One undisturbed ValidateRequest is the three steps of ApiKeys in a row, so what
    ApiKeys proves of every interleaving of those steps holds of it. */
module ApiKeyService {
  import opened ApiKeys
  import opened Options

  /** An undisturbed request: lookup, checks, guarded UPDATE. */
  function Validated(s: ApiKeys.State, call: CallId, keyId: string, nonce: int, now: int, nowMs: int, credential: bool):
    ApiKeys.State
  {
    CommitStep(CheckStep(LookupStep(s, call, keyId, nonce), call, now, nowMs, credential), call)
  }

  lemma ValidatedIsRun(s: ApiKeys.State, call: CallId, keyId: string, nonce: int, now: int, nowMs: int, credential: bool)
    ensures Validated(s, call, keyId, nonce, now, nowMs, credential)
            == Run(s, [Lookup(call, keyId, nonce), Check(call, now, nowMs, credential), Commit(call)])
  {
    var s1 := LookupStep(s, call, keyId, nonce);
    var s2 := CheckStep(s1, call, now, nowMs, credential);
    Advance(s, Lookup(call, keyId, nonce), [Check(call, now, nowMs, credential), Commit(call)]);
    Advance(s1, Check(call, now, nowMs, credential), [Commit(call)]);
    Advance(s2, Commit(call), []);
    assert [Lookup(call, keyId, nonce)] + [Check(call, now, nowMs, credential), Commit(call)]
        == [Lookup(call, keyId, nonce), Check(call, now, nowMs, credential), Commit(call)];
    assert [Check(call, now, nowMs, credential)] + [Commit(call)] == [Check(call, now, nowMs, credential), Commit(call)];
    assert [Commit(call)] + [] == [Commit(call)];
  }

  predicate Acceptable(k: Key, nonce: int, now: int, nowMs: int, credential: bool) {
    && (k.expiresAt.None? || k.expiresAt.value >= now)
    && InWindow(nonce, nowMs) && nonce > k.lastNonce && credential
  }

  class Service {
    var keys: seq<Key>
    ghost var calls: map<CallId, Call>
    ghost var done: map<CallId, Outcome>

    ghost function State(): ApiKeys.State
      reads this
    {
      ApiKeys.State(keys, calls, done)
    }

    constructor ()
      ensures State() == START
    {
      keys, calls, done := [], map[], map[];
    }

    /** `secret` is the hex of 16 random bytes. None is an error: no name, or the UNIQUE id is taken. */
    method Generate(name: string, secret: string, user: nat, expiresAt: Option<int>) returns (fullKey: Option<string>)
      requires |secret| == 32
      modifies this`keys
      ensures State() == if name == "" then old(State()) else GenerateStep(old(State()), PublicId(secret), user, expiresAt)
      ensures fullKey == if name == "" || KnownId(old(keys), PublicId(secret)) then None else Some(FullKey(secret))
      ensures fullKey.Some? ==> fullKey.value == "gk_live_" + secret[..8] + "_" + secret[8..]
      ensures fullKey.Some? ==> keys == old(keys) + [Key("gk_live_" + secret[..8], user, expiresAt, false, 0, [])]
    {
      if name == "" { return None; }
      var keyId := "gk_live_" + secret[..8];
      var full := keyId + "_" + secret[8..];
      if KnownId(keys, keyId) { return None; }
      keys := keys + [Key(keyId, user, expiresAt, false, 0, [])];
      return Some(full);
    }

    method Revoke(row: RowId, user: nat) returns (ok: bool)
      modifies this`keys
      ensures State() == RevokeStep(old(State()), row, user)
      ensures ok <==> row < |old(keys)| && old(keys)[row].user == user
    {
      if row >= |keys| || keys[row].user != user { return false; }
      keys := keys[row := keys[row].(revoked := true)];
      return true;
    }

    /** A request is accepted exactly when its id is known and not revoked, the key not expired, the nonce in the
        clock window and above the last one, and the credential right; and only on the row that has its id. */
    method ValidateRequest(ghost call: CallId, fullKey: string, nonce: int, now: int, nowMs: int, credential: bool)
      returns (o: Outcome)
      requires call !in calls && call !in done
      modifies this`keys, this`calls, this`done
      ensures KeyIdOf(fullKey).None? ==> State() == old(State()) && o == NotFound
      ensures KeyIdOf(fullKey).Some? ==>
                State() == Validated(old(State()), call, KeyIdOf(fullKey).value, nonce, now, nowMs, credential)
      ensures o.Accepted? <==> KeyIdOf(fullKey).Some? &&
                               var row := FindKey(old(keys), KeyIdOf(fullKey).value, 0);
                               row < |old(keys)| && Acceptable(old(keys)[row], nonce, now, nowMs, credential)
      ensures KeyIdOf(fullKey).Some? ==> call in done && done[call] == o
      ensures o.Accepted? ==>
                && o.row < |old(keys)| && Some(old(keys)[o.row].keyId) == KeyIdOf(fullKey) && !old(keys)[o.row].revoked
                && (old(keys)[o.row].expiresAt.None? || old(keys)[o.row].expiresAt.value >= now)
                && nowMs - 300000 <= nonce <= nowMs + 300000 && nonce > old(keys)[o.row].lastNonce && credential
                && o.nonce == nonce
                && keys == old(keys)[o.row := old(keys)[o.row].(lastNonce := nonce,
                                                                accepted := old(keys)[o.row].accepted + [nonce])]
      ensures !o.Accepted? ==> keys == old(keys)
      ensures (forall r :: 0 <= r < |old(keys)| ==> Some(old(keys)[r].keyId) != KeyIdOf(fullKey) || old(keys)[r].revoked)
              ==> o == NotFound
    {
      var id := KeyIdOf(fullKey);
      if id.None? { return NotFound; }
      var row := FindKey(keys, id.value, 0);
      if row == |keys| {
        done := done[call := NotFound];
        return NotFound;
      }
      var k := keys[row];
      calls := calls[call := Looked(row, nonce, k.lastNonce, k.expiresAt)];
      if k.expiresAt.Some? && k.expiresAt.value < now {
        o := Expired;
      } else if nonce < nowMs - SKEW_MS || nonce > nowMs + SKEW_MS {
        o := ClockSkew;
      } else if nonce <= k.lastNonce {
        o := Replayed;
      } else if !credential {
        o := NotFound;
      } else {
        calls := calls[call := Checked(row, nonce)];
        o := Update(row, nonce);
      }
      calls, done := calls - {call}, done[call := o];
    }

    /** The guarded UPDATE. */
    method Update(row: RowId, nonce: int) returns (o: Outcome)
      requires row < |keys|
      modifies this`keys
      ensures UpdateHits(old(keys), row, nonce) ==>
                keys == old(keys)[row := old(keys)[row].(lastNonce := nonce, accepted := old(keys)[row].accepted + [nonce])]
      ensures !UpdateHits(old(keys), row, nonce) ==> keys == old(keys)
      ensures o == if UpdateHits(old(keys), row, nonce) then Accepted(row, nonce) else Replayed
    {
      if keys[row].lastNonce >= nonce { return Replayed; }
      keys := keys[row := keys[row].(lastNonce := nonce, accepted := keys[row].accepted + [nonce])];
      return Accepted(row, nonce);
    }
  }
}
