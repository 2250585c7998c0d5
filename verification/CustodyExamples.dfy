/** Short runs in which the withdrawals do what CustodyProofs says of them: the theorems about lost and stranded funds
    have real inputs. */
module CustodyExamples {
  import opened Ledger
  import opened Custody
  import opened CustodyProofs
  import opened CustodyService

  const SAVER: Key := Key(1, "USDT")
  const SAVINGS: Table := map[SAVER := Balance(10.0, 0.0)]

  /** The state after a user with ten asks to withdraw six. */
  function Requested(score: int): State {
    Start(SAVINGS).(table := map[SAVER := Balance(4.0, 6.0)], rows := [NewRow(SAVER, 6.0, score)])
  }

  lemma RequestRuns(score: int, rest: seq<Action>)
    ensures Run(Start(SAVINGS), [Create(SAVER, 6.0, score, "")] + rest) == Run(Requested(score), rest)
  {
    var s := Start(SAVINGS);
    assert s.table[SAVER := Balance(4.0, 6.0)] == map[SAVER := Balance(4.0, 6.0)];
    assert CreateStep(s, SAVER, 6.0, score, "") == Requested(score);
    Advance(s, Create(SAVER, 6.0, score, ""), Requested(score), rest);
  }

  /** Ten, six of them requested with a score of 85, then rejected by an admin: four are left and nothing is frozen. */
  lemma RejectionLosesSix()
    ensures Run(Start(SAVINGS), [Create(SAVER, 6.0, 85, "")] + [Reject(0, "")]).table == map[SAVER := Balance(4.0, 0.0)]
  {
    RequestRuns(85, [Reject(0, "")]);
    var s := Requested(85);
    var s' := RejectStep(s, 0, "");
    assert RejectUnlock(s.table, SAVER, 6.0) == map[SAVER := Balance(4.0, 0.0)];
    assert [Reject(0, "")] + [] == [Reject(0, "")];
    Advance(s, Reject(0, ""), s', []);
  }

  /** The same request with a score of 100: six stay frozen whatever anybody does afterwards. */
  lemma RejectionKeepsSixFrozen(actions: seq<Action>)
    ensures var s := Run(Start(SAVINGS), [Create(SAVER, 6.0, 100, "")] + actions);
            |s.rows| > 0 && s.rows[0] == NewRow(SAVER, 6.0, 100) && At(s.table, SAVER).frozen >= 6.0
  {
    assert Run(Start(SAVINGS), []) == Start(SAVINGS);
    RequestRuns(100, actions);
    assert Stuck(Requested(100), 0);
    StuckForever(Requested(100), actions, 0);
    StillHeld([Create(SAVER, 6.0, 100, "")] + actions);
  }

  /** A row on hold after any run from the start keeps its amount frozen. */
  lemma StillHeld(actions: seq<Action>)
    ensures var s := Run(Start(SAVINGS), actions);
            |s.rows| > 0 && s.rows[0].key == SAVER && Releases(s.rows[0].history) == 0 ==>
              At(s.table, SAVER).frozen >= s.rows[0].amount
  {
    assert forall k: Key :: FrozenAt(Start(SAVINGS), map[], k);
    RunKeepsInv(Start(SAVINGS), actions, map[]);
    var s := Run(Start(SAVINGS), actions);
    if |s.rows| > 0 && s.rows[0].key == SAVER && Releases(s.rows[0].history) == 0 {
      HoldIsFrozen(s, map[], 0);
    }
  }

  const REFUSAL: seq<Action> := [Claim(1, 0), SignOk(1), BroadcastFails(1, "timeout")]

  function Noticed(): State {
    var r := Shifted(NewRow(SAVER, 6.0, 0), Signing, "");
    Requested(0).(rows := [CalledRow(r.(history := r.history.(claims := 1)))], jobs := map[1 := Errored(0, "timeout")])
  }

  lemma RefusalRuns(rest: seq<Action>)
    ensures Run(Requested(0), REFUSAL + rest) == Run(Noticed(), rest)
  {
    hide Step, Run, BroadcastFailsStep, SignOkStep, ClaimStep;
    var s0 := Requested(0);
    var s1 := ClaimStep(s0, 1, 0);
    assert REFUSAL + rest == [Claim(1, 0)] + ([SignOk(1), BroadcastFails(1, "timeout")] + rest);
    ClaimRuns(s0, 1, 0, [SignOk(1), BroadcastFails(1, "timeout")] + rest);
    ErrorRuns(s1, 1, "timeout", rest);
    RefusalEnds();
  }

  lemma RefusalEnds()
    ensures BroadcastFailsStep(SignOkStep(ClaimStep(Requested(0), 1, 0), 1), 1, "timeout") == Noticed()
  {
  }

  /** A low score, a claim, a signature and a broadcast that times out: the row is in SIGNING and six are frozen
      whatever anybody does afterwards, the worker's two UPDATEs included. */
  lemma TimeoutKeepsSixFrozen(actions: seq<Action>)
    ensures var s := Run(Start(SAVINGS), [Create(SAVER, 6.0, 0, "")] + (REFUSAL + actions));
            |s.rows| > 0 && s.rows[0].status == Signing && s.rows[0].history.broadcasts == 1
            && At(s.table, SAVER).frozen >= 6.0
  {
    RequestRuns(0, REFUSAL + actions);
    RefusalRuns(actions);
    assert Stuck(Noticed(), 0);
    StuckForever(Noticed(), actions, 0);
    StillHeld([Create(SAVER, 6.0, 0, "")] + (REFUSAL + actions));
  }
}
