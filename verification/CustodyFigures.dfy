/** What withdrawals and deposits go through, said on rows, balances and figures alone. */
module CustodyFigures {
  import opened Ledger
  import opened Custody
  import opened CustodyProofs
  import opened CustodyService
  import opened Options
  import UnknownTicks

  // ---------------------------------------------------------------- users and admins

  /** A withdrawal of at least 0.1 with enough available, and no replay of an idempotency key, moves its amount into
      frozen and gets a row: PENDING below a score of 50, RISK_CHECK from 50, MANUAL_REVIEW from 80, REJECTED from 100.
      Any other request changes nothing. */
  lemma CreatedInFigures(s: State, k: Key, amount: real, score: int, idem: string)
    ensures var s' := Step(s, Create(k, amount, score, idem));
            if amount < 0.1 || (idem != "" && (k.user, idem) in s.replays) || k !in s.table || s.table[k].available < amount
            then s' == s
            else
              && s'.table == s.table[k := Balance(s.table[k].available - amount, s.table[k].frozen + amount)]
              && s'.rows == s.rows + [Row(k, amount,
                                          if score < 50 then Pending else if score < 80 then RiskCheck
                                          else if score < 100 then ManualReview else Rejected,
                                          "", History(0, 0, 0, 0, 0, 0))]
              && s'.replays == (if idem == "" then s.replays else s.replays[(k.user, idem) := |s.rows|])
              && s' == s.(table := s'.table, rows := s'.rows, replays := s'.replays)
  {
  }

  /** Confirming and approving put a waiting withdrawal in the queue, rejecting ends it; each only from its own status,
      and confirming only for the owner. Rows, balances and everything else stay as they are otherwise. */
  lemma DeskInFigures(s: State, id: RowId, user: UserId, note: string)
    ensures Step(s, Confirm(id, user)) ==
              if id < |s.rows| && s.rows[id].status == RiskCheck && s.rows[id].key.user == user then
                s.(rows := s.rows[id := OnceMore(s.rows[id], Pending, s.rows[id].msg)])
              else s
    ensures Step(s, Approve(id)) ==
              if id < |s.rows| && s.rows[id].status == ManualReview then
                s.(rows := s.rows[id := OnceMore(s.rows[id], Pending, "")])
              else s
    ensures var s' := Step(s, Reject(id, note));
            if id < |s.rows| && s.rows[id].status == ManualReview then
              var r, h := s.rows[id], s.rows[id].history;
              && s'.rows == s.rows[id := Row(r.key, r.amount, Rejected, if note == "" then "rejected by admin" else note,
                                             History(h.changes + 1, h.claims, h.broadcasts, h.unlocks, h.burns,
                                                     h.rejects + 1))]
              && s' == s.(rows := s'.rows, table := s'.table)
              && s'.table == (if r.key !in s.table then s.table
                              else
                                var b := s.table[r.key];
                                s.table[r.key := if b.frozen >= r.amount then Balance(b.available, b.frozen - r.amount)
                                                 else Balance(b.available + (r.amount - b.frozen), 0.0)])
            else s' == s
  {
  }

  /** A row after one more status change. */
  function OnceMore(r: Row, status: Status, msg: string): Row {
    Row(r.key, r.amount, status, msg,
        History(r.history.changes + 1, r.history.claims, r.history.broadcasts, r.history.unlocks, r.history.burns,
                r.history.rejects))
  }

  // ---------------------------------------------------------------- one withdrawal, undisturbed

  lemma HoldInFigures(s: State, others: Holds, id: RowId)
    requires Inv(s, others) && id < |s.rows| && s.rows[id].status == Pending
    ensures var r := s.rows[id]; r.key in s.table && s.table[r.key].frozen >= r.amount > 0.0
  {
    assert RowOk(s.rows[id]);
    HoldIsFrozen(s, others, id);
  }

  /** Without a row in PENDING nothing happens, whatever the rest would have been. */
  lemma NotPending(s: State, w: ActorId, id: RowId, o: Outcome)
    requires w !in s.jobs && (id >= |s.rows| || s.rows[id].status != Pending)
    ensures Run(s, Script(w, id, o)) == s
  {
    ScriptRuns(s, w, id, o);
    assert ClaimStep(s, w, id) == s;
    hide ClaimStep, AfterClaim, Run, Script;
    IdleWorkerDoesNothing(s, w, o);
  }

  /** The row a worker leaves, from the PENDING row it took. */
  function Left(r: Row, status: Status, msg: string, changes: nat, broadcasts: nat, unlocks: nat, burns: nat): Row {
    Row(r.key, r.amount, status, msg,
        History(r.history.changes + changes, r.history.claims + 1, r.history.broadcasts + broadcasts,
                r.history.unlocks + unlocks, r.history.burns + burns, r.history.rejects))
  }

  /** A state in which worker `w` is at `job` on row `id`, now `r`; the rest is as in `s`. */
  function Working(s: State, w: ActorId, id: RowId, r: Row, job: Job): State
    requires id < |s.rows|
  {
    s.(rows := s.rows[id := r], jobs := s.jobs[w := job])
  }

  lemma ClaimWorks(s: State, w: ActorId, id: RowId)
    requires w !in s.jobs && id < |s.rows| && s.rows[id].status == Pending
    ensures ClaimStep(s, w, id) == Working(s, w, id, Left(s.rows[id], Signing, "", 1, 0, 0, 0), Claimed(id))
  {
  }

  lemma SignFailsWorks(s: State, w: ActorId, id: RowId, r: Row, msg: string, recorded: bool)
    requires id < |s.rows| && r.status == Signing
    ensures SignFailsStep(Working(s, w, id, r, Claimed(id)), w, msg, recorded)
         == Working(s, w, id, if recorded then OnceMore(r, Failed, msg) else r, Unlocking(id))
  {
    var s1 := Working(s, w, id, r, Claimed(id));
    assert s1.jobs[w] == Claimed(id) && s1.rows[id] == r;
    assert s1.rows[id := OnceMore(r, Failed, msg)] == s.rows[id := OnceMore(r, Failed, msg)];
    assert s1.jobs[w := Unlocking(id)] == s.jobs[w := Unlocking(id)];
  }

  lemma SignOkWorks(s: State, w: ActorId, id: RowId, r: Row)
    requires id < |s.rows|
    ensures SignOkStep(Working(s, w, id, r, Claimed(id)), w) == Working(s, w, id, r, Ready(id))
  {
    var s1 := Working(s, w, id, r, Claimed(id));
    assert s1.jobs[w] == Claimed(id) && s1.jobs[w := Ready(id)] == s.jobs[w := Ready(id)];
  }

  /** The row with one broadcast more. */
  function OnceSent(r: Row): Row {
    Row(r.key, r.amount, r.status, r.msg,
        History(r.history.changes, r.history.claims, r.history.broadcasts + 1, r.history.unlocks, r.history.burns,
                r.history.rejects))
  }

  lemma BroadcastWorks(s: State, w: ActorId, id: RowId, r: Row, msg: string)
    requires id < |s.rows|
    ensures BroadcastOkStep(Working(s, w, id, r, Ready(id)), w) == Working(s, w, id, OnceSent(r), Sent(id))
    ensures BroadcastFailsStep(Working(s, w, id, r, Ready(id)), w, msg) == Working(s, w, id, OnceSent(r), Errored(id, msg))
  {
    var s1 := Working(s, w, id, r, Ready(id));
    assert s1.jobs[w] == Ready(id) && s1.rows[id] == r && s1.rows[id := OnceSent(r)] == s.rows[id := OnceSent(r)];
    assert s1.jobs[w := Sent(id)] == s.jobs[w := Sent(id)];
    assert s1.jobs[w := Errored(id, msg)] == s.jobs[w := Errored(id, msg)];
  }

  lemma NotesMiss(s: State, w: ActorId, id: RowId, r: Row, msg: string, first: bool, second: bool)
    requires w !in s.jobs && id < |s.rows| && r.status == Signing
    ensures Noted(Working(s, w, id, r, Errored(id, msg)), w, first, second) == s.(rows := s.rows[id := r])
  {
    var s1 := Working(s, w, id, r, Errored(id, msg));
    assert s1.jobs[w] == Errored(id, msg) && s1.rows[id] == r;
    assert NoteFailedStep(s1, w, first) == Working(s, w, id, r, NotedFailed(id, msg)) by {
      assert s1.jobs[w := NotedFailed(id, msg)] == s.jobs[w := NotedFailed(id, msg)];
    }
    var s2 := Working(s, w, id, r, NotedFailed(id, msg));
    assert s2.jobs[w] == NotedFailed(id, msg) && s2.rows[id] == r && s2.jobs - {w} == s.jobs;
  }

  /** A worker that dies or has nothing left to do. */
  lemma DeadWorks(s: State, w: ActorId, id: RowId, r: Row, job: Job)
    requires w !in s.jobs && id < |s.rows|
    ensures Dead(Working(s, w, id, r, job), w) == s.(rows := s.rows[id := r])
  {
    assert s.jobs[w := job] - {w} == s.jobs;
  }

  lemma RecordWorks(s: State, w: ActorId, id: RowId, r: Row, recorded: bool)
    requires w !in s.jobs && id < |s.rows| && r.status == Signing
    ensures RecordStep(Working(s, w, id, r, Sent(id)), w, recorded)
         == if recorded then Working(s, w, id, OnceMore(r, Broadcasted, ""), Burning(id)) else s.(rows := s.rows[id := r])
  {
    var s1 := Working(s, w, id, r, Sent(id));
    assert s1.jobs[w] == Sent(id) && s1.rows[id] == r;
    assert s1.rows[id := OnceMore(r, Broadcasted, "")] == s.rows[id := OnceMore(r, Broadcasted, "")];
    assert s1.jobs[w := Burning(id)] == s.jobs[w := Burning(id)];
    assert s1.jobs - {w} == s.jobs;
  }

  /** The row with one unlock, or one burn, more. */
  function OnceReleased(r: Row, unlocks: nat, burns: nat): Row {
    Row(r.key, r.amount, r.status, r.msg,
        History(r.history.changes, r.history.claims, r.history.broadcasts, r.history.unlocks + unlocks,
                r.history.burns + burns, r.history.rejects))
  }

  lemma UnlockWorks(s: State, w: ActorId, id: RowId, r: Row)
    requires w !in s.jobs && id < |s.rows| && r.key in s.table && s.table[r.key].frozen >= r.amount > 0.0
    ensures UnlockingStep(Working(s, w, id, r, Unlocking(id)), w)
         == s.(rows := s.rows[id := OnceReleased(r, 1, 0)],
               table := s.table[r.key := Balance(s.table[r.key].available + r.amount, s.table[r.key].frozen - r.amount)])
  {
    var s1 := Working(s, w, id, r, Unlocking(id));
    assert s1.jobs[w] == Unlocking(id) && s1.rows[id] == r && s1.jobs - {w} == s.jobs;
    assert s1.rows[id := OnceReleased(r, 1, 0)] == s.rows[id := OnceReleased(r, 1, 0)];
  }

  lemma BurnWorks(s: State, w: ActorId, id: RowId, r: Row)
    requires w !in s.jobs && id < |s.rows| && r.key in s.table && s.table[r.key].frozen >= r.amount > 0.0
    ensures BurningStep(Working(s, w, id, r, Burning(id)), w)
         == s.(rows := s.rows[id := OnceReleased(r, 0, 1)],
               table := s.table[r.key := Balance(s.table[r.key].available, s.table[r.key].frozen - r.amount)])
  {
    var s1 := Working(s, w, id, r, Burning(id));
    assert s1.jobs[w] == Burning(id) && s1.rows[id] == r && s1.jobs - {w} == s.jobs;
    assert s1.rows[id := OnceReleased(r, 0, 1)] == s.rows[id := OnceReleased(r, 0, 1)];
  }

  /** Building or signing fails: the row says so if that is recorded, and if the unlock gets through the whole amount is
      available again. */
  lemma UnsentInFigures(s: State, w: ActorId, id: RowId, msg: string, recorded: bool, unlocked: bool, others: Holds)
    requires Inv(s, others) && w !in s.jobs && id < |s.rows| && s.rows[id].status == Pending
    ensures s.rows[id].key in s.table
    ensures var r, b := s.rows[id], s.table[s.rows[id].key];
            Run(s, Script(w, id, BuildOrSignError(msg, recorded, unlocked)))
              == s.(rows := s.rows[id := Left(r, if recorded then Failed else Signing, if recorded then msg else "",
                                              if recorded then 2 else 1, 0, if unlocked then 1 else 0, 0)],
                    table := if unlocked then s.table[r.key := Balance(b.available + r.amount, b.frozen - r.amount)]
                             else s.table)
  {
    hide *;
    UnsentRow(s.rows[id], msg, recorded, if unlocked then 1 else 0);
    UnsentEnds(s, w, id, msg, recorded, unlocked, others);
  }

  lemma UnsentEnds(s: State, w: ActorId, id: RowId, msg: string, recorded: bool, unlocked: bool, others: Holds)
    requires Inv(s, others) && w !in s.jobs && id < |s.rows| && s.rows[id].status == Pending
    ensures s.rows[id].key in s.table
    ensures var r, b := s.rows[id], s.table[s.rows[id].key];
            Run(s, Script(w, id, BuildOrSignError(msg, recorded, unlocked)))
              == s.(rows := s.rows[id := Unsent(r, msg, recorded, if unlocked then 1 else 0)],
                    table := if unlocked then s.table[r.key := Balance(b.available + r.amount, b.frozen - r.amount)]
                             else s.table)
  {
    hide *;
    HoldInFigures(s, others, id);
    var r1 := Left(s.rows[id], Signing, "", 1, 0, 0, 0);
    var r2 := if recorded then OnceMore(r1, Failed, msg) else r1;
    SameRow(s.rows[id], msg, recorded);
    UnsentRuns(s, w, id, msg, recorded, unlocked);
    ClaimWorks(s, w, id);
    SignFailsWorks(s, w, id, r1, msg, recorded);
    var s2 := Working(s, w, id, r2, Unlocking(id));
    assert SignFailsStep(ClaimStep(s, w, id), w, msg, recorded) == s2;
    if unlocked {
      UnlockWorks(s, w, id, r2);
      assert Run(s, Script(w, id, BuildOrSignError(msg, recorded, unlocked))) == UnlockingStep(s2, w);
    } else {
      DeadWorks(s, w, id, r2, Unlocking(id));
      assert Run(s, Script(w, id, BuildOrSignError(msg, recorded, unlocked))) == Dead(s2, w);
    }
  }

  /** The row a worker leaves that could not build or sign, step by step. */
  function Unsent(r: Row, msg: string, recorded: bool, unlocks: nat): Row {
    var r1 := Left(r, Signing, "", 1, 0, 0, 0);
    OnceReleased(if recorded then OnceMore(r1, Failed, msg) else r1, unlocks, 0)
  }

  lemma SameRow(r: Row, msg: string, recorded: bool)
    ensures var r1 := Left(r, Signing, "", 1, 0, 0, 0);
            var r2 := if recorded then OnceMore(r1, Failed, msg) else r1;
            && r1.status == Signing && r2.key == r.key && r2.amount == r.amount
            && Unsent(r, msg, recorded, 0) == r2 && Unsent(r, msg, recorded, 1) == OnceReleased(r2, 1, 0)
  {
  }

  lemma UnsentRuns(s: State, w: ActorId, id: RowId, msg: string, recorded: bool, unlocked: bool)
    ensures var s2 := SignFailsStep(ClaimStep(s, w, id), w, msg, recorded);
            Run(s, Script(w, id, BuildOrSignError(msg, recorded, unlocked)))
              == if unlocked then UnlockingStep(s2, w) else Dead(s2, w)
  {
    hide ClaimStep, SignFailsStep, UnlockingStep, Dead, Run, Script;
    ScriptRuns(s, w, id, BuildOrSignError(msg, recorded, unlocked));
  }

  lemma UnsentRow(r: Row, msg: string, recorded: bool, unlocks: nat)
    ensures Unsent(r, msg, recorded, unlocks)
         == Left(r, if recorded then Failed else Signing, if recorded then msg else "", if recorded then 2 else 1, 0,
                 unlocks, 0)
  {
  }

  /** A dry run: signed, not sent, the amount still frozen. */
  lemma DryRunInFigures(s: State, w: ActorId, id: RowId, msg: string, recorded: bool)
    requires w !in s.jobs && id < |s.rows| && s.rows[id].status == Pending
    ensures Run(s, Script(w, id, DryRunOnly(msg, recorded)))
         == s.(rows := s.rows[id := Left(s.rows[id], if recorded then Signed else Signing, if recorded then msg else "",
                                         if recorded then 2 else 1, 0, 0, 0)])
  {
    var r1 := Left(s.rows[id], Signing, "", 1, 0, 0, 0);
    hide Run, Script, ClaimStep, Dead, DryRunStep, Working;
    ScriptRuns(s, w, id, DryRunOnly(msg, recorded));
    ClaimWorks(s, w, id);
    if recorded { DryRunWorks(s, w, id, r1, msg); } else { DeadWorks(s, w, id, r1, Claimed(id)); }
  }

  lemma DryRunWorks(s: State, w: ActorId, id: RowId, r: Row, msg: string)
    requires w !in s.jobs && id < |s.rows| && r.status == Signing
    ensures DryRunStep(Working(s, w, id, r, Claimed(id)), w, msg) == s.(rows := s.rows[id := OnceMore(r, Signed, msg)])
  {
    var s1 := Working(s, w, id, r, Claimed(id));
    assert s1.jobs[w] == Claimed(id) && s1.rows[id] == r && s1.jobs - {w} == s.jobs;
    assert s1.rows[id := OnceMore(r, Signed, msg)] == s.rows[id := OnceMore(r, Signed, msg)];
  }

  /** The broadcast call fails: neither update finds the row in BROADCASTED, so whatever reaches the database the row is
      in SIGNING, sent once, and the amount still frozen. */
  lemma BroadcastErrorInFigures(s: State, w: ActorId, id: RowId, msg: string, first: bool, second: bool)
    requires w !in s.jobs && id < |s.rows| && s.rows[id].status == Pending
    ensures Run(s, Script(w, id, BroadcastError(msg, first, second)))
         == s.(rows := s.rows[id := Left(s.rows[id], Signing, "", 1, 1, 0, 0)])
  {
    var r1 := Left(s.rows[id], Signing, "", 1, 0, 0, 0);
    SentRow(s.rows[id]);
    hide *;
    ErrorScriptRuns(s, w, id, msg, first, second);
    ClaimWorks(s, w, id);
    SignOkWorks(s, w, id, r1);
    BroadcastWorks(s, w, id, r1, msg);
    NotesMiss(s, w, id, OnceSent(r1), msg, first, second);
  }

  lemma ErrorScriptRuns(s: State, w: ActorId, id: RowId, msg: string, first: bool, second: bool)
    ensures Run(s, Script(w, id, BroadcastError(msg, first, second)))
         == Noted(BroadcastFailsStep(SignOkStep(ClaimStep(s, w, id), w), w, msg), w, first, second)
  {
    hide ClaimStep, SignOkStep, BroadcastFailsStep, Noted, Run, Script;
    ScriptRuns(s, w, id, BroadcastError(msg, first, second));
  }

  /** The broadcast succeeds: recorded, it is BROADCASTED, and burned, the amount is gone from frozen and comes back
      nowhere; a failing record leaves it in SIGNING with its amount frozen. */
  lemma BroadcastInFigures(s: State, w: ActorId, id: RowId, recorded: bool, burned: bool, others: Holds)
    requires Inv(s, others) && w !in s.jobs && id < |s.rows| && s.rows[id].status == Pending
    ensures s.rows[id].key in s.table
    ensures var r, b := s.rows[id], s.table[s.rows[id].key];
            Run(s, Script(w, id, BroadcastDone(recorded, burned)))
              == s.(rows := s.rows[id := Left(r, if recorded then Broadcasted else Signing, "", if recorded then 2 else 1, 1,
                                              0, if recorded && burned then 1 else 0)],
                    table := if recorded && burned then s.table[r.key := Balance(b.available, b.frozen - r.amount)]
                             else s.table)
  {
    var r1 := Left(s.rows[id], Signing, "", 1, 0, 0, 0);
    var r2 := OnceMore(OnceSent(r1), Broadcasted, "");
    SentRow(s.rows[id]);
    hide *;
    HoldInFigures(s, others, id);
    SentRuns(s, w, id, recorded, burned);
    ClaimWorks(s, w, id);
    SignOkWorks(s, w, id, r1);
    BroadcastWorks(s, w, id, r1, "");
    RecordWorks(s, w, id, OnceSent(r1), recorded);
    if recorded {
      if burned { BurnWorks(s, w, id, r2); } else { DeadWorks(s, w, id, r2, Burning(id)); }
    } else {
      NothingToBurn(s.(rows := s.rows[id := OnceSent(r1)]), w, burned);
    }
  }

  lemma SentRuns(s: State, w: ActorId, id: RowId, recorded: bool, burned: bool)
    ensures var s2 := RecordStep(BroadcastOkStep(SignOkStep(ClaimStep(s, w, id), w), w), w, recorded);
            && Run(s, Script(w, id, BroadcastDone(recorded, burned))) == CustodyService.Burned(s2, w, burned)
            && CustodyService.Burned(s2, w, burned) == if burned then BurningStep(s2, w) else Dead(s2, w)
  {
    hide ClaimStep, SignOkStep, BroadcastOkStep, RecordStep, BurningStep, Dead, Run, Script;
    ScriptRuns(s, w, id, BroadcastDone(recorded, burned));
  }

  lemma SentRow(r: Row)
    ensures var r1 := Left(r, Signing, "", 1, 0, 0, 0);
            var r2 := OnceMore(OnceSent(r1), Broadcasted, "");
            && r1.status == OnceSent(r1).status == Signing && r2.key == r.key && r2.amount == r.amount
            && OnceSent(r1) == Left(r, Signing, "", 1, 1, 0, 0) && r2 == Left(r, Broadcasted, "", 2, 1, 0, 0)
            && OnceReleased(r2, 0, 1) == Left(r, Broadcasted, "", 2, 1, 0, 1)
  {
  }

  lemma NothingToBurn(s: State, w: ActorId, burned: bool)
    requires w !in s.jobs
    ensures CustodyService.Burned(s, w, burned) == s
  {
    assert s.jobs - {w} == s.jobs;
  }

  // ---------------------------------------------------------------- confirmation

  /** What a watcher's update does to a row it has in its batch. */
  predicate Becomes(s: State, s': State, id: RowId, status: Status, msg: string) {
    id < |s.rows| && s' == s.(rows := s.rows[id := OnceMore(s.rows[id], status, msg)])
  }

  /** A transaction in a block that is not final yet: BROADCASTED becomes IN_BLOCK, everything else stays. */
  lemma InBlockInFigures(s: State, id: RowId)
    requires id < |s.rows| && id in s.watched
    ensures var s' := Run(s, Watching(id, NotFinal));
            if s.rows[id].status == Broadcasted then Becomes(s, s', id, InBlock, "") else s' == s
  {
    WatchingRuns(s, id, NotFinal);
    hide Run;
  }

  /** A final, successful transaction: the two updates complete the row whichever of the two statuses it is in. */
  lemma SuccessInFigures(s: State, id: RowId)
    requires id < |s.rows| && id in s.watched
    ensures var s' := Run(s, Watching(id, Succeeded));
            if s.rows[id].status == Broadcasted || s.rows[id].status == InBlock then Becomes(s, s', id, Completed, "")
            else s' == s
  {
    WatchingRuns(s, id, Succeeded);
    hide Run;
  }

  /** A final, reverted one: they fail the row, and nobody gets the amount back. */
  lemma RevertInFigures(s: State, id: RowId)
    requires id < |s.rows| && id in s.watched
    ensures var s' := Run(s, Watching(id, Reverted));
            if s.rows[id].status == Broadcasted || s.rows[id].status == InBlock then
              Becomes(s, s', id, Failed,
                      "contract reverted on chain; " + "frozen balance burned, " + "manual credit required")
            else s' == s
  {
    WatchingRuns(s, id, Reverted);
    hide Run;
  }

  /** A row enters a watcher's batch while it is BROADCASTED or IN_BLOCK. */
  lemma WatchInFigures(s: State, id: RowId)
    ensures Step(s, Watch(id)) ==
              if id < |s.rows| && (s.rows[id].status == Broadcasted || s.rows[id].status == InBlock)
              then s.(watched := s.watched + {id}) else s
  {
  }

  /** The single updates, from any state: which status each leaves and which it writes. The last two are those that no
      run reaches. */
  lemma UpdatesInFigures(s: State, id: RowId, first: bool)
    requires id < |s.rows| && id in s.watched
    ensures var from := if first then InBlock else Broadcasted;
            && Step(s, SeeSuccess(id, first))
                 == (if s.rows[id].status == from then s.(rows := s.rows[id := OnceMore(s.rows[id], Completed, "")]) else s)
            && Step(s, SeeRevert(id, first))
                 == (if s.rows[id].status == from then
                       s.(rows := s.rows[id := OnceMore(s.rows[id], Failed,
                          "contract reverted on chain; " + "frozen balance burned, " + "manual credit required")])
                     else s)
    ensures Step(s, Judge(id)) == if UnknownTicks.Count(s.rows[id].msg) >= 12 then s.(verdicts := s.verdicts + {id}) else s
    ensures Step(s, Demote(id))
         == if id in s.verdicts && (s.rows[id].status == Broadcasted || s.rows[id].status == InBlock) then
              s.(rows := s.rows[id := OnceMore(s.rows[id], BroadcastUnknown, s.rows[id].msg)])
            else s
  {
    hide UnknownTicks.Count;
    var r := OnceMore(s.rows[id], BroadcastUnknown, s.rows[id].msg);
    assert s.rows[id := r][id] == r;
  }

  /** The two updates after a broadcast error, had the row been in BROADCASTED. */
  lemma FirstNoteInFigures(s: State, w: ActorId, id: RowId, msg: string, recorded: bool)
    requires id < |s.rows| && w in s.jobs && s.rows[id].status == Broadcasted && s.jobs[w] == Errored(id, msg)
    ensures Step(s, NoteFailed(w, recorded)).rows
         == if recorded then s.rows[id := OnceMore(s.rows[id], Failed, msg)] else s.rows
  {
  }

  lemma SecondNoteInFigures(s: State, w: ActorId, id: RowId, msg: string, recorded: bool)
    requires id < |s.rows| && w in s.jobs && s.rows[id].status == Broadcasted && s.jobs[w] == NotedFailed(id, msg)
    ensures Step(s, NoteUnknown(w, recorded)).rows
         == if recorded then s.rows[id := OnceMore(s.rows[id], BroadcastUnknown, msg)] else s.rows
  {
  }

  /** A transaction nobody has seen: however often that happens the row only gets one tick longer. */
  lemma MissingInFigures(s: State, id: RowId)
    requires Core(s) && id < |s.rows| && id in s.watched
    ensures var s', r := Run(s, Watching(id, Missing)), s.rows[id];
            if r.status == Broadcasted || r.status == InBlock then
              s' == s.(rows := s.rows[id := Row(r.key, r.amount, r.status,
                                                if r.msg == "" then "unknown_ticks=1," else r.msg + "1,", r.history)])
            else s' == s
  {
    var r := s.rows[id];
    assert WatchedOk(r) && RowOk(r) && s.verdicts == {};
    WatchingRuns(s, id, Missing);
    if OnChain(r.status) {
      BumpInFigures(r.msg);
      UnknownTicks.BumpIsATick(r.msg);
      UnknownTicks.TicksStayFew(UnknownTicks.Bump(r.msg));
    }
    hide Run, Core, WatchedOk, RowOk, UnknownTicks.Bump, UnknownTicks.Count, UnknownTicks.TicksOnly;
  }

  lemma BumpInFigures(msg: string)
    requires UnknownTicks.TicksOnly(msg)
    ensures UnknownTicks.Bump(msg) == if msg == "" then "unknown_ticks=1," else msg + "1,"
  {
    var n: nat :| msg == UnknownTicks.AfterTicks(n);
    UnknownTicks.TicksInFigures(n);
    assert UnknownTicks.AfterTicks(n + 1) == UnknownTicks.Bump(msg);
    hide UnknownTicks.Bump;
  }

  // ---------------------------------------------------------------- deposits

  /** A detected deposit enters with its amount; one without a positive amount does not. */
  lemma DetectInFigures(s: State, k: Key, amount: real, block: Option<int>)
    ensures Step(s, Detect(k, amount, block)) ==
              if amount > 0.0 then s.(deposits := s.deposits + [Deposit(k, amount, block, Detected, 0)]) else s
  {
  }

  /** With a chain head at `head`, the detected deposits of blocks 19 or more below it become confirmed; no other deposit
      changes. */
  lemma PromoteInFigures(s: State, head: int)
    ensures var s' := Step(s, Promote(head));
            && |s'.deposits| == |s.deposits|
            && (forall i :: 0 <= i < |s.deposits| ==>
                  var d := s.deposits[i];
                  s'.deposits[i] == if d.status == Detected && d.block.Some? && d.block.value + 19 <= head
                                    then Deposit(d.key, d.amount, d.block, Confirmed, d.credits) else d)
            && s' == s.(deposits := s'.deposits, maxHead := if head > s.maxHead then head else s.maxHead)
  {
  }

  /** What the listed deposits add up to on one balance. */
  function Listed(ds: seq<Deposit>, ids: seq<nat>, k: Key): real
    requires forall i :: 0 <= i < |ids| ==> ids[i] < |ds|
  {
    if ids == [] then 0.0 else (if ds[ids[0]].key == k then ds[ids[0]].amount else 0.0) + Listed(ds, ids[1..], k)
  }

  lemma ListedElsewhere(ds: seq<Deposit>, ds': seq<Deposit>, ids: seq<nat>, k: Key)
    requires forall i :: 0 <= i < |ids| ==> ids[i] < |ds| == |ds'|
                                            && ds[ids[i]].key == ds'[ids[i]].key && ds[ids[i]].amount == ds'[ids[i]].amount
    ensures Listed(ds, ids, k) == Listed(ds', ids, k)
  {
  }

  lemma {:induction false} CreditAllPays(t: Table, ds: seq<Deposit>, ids: seq<nat>, k: Key)
    requires forall i :: 0 <= i < |ids| ==> ids[i] < |ds|
    ensures var t' := CreditAll(t, ds, ids).0;
            At(t', k).frozen == At(t, k).frozen && At(t', k).available == At(t, k).available + Listed(ds, ids, k)
    decreases |ids|
  {
    if ids == [] {
    } else {
      var (t1, ds1) := CreditOne(t, ds, ids[0]);
      CreditAllPays(t1, ds1, ids[1..], k);
      ListedElsewhere(ds, ds1, ids[1..], k);
    }
  }

  /** A committed pass credits exactly its deposits: each to CREDITED, each amount to its own balance. */
  lemma CommitInFigures(s: State, p: ActorId, k: Key)
    requires Core(s) && p in s.passes
    ensures var s', ids := Step(s, CommitPass(p)), s.passes[p];
            && InRange(s, ids) && |s'.deposits| == |s.deposits|
            && (forall i :: 0 <= i < |s.deposits| ==>
                  var d := s.deposits[i];
                  s'.deposits[i] == if i in ids then Deposit(d.key, d.amount, d.block, Credited, 1) else d)
            && At(s'.table, k).frozen == At(s.table, k).frozen
            && At(s'.table, k).available == At(s.table, k).available + Listed(s.deposits, ids, k)
            && s' == s.(deposits := s'.deposits, table := s'.table, passes := s.passes - {p})
  {
    assert PassOk(s, s.passes[p]);
    CommitCredits(s, p);
    CreditAllPays(s.table, s.deposits, s.passes[p], k);
    hide CreditAll, Core, Listed;
  }

  /** No open pass has the deposit. */
  predicate Free(s: State, i: nat) {
    forall p <- s.passes :: i !in s.passes[p]
  }

  /** An aborted one changes nothing but its locks. Opening one takes locks on a hundred confirmed deposits nobody else has
      locked, each once, or on all there are. */
  lemma PassInFigures(s: State, p: ActorId, ids: seq<nat>)
    ensures Step(s, AbortPass(p)) == s.(passes := s.passes - {p})
    ensures Step(s, BeginPass(p, ids)) ==
              if p !in s.passes && MayTake(s, ids) then s.(passes := s.passes[p := ids]) else s
  {
    TakenIsSelectable(s, ids);
    hide Selectable, MayTake;
  }

  predicate MayTake(s: State, ids: seq<nat>) {
    && |ids| <= 100
    && (forall i, j :: 0 <= i < j < |ids| ==> ids[i] != ids[j])
    && (forall i <- ids :: i < |s.deposits| && s.deposits[i].status == Confirmed && Free(s, i))
    && (|ids| == 100 || forall i: nat :: i < |s.deposits| && s.deposits[i].status == Confirmed && Free(s, i) ==> i in ids)
  }

  lemma TakenIsSelectable(s: State, ids: seq<nat>)
    ensures Selectable(s, ids) <==> MayTake(s, ids)
  {
    assert forall i: nat :: Free(s, i) <==> !Locked(s, i);
    hide Locked, Free;
    if MayTake(s, ids) {
      forall i | 0 <= i < |ids|
        ensures ids[i] < |s.deposits| && s.deposits[ids[i]].status == Confirmed && !Locked(s, ids[i])
      {
        assert ids[i] in ids;
      }
    }
  }
}
