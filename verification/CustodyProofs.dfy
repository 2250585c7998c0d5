/** What every interleaving of the withdrawal and deposit daemons keeps. */
module CustodyProofs {
  import opened Ledger
  import opened Custody
  import opened Options
  import UnknownTicks

  // ---------------------------------------------------------------- the invariant

  function Rank(st: Status): nat {
    match st
    case RiskCheck => 0
    case ManualReview => 0
    case Pending => 1
    case Rejected => 1
    case Signing => 2
    case Signed => 3
    case Broadcasted => 3
    case InBlock => 4
    case BroadcastUnknown => 5
    case Completed => 5
    case Failed => 5
  }

  function Releases(h: History): nat { h.unlocks + h.burns + h.rejects }

  /** Not yet taken by a worker. */
  predicate Waiting(st: Status) {
    st == RiskCheck || st == ManualReview || st == Pending || st == Rejected
  }

  /** A withdrawal is claimed, broadcast and released at most once, and never unlocked after a broadcast. */
  ghost predicate RowOk(r: Row) {
    CountsOk(r) && StatusOk(r)
  }

  ghost predicate CountsOk(r: Row) {
    var h, st := r.history, r.status;
    && r.amount > 0.0
    && h.changes <= Rank(st)
    && h.broadcasts <= h.claims <= 1
    && Releases(h) <= 1
    && (Waiting(st) <==> h.claims == 0)
    && (h.claims == 0 ==> h.unlocks == 0 && h.burns == 0)
    && (h.rejects > 0 ==> st == Rejected)
    && (h.unlocks > 0 ==> h.broadcasts == 0 && (st == Signing || st == Failed))
    && (h.burns > 0 ==> h.broadcasts == 1)
  }

  ghost predicate StatusOk(r: Row) {
    var h, st := r.history, r.status;
    && st != BroadcastUnknown
    && (OnChain(st) || st == Completed ==> h.broadcasts == 1)
    && (st == Signed ==> h.broadcasts == 0)
    && (OnChain(st) ==> UnknownTicks.TicksOnly(r.msg))
  }

  /** What a worker's position says about the row it works on. */
  ghost predicate JobOk(rows: seq<Row>, job: Job) {
    job.id < |rows| && JobRowOk(rows[job.id], job)
  }

  ghost predicate JobRowOk(r: Row, job: Job) {
    && r.history.claims == 1 && Releases(r.history) == 0
    && match job
       case Claimed(_) => r.status == Signing && r.history.broadcasts == 0
       case Ready(_) => r.status == Signing && r.history.broadcasts == 0
       case Sent(_) => r.status == Signing && r.history.broadcasts == 1
       case Unlocking(_) => (r.status == Signing || r.status == Failed) && r.history.broadcasts == 0
       case Errored(_, _) => r.status == Signing && r.history.broadcasts == 1
       case NotedFailed(_, _) => r.status == Signing && r.history.broadcasts == 1
       case Burning(_) => (OnChain(r.status) || r.status == Completed || r.status == Failed) && r.history.broadcasts == 1
  }

  ghost predicate JobsOk(s: State) {
    && (forall w <- s.jobs :: JobOk(s.rows, s.jobs[w]))
    && (forall v, w :: v in s.jobs && w in s.jobs && v != w ==> s.jobs[v].id != s.jobs[w].id)
  }

  /** Rows a watcher may still act on were broadcast, and their message counts fewer ticks than the threshold. */
  ghost predicate WatchedOk(r: Row) {
    && (OnChain(r.status) || r.status == Completed || r.status == Failed) && r.history.broadcasts == 1
    && UnknownTicks.Count(r.msg) < UnknownTicks.THRESHOLD
  }

  ghost predicate DepositOk(d: Deposit, maxHead: int) {
    && d.amount > 0.0
    && d.credits == (if d.status == Credited then 1 else 0)
    && (d.status != Detected ==> d.block.Some? && d.block.value <= maxHead - CONFIRM_THRESHOLD)
  }

  ghost predicate PassOk(s: State, ids: seq<nat>) {
    && |ids| <= PASS_LIMIT
    && (forall i :: 0 <= i < |ids| ==> ids[i] < |s.deposits| && s.deposits[ids[i]].status == Confirmed)
    && (forall i, j :: 0 <= i < j < |ids| ==> ids[i] != ids[j])
  }

  ghost predicate PassesOk(s: State) {
    && (forall p <- s.passes :: PassOk(s, s.passes[p]))
    && (forall p, q, i :: p in s.passes && q in s.passes && p != q && i in s.passes[p] ==> i !in s.passes[q])
  }

  datatype Part = OnHold | Burned | Dropped

  function Weight(r: Row, k: Key, part: Part): real {
    if r.key != k then 0.0
    else match part
      case OnHold => if Releases(r.history) == 0 then r.amount else 0.0
      case Burned => if r.history.burns > 0 then r.amount else 0.0
      case Dropped => if r.history.rejects > 0 then r.amount else 0.0
  }

  function Tally(rows: seq<Row>, k: Key, part: Part): real {
    if rows == [] then 0.0 else Tally(rows[..|rows| - 1], k, part) + Weight(rows[|rows| - 1], k, part)
  }

  function CreditOf(d: Deposit, k: Key): real {
    if d.key == k && d.credits > 0 then d.amount else 0.0
  }

  function CreditSum(ds: seq<Deposit>, k: Key): real {
    if ds == [] then 0.0 else CreditSum(ds[..|ds| - 1], k) + CreditOf(ds[|ds| - 1], k)
  }

  /** Frozen is exactly the amounts of the withdrawals whose hold is not yet released, wherever they are. */
  ghost predicate FrozenAt(s: State, others: Holds, k: Key) {
    At(s.table, k).frozen == Tally(s.rows, k, OnHold) + Held(others, k)
  }

  /** What a balance row would hold had no withdrawal burned, no admin rejected and no deposit been credited. */
  ghost function Book(s: State, k: Key): real {
    At(s.table, k).available + At(s.table, k).frozen + Tally(s.rows, k, Burned) + Tally(s.rows, k, Dropped)
    - CreditSum(s.deposits, k)
  }

  /** The invariant without the funds. */
  ghost predicate Core(s: State) {
    && (forall i :: 0 <= i < |s.rows| ==> RowOk(s.rows[i]))
    && JobsOk(s)
    && (forall i <- s.watched :: i < |s.rows| && WatchedOk(s.rows[i]))
    && s.verdicts == {}
    && (forall i :: 0 <= i < |s.deposits| ==> DepositOk(s.deposits[i], s.maxHead))
    && PassesOk(s)
  }

  ghost predicate Inv(s: State, others: Holds) {
    && NonNegative(s.table) && Core(s)
    && (forall k <- others :: others[k] >= 0.0)
    && (forall k: Key :: FrozenAt(s, others, k))
  }

  // ---------------------------------------------------------------- sums

  lemma {:induction false} TallyUpdate(rows: seq<Row>, i: nat, r: Row, k: Key, part: Part)
    requires i < |rows|
    ensures Tally(rows[i := r], k, part) == Tally(rows, k, part) - Weight(rows[i], k, part) + Weight(r, k, part)
  {
    var n := |rows| - 1;
    if i == n {
      assert rows[i := r][..n] == rows[..n];
    } else {
      assert rows[i := r][..n] == rows[..n][i := r];
      TallyUpdate(rows[..n], i, r, k, part);
    }
  }

  lemma TallyAppend(rows: seq<Row>, r: Row, k: Key, part: Part)
    ensures Tally(rows + [r], k, part) == Tally(rows, k, part) + Weight(r, k, part)
  {
    assert (rows + [r])[..|rows|] == rows;
  }

  lemma WeightSign(r: Row, k: Key, part: Part)
    requires RowOk(r)
    ensures Weight(r, k, part) >= 0.0
  {
  }

  lemma {:induction false} TallyBounds(rows: seq<Row>, k: Key, part: Part)
    requires forall i :: 0 <= i < |rows| ==> RowOk(rows[i])
    ensures Tally(rows, k, part) >= 0.0
    ensures forall i :: 0 <= i < |rows| ==> 0.0 <= Weight(rows[i], k, part) <= Tally(rows, k, part)
  {
    if rows == [] {
    } else {
      var n := |rows| - 1;
      WeightSign(rows[n], k, part);
      hide RowOk, Weight;
      TallyBounds(rows[..n], k, part);
      assert forall i :: 0 <= i < n ==> rows[..n][i] == rows[i];
    }
  }

  lemma {:induction false} CreditSumUpdate(ds: seq<Deposit>, i: nat, d: Deposit, k: Key)
    requires i < |ds|
    ensures CreditSum(ds[i := d], k) == CreditSum(ds, k) - CreditOf(ds[i], k) + CreditOf(d, k)
  {
    var n := |ds| - 1;
    if i == n {
      assert ds[i := d][..n] == ds[..n];
    } else {
      assert ds[i := d][..n] == ds[..n][i := d];
      CreditSumUpdate(ds[..n], i, d, k);
    }
  }

  lemma {:induction false} CreditSumSame(ds: seq<Deposit>, ds': seq<Deposit>, k: Key)
    requires |ds| == |ds'| && forall i :: 0 <= i < |ds| ==> CreditOf(ds[i], k) == CreditOf(ds'[i], k)
    ensures CreditSum(ds, k) == CreditSum(ds', k)
  {
    if ds == [] {
    } else {
      var n := |ds| - 1;
      assert forall i :: 0 <= i < n ==> ds[..n][i] == ds[i] && ds'[..n][i] == ds'[i];
      CreditSumSame(ds[..n], ds'[..n], k);
    }
  }

  // ---------------------------------------------------------------- the clamps

  /** A withdrawal still on hold finds its whole amount frozen. */
  lemma HoldIsFrozen(s: State, others: Holds, id: RowId)
    requires Inv(s, others) && id < |s.rows| && Releases(s.rows[id].history) == 0
    ensures s.rows[id].key in s.table && s.table[s.rows[id].key].frozen >= s.rows[id].amount
  {
    assert FrozenAt(s, others, s.rows[id].key);
    TallyBounds(s.rows, s.rows[id].key, OnHold);
  }

  /** So neither clamp takes effect: unlocking moves the amount back, burning removes exactly the amount. */
  lemma ClampsAreIdle(t: Table, k: Key, amount: real)
    requires 0.0 < amount && k in t && t[k].frozen >= amount
    ensures UnfreezeMove(t, k, amount) == Moved(Unlock(t, k, amount))
    ensures DebitFrozenMove(t, k, amount) == Moved(Burn(t, k, amount))
  {
  }

  lemma ClampsNeverAct(s: State, others: Holds, w: ActorId)
    requires Inv(s, others) && w in s.jobs
    ensures var r := s.rows[s.jobs[w].id];
            && UnfreezeMove(s.table, r.key, r.amount) == Moved(Unlock(s.table, r.key, r.amount))
            && DebitFrozenMove(s.table, r.key, r.amount) == Moved(Burn(s.table, r.key, r.amount))
  {
    assert JobOk(s.rows, s.jobs[w]);
    HoldIsFrozen(s, others, s.jobs[w].id);
    var r := s.rows[s.jobs[w].id];
    assert RowOk(r);
    ClampsAreIdle(s.table, r.key, r.amount);
  }

  // ---------------------------------------------------------------- funds, step by step

  /** A step that rewrites one row: the funds equations need only hold of that row and the balance it touches. */
  lemma RowStepFunds(s: State, s': State, others: Holds, id: RowId, r: Row, k: Key)
    requires FrozenAt(s, others, k) && id < |s.rows| && s'.rows == s.rows[id := r] && s'.deposits == s.deposits
    requires At(s'.table, k).frozen - At(s.table, k).frozen == Weight(r, k, OnHold) - Weight(s.rows[id], k, OnHold)
    requires At(s'.table, k).available - At(s.table, k).available
          == Weight(s.rows[id], k, OnHold) - Weight(r, k, OnHold)
           + Weight(s.rows[id], k, Burned) - Weight(r, k, Burned)
           + Weight(s.rows[id], k, Dropped) - Weight(r, k, Dropped)
    ensures FrozenAt(s', others, k) && Book(s', k) == Book(s, k)
  {
    hide Tally, Weight, CreditSum, At;
    TallyUpdate(s.rows, id, r, k, OnHold);
    TallyUpdate(s.rows, id, r, k, Burned);
    TallyUpdate(s.rows, id, r, k, Dropped);
  }

  /** Nothing the sums look at. */
  predicate SameFunds(r: Row, r': Row) {
    && r'.key == r.key && r'.amount == r.amount && r'.history.unlocks == r.history.unlocks
    && r'.history.burns == r.history.burns && r'.history.rejects == r.history.rejects
  }

  lemma {:induction false} TallySame(rows: seq<Row>, rows': seq<Row>, k: Key, part: Part)
    requires |rows| == |rows'| && forall i :: 0 <= i < |rows| ==> SameFunds(rows[i], rows'[i])
    ensures Tally(rows, k, part) == Tally(rows', k, part)
  {
    if rows == [] {
    } else {
      var n := |rows| - 1;
      assert forall i :: 0 <= i < n ==> rows[..n][i] == rows[i] && rows'[..n][i] == rows'[i];
      TallySame(rows[..n], rows'[..n], k, part);
    }
  }

  lemma QuietFunds(s: State, s': State, others: Holds, k: Key)
    requires FrozenAt(s, others, k) && s'.table == s.table && s'.deposits == s.deposits
    requires AllSameFunds(s.rows, s'.rows)
    ensures FrozenAt(s', others, k) && Book(s', k) == Book(s, k)
  {
    hide Tally, CreditSum, At;
    TallySame(s.rows, s'.rows, k, OnHold);
    TallySame(s.rows, s'.rows, k, Burned);
    TallySame(s.rows, s'.rows, k, Dropped);
  }

  /** Everything but the five actions that move money. */
  predicate Quiet(a: Action) {
    !a.Create? && !a.Reject? && !a.UnlockStep? && !a.BurnStep? && !a.CommitPass?
  }

  ghost predicate AllSameFunds(rows: seq<Row>, rows': seq<Row>) {
    |rows'| == |rows| && forall i :: 0 <= i < |rows| ==> SameFunds(rows[i], rows'[i])
  }

  lemma UpdateStatusIsQuiet(rows: seq<Row>, id: RowId, from: Status, to: Status, msg: string)
    ensures AllSameFunds(rows, UpdateStatus(rows, id, from, to, msg))
  {
  }

  ghost predicate QuietlyTo(s: State, s': State) {
    AllSameFunds(s.rows, s'.rows) && s'.table == s.table && s'.deposits == s.deposits
  }

  /** Each worker action that only rewrites its row's status and counters. */
  lemma QuietClaim(s: State, w: ActorId, id: RowId)
    ensures QuietlyTo(s, ClaimStep(s, w, id))
  {
  }

  lemma QuietSign(s: State, w: ActorId, msg: string, recorded: bool)
    ensures QuietlyTo(s, SignFailsStep(s, w, msg, recorded))
    ensures QuietlyTo(s, SignOkStep(s, w))
    ensures QuietlyTo(s, DryRunStep(s, w, msg))
  {
    if Doing(s, w) {
      UpdateStatusIsQuiet(s.rows, s.jobs[w].id, Signing, Failed, msg);
      UpdateStatusIsQuiet(s.rows, s.jobs[w].id, Signing, Signed, msg);
    }
    hide UpdateStatus;
  }

  lemma QuietBroadcast(s: State, w: ActorId, msg: string, recorded: bool)
    ensures QuietlyTo(s, BroadcastFailsStep(s, w, msg))
    ensures QuietlyTo(s, BroadcastOkStep(s, w))
    ensures QuietlyTo(s, RecordStep(s, w, recorded))
  {
    if Doing(s, w) { UpdateStatusIsQuiet(s.rows, s.jobs[w].id, Signing, Broadcasted, ""); }
    hide UpdateStatus;
  }

  lemma QuietNotes(s: State, w: ActorId, recorded: bool)
    ensures QuietlyTo(s, NoteFailedStep(s, w, recorded))
    ensures QuietlyTo(s, NoteUnknownStep(s, w, recorded))
  {
    if Doing(s, w) && (s.jobs[w].Errored? || s.jobs[w].NotedFailed?) {
      UpdateStatusIsQuiet(s.rows, s.jobs[w].id, Broadcasted, Failed, s.jobs[w].msg);
      UpdateStatusIsQuiet(s.rows, s.jobs[w].id, Broadcasted, BroadcastUnknown, s.jobs[w].msg);
    }
    hide UpdateStatus;
  }

  lemma QuietWorkerStep(s: State, a: Action)
    requires ByWorker(a) && Quiet(a)
    ensures QuietlyTo(s, WorkerStep(s, a))
  {
    hide ClaimStep, SignFailsStep, SignOkStep, DryRunStep, BroadcastFailsStep, BroadcastOkStep, RecordStep, NoteFailedStep,
      NoteUnknownStep;
    match a
    case Claim(w, id) => QuietClaim(s, w, id);
    case SignFails(w, msg, recorded) => QuietSign(s, w, msg, recorded);
    case SignOk(w) => QuietSign(s, w, "", true);
    case DryRun(w, msg) => QuietSign(s, w, msg, true);
    case BroadcastFails(w, msg) => QuietBroadcast(s, w, msg, true);
    case BroadcastOk(w) => QuietBroadcast(s, w, "", true);
    case Record(w, recorded) => QuietBroadcast(s, w, "", recorded);
    case NoteFailed(w, recorded) => QuietNotes(s, w, recorded);
    case NoteUnknown(w, recorded) => QuietNotes(s, w, recorded);
    case Crash(_) =>
  }

  lemma QuietWatcherStep(s: State, a: Action)
    requires ByWatcher(a)
    ensures QuietlyTo(s, WatcherStep(s, a))
  {
    hide UnknownTicks.Bump, UnknownTicks.Count;
    if a.Demote? && a.id < |s.rows| {
      var m := s.rows[a.id].msg;
      UpdateStatusIsQuiet(s.rows, a.id, Broadcasted, BroadcastUnknown, m);
      UpdateStatusIsQuiet(UpdateStatus(s.rows, a.id, Broadcasted, BroadcastUnknown, m), a.id, InBlock, BroadcastUnknown, m);
    }
  }

  lemma QuietScannerStep(s: State, a: Action, k: Key)
    requires ByScanner(a) && Quiet(a)
    ensures CreditSum(ScannerStep(s, a).deposits, k) == CreditSum(s.deposits, k)
  {
    var s' := ScannerStep(s, a);
    if a.Detect? && a.amount > 0.0 {
      assert s'.deposits[..|s.deposits|] == s.deposits;
    } else if a.Promote? {
      CreditSumSame(s.deposits, s'.deposits, k);
    }
  }

  lemma QuietScannerTable(s: State, a: Action)
    requires ByScanner(a) && Quiet(a)
    ensures AllSameFunds(s.rows, ScannerStep(s, a).rows) && ScannerStep(s, a).table == s.table
  {
  }

  lemma QuietDeskStep(s: State, a: Action)
    requires ByDesk(a) && Quiet(a)
    ensures QuietlyTo(s, DeskStep(s, a))
  {
  }

  lemma QuietStepRows(s: State, a: Action)
    requires Quiet(a)
    ensures var s' := Step(s, a);
            && AllSameFunds(s.rows, s'.rows) && s'.table == s.table
            && (ByScanner(a) || s'.deposits == s.deposits)
  {
    hide WorkerStep, WatcherStep, DeskStep, ScannerStep, AllSameFunds;
    if ByDesk(a) { QuietDeskStep(s, a); }
    else if ByWatcher(a) { QuietWatcherStep(s, a); }
    else if ByWorker(a) { QuietWorkerStep(s, a); }
    else { QuietScannerTable(s, a); }
  }

  lemma QuietStepFunds(s: State, a: Action, others: Holds, k: Key)
    requires FrozenAt(s, others, k) && Quiet(a)
    ensures FrozenAt(Step(s, a), others, k) && Book(Step(s, a), k) == Book(s, k)
  {
    QuietStepRows(s, a);
    var s' := Step(s, a);
    QuietFunds(s, s'.(deposits := s.deposits), others, k);
    if ByScanner(a) { QuietScannerStep(s, a, k); }
  }

  lemma NewRowWeighs(k0: Key, amount: real, score: int, k: Key)
    ensures Weight(NewRow(k0, amount, score), k, OnHold) == if k == k0 then amount else 0.0
    ensures Weight(NewRow(k0, amount, score), k, Burned) == 0.0 && Weight(NewRow(k0, amount, score), k, Dropped) == 0.0
  {
  }

  /** One more row, whose amount went from available to frozen. */
  lemma AppendFunds(s: State, s': State, r: Row, others: Holds, k: Key)
    requires FrozenAt(s, others, k) && s'.rows == s.rows + [r] && s'.deposits == s.deposits
    requires Weight(r, k, Burned) == 0.0 && Weight(r, k, Dropped) == 0.0
    requires At(s'.table, k).frozen == At(s.table, k).frozen + Weight(r, k, OnHold)
    requires At(s'.table, k).available == At(s.table, k).available - Weight(r, k, OnHold)
    ensures FrozenAt(s', others, k) && Book(s', k) == Book(s, k)
  {
    hide Tally, Weight, CreditSum, At;
    TallyAppend(s.rows, r, k, OnHold);
    TallyAppend(s.rows, r, k, Burned);
    TallyAppend(s.rows, r, k, Dropped);
  }

  lemma CreateMoves(s: State, k0: Key, amount: real, score: int, idem: string, k: Key)
    ensures var s' := CreateStep(s, k0, amount, score, idem);
            s' == s || (&& s'.rows == s.rows + [NewRow(k0, amount, score)] && s'.deposits == s.deposits
                        && At(s'.table, k).frozen == At(s.table, k).frozen + (if k == k0 then amount else 0.0)
                        && At(s'.table, k).available == At(s.table, k).available - (if k == k0 then amount else 0.0))
  {
  }

  lemma CreateFunds(s: State, k0: Key, amount: real, score: int, idem: string, others: Holds, k: Key)
    requires FrozenAt(s, others, k)
    ensures var s' := CreateStep(s, k0, amount, score, idem);
            FrozenAt(s', others, k) && Book(s', k) == Book(s, k)
  {
    hide CreateStep, Book, FrozenAt, Weight, NewRow;
    var s' := CreateStep(s, k0, amount, score, idem);
    CreateMoves(s, k0, amount, score, idem, k);
    if s' != s {
      NewRowWeighs(k0, amount, score, k);
      AppendFunds(s, s', NewRow(k0, amount, score), others, k);
    }
  }

  lemma RejectFunds(s: State, id: RowId, note: string, others: Holds, k: Key)
    requires Inv(s, others)
    ensures var s' := RejectStep(s, id, note);
            FrozenAt(s', others, k) && Book(s', k) == Book(s, k)
  {
    assert FrozenAt(s, others, k);
    if Hits(s.rows, id, ManualReview) {
      assert RowOk(s.rows[id]);
      HoldIsFrozen(s, others, id);
      var s' := RejectStep(s, id, note);
      RowStepFunds(s, s', others, id, s'.rows[id], k);
    }
  }

  lemma BusyRow(s: State, w: ActorId, others: Holds, k: Key)
    requires Inv(s, others) && w in s.jobs
    ensures FrozenAt(s, others, k) && s.jobs[w].id < |s.rows|
    ensures var r := s.rows[s.jobs[w].id]; RowOk(r) && JobRowOk(r, s.jobs[w]) && r.amount > 0.0
  {
    hide FrozenAt, JobRowOk, StatusOk;
    assert JobOk(s.rows, s.jobs[w]);
  }

  lemma UnlockFunds(s: State, w: ActorId, others: Holds, k: Key)
    requires Inv(s, others) && w in s.jobs && s.jobs[w].Unlocking?
    ensures var s' := UnlockingStep(s, w);
            FrozenAt(s', others, k) && Book(s', k) == Book(s, k)
  {
    var id := s.jobs[w].id;
    BusyRow(s, w, others, k);
    hide Inv, RowOk, FrozenAt, Book;
    HoldIsFrozen(s, others, id);
    RowStepFunds(s, UnlockingStep(s, w), others, id, UnlockRow(s.rows[id]), k);
  }

  lemma BurnFunds(s: State, w: ActorId, others: Holds, k: Key)
    requires Inv(s, others) && w in s.jobs && s.jobs[w].Burning?
    ensures var s' := BurningStep(s, w);
            FrozenAt(s', others, k) && Book(s', k) == Book(s, k)
  {
    var id := s.jobs[w].id;
    BusyRow(s, w, others, k);
    hide Inv, RowOk, FrozenAt, Book;
    HoldIsFrozen(s, others, id);
    RowStepFunds(s, BurningStep(s, w), others, id, BurnRow(s.rows[id]), k);
  }

  /** The credit loop marks exactly the listed deposits. */
  lemma {:induction false} CreditAllMarks(t: Table, ds: seq<Deposit>, ids: seq<nat>)
    requires forall i :: 0 <= i < |ids| ==> ids[i] < |ds| && ds[ids[i]].status == Confirmed && ds[ids[i]].credits == 0
    requires forall i, j :: 0 <= i < j < |ids| ==> ids[i] != ids[j]
    ensures forall i :: 0 <= i < |ds| ==>
              CreditAll(t, ds, ids).1[i] == if i in ids then ds[i].(status := Credited, credits := 1) else ds[i]
    decreases |ids|
  {
    if ids == [] {
    } else {
      var (t1, ds1) := CreditOne(t, ds, ids[0]);
      CreditAllMarks(t1, ds1, ids[1..]);
      assert ids == [ids[0]] + ids[1..];
    }
  }

  /** It adds to each balance exactly what it adds to the credited deposits. */
  lemma {:induction false} CreditAllFunds(t: Table, ds: seq<Deposit>, ids: seq<nat>, k: Key)
    requires NonNegative(t)
    requires forall i :: 0 <= i < |ids| ==> ids[i] < |ds| && ds[ids[i]].status == Confirmed
                                            && ds[ids[i]].credits == 0 && ds[ids[i]].amount > 0.0
    requires forall i, j :: 0 <= i < j < |ids| ==> ids[i] != ids[j]
    ensures var (t', ds') := CreditAll(t, ds, ids);
            && NonNegative(t')
            && At(t', k).frozen == At(t, k).frozen
            && At(t', k).available - At(t, k).available == CreditSum(ds', k) - CreditSum(ds, k)
    decreases |ids|
  {
    if ids == [] {
    } else {
      var id := ids[0];
      var (t1, ds1) := CreditOne(t, ds, id);
      CreditSumUpdate(ds, id, ds1[id], k);
      CreditAllFunds(t1, ds1, ids[1..], k);
    }
  }

  lemma PassDeposits(s: State, p: ActorId)
    requires Core(s) && p in s.passes
    ensures var ids := s.passes[p];
            && (forall i :: 0 <= i < |ids| ==> ids[i] < |s.deposits| && s.deposits[ids[i]].status == Confirmed
                                               && s.deposits[ids[i]].credits == 0 && s.deposits[ids[i]].amount > 0.0)
            && forall i, j :: 0 <= i < j < |ids| ==> ids[i] != ids[j]
  {
    assert PassOk(s, s.passes[p]);
    forall i | 0 <= i < |s.passes[p]|
      ensures s.deposits[s.passes[p][i]].credits == 0 && s.deposits[s.passes[p][i]].amount > 0.0
    {
      assert DepositOk(s.deposits[s.passes[p][i]], s.maxHead);
    }
  }

  lemma CommitFunds(s: State, p: ActorId, others: Holds, k: Key)
    requires Inv(s, others)
    ensures var s' := ScannerStep(s, CommitPass(p));
            FrozenAt(s', others, k) && Book(s', k) == Book(s, k) && NonNegative(s'.table)
  {
    assert FrozenAt(s, others, k);
    if p in s.passes {
      PassDeposits(s, p);
      CreditAllFunds(s.table, s.deposits, s.passes[p], k);
    }
  }

  lemma DeskFunds(s: State, a: Action, others: Holds, k: Key)
    requires Inv(s, others) && ByDesk(a) && !Quiet(a)
    ensures FrozenAt(DeskStep(s, a), others, k) && Book(DeskStep(s, a), k) == Book(s, k)
    ensures NonNegative(DeskStep(s, a).table)
  {
    assert FrozenAt(s, others, k);
    if a.Create? {
      CreateFunds(s, a.key, a.amount, a.score, a.idem, others, k);
    } else {
      RejectFunds(s, a.id, a.note, others, k);
    }
  }

  lemma ReleaseStaysNonNegative(s: State, w: ActorId, others: Holds)
    requires Inv(s, others) && w in s.jobs
    ensures s.jobs[w].Unlocking? ==> NonNegative(UnlockingStep(s, w).table)
    ensures s.jobs[w].Burning? ==> NonNegative(BurningStep(s, w).table)
  {
    ClampsNeverAct(s, others, w);
    assert NonNegative(s.table);
    hide Inv;
  }

  lemma ReleaseFunds(s: State, a: Action, others: Holds, k: Key)
    requires Inv(s, others) && (a.UnlockStep? || a.BurnStep?)
    ensures FrozenAt(WorkerStep(s, a), others, k) && Book(WorkerStep(s, a), k) == Book(s, k)
    ensures NonNegative(WorkerStep(s, a).table)
  {
    assert FrozenAt(s, others, k) && NonNegative(s.table);
    hide FrozenAt, Book, Inv, UnlockingStep, BurningStep;
    var w := a.worker;
    if a.UnlockStep? && w in s.jobs && s.jobs[w].Unlocking? {
      UnlockFunds(s, w, others, k);
      ReleaseStaysNonNegative(s, w, others);
    } else if a.BurnStep? && w in s.jobs && s.jobs[w].Burning? {
      BurnFunds(s, w, others, k);
      ReleaseStaysNonNegative(s, w, others);
    }
  }

  /** No step of any actor changes the frozen equation or the book of any balance row. */
  lemma StepFunds(s: State, a: Action, others: Holds, k: Key)
    requires Inv(s, others)
    ensures FrozenAt(Step(s, a), others, k) && Book(Step(s, a), k) == Book(s, k)
    ensures NonNegative(Step(s, a).table)
  {
    if Quiet(a) {
      assert FrozenAt(s, others, k);
      QuietStepFunds(s, a, others, k);
      QuietStepRows(s, a);
    } else if ByDesk(a) {
      DeskFunds(s, a, others, k);
    } else if ByScanner(a) {
      CommitFunds(s, a.pass, others, k);
    } else {
      ReleaseFunds(s, a, others, k);
    }
  }

  // ---------------------------------------------------------------- rows, step by step

  /** A status either stays or moves strictly up in rank, one counted change at a time; counters never go down. */
  predicate Advances(r: Row, r': Row) {
    var h, h' := r.history, r'.history;
    && r'.key == r.key && r'.amount == r.amount
    && (if r'.status == r.status then h'.changes == h.changes
        else Rank(r'.status) > Rank(r.status) && h'.changes == h.changes + 1)
    && h.claims <= h'.claims && h.broadcasts <= h'.broadcasts
    && h.unlocks <= h'.unlocks && h.burns <= h'.burns && h.rejects <= h'.rejects
  }

  lemma AdvancesFromItself(r: Row)
    ensures Advances(r, r)
  {
  }

  /** Every status change of the code goes up in rank and leaves a good row. */
  lemma ShiftIsOk(r: Row, to: Status, msg: string)
    requires RowOk(r) && Rank(to) > Rank(r.status) && (OnChain(to) ==> UnknownTicks.TicksOnly(msg))
    requires Waiting(to) ==> Waiting(r.status)
    requires Waiting(r.status) ==> to == Pending || to == Rejected
    requires to == Signed ==> r.history.broadcasts == 0
    requires to != BroadcastUnknown && (OnChain(to) || to == Completed ==> r.history.broadcasts == 1)
    requires r.history.unlocks > 0 ==> to == Failed
    ensures RowOk(Shifted(r, to, msg)) && Advances(r, Shifted(r, to, msg))
  {
  }

  lemma NoTicks()
    ensures UnknownTicks.TicksOnly("")
  {
    assert UnknownTicks.AfterTicks(0) == "";
  }

  /** A step that rewrites one row keeps the rest of the core. */
  lemma RowChange(s: State, s': State, id: RowId, r: Row)
    requires Core(s) && id < |s.rows| && s'.rows == s.rows[id := r] && RowOk(r) && JobsOk(s')
    requires id in s.watched ==> WatchedOk(r)
    requires s'.watched == s.watched && s'.verdicts == s.verdicts
    requires s'.deposits == s.deposits && s'.passes == s.passes && s'.maxHead == s.maxHead
    ensures Core(s')
  {
    hide UnknownTicks.Count, UnknownTicks.TicksOnly;
    assert forall p <- s'.passes :: PassOk(s, s'.passes[p]) && PassOk(s', s'.passes[p]);
  }

  /** Only the worker on the row moves on; every other worker is on another row. */
  lemma WorkerMoves(s: State, s': State, w: ActorId, r: Row, job: Job)
    requires JobsOk(s) && w in s.jobs && job.id == s.jobs[w].id && s'.rows == s.rows[job.id := r]
    requires s'.jobs == s.jobs - {w} || (s'.jobs == s.jobs[w := job] && JobRowOk(r, job))
    ensures JobsOk(s')
  {
    hide UnknownTicks.Count, UnknownTicks.TicksOnly;
    assert JobOk(s.rows, s.jobs[w]);
    forall v | v in s'.jobs ensures JobOk(s'.rows, s'.jobs[v]) {
      if v != w { assert v in s.jobs && JobOk(s.rows, s.jobs[v]); }
    }
  }

  lemma WorkerStarts(s: State, s': State, w: ActorId, r: Row, id: RowId)
    requires JobsOk(s) && w !in s.jobs && id < |s.rows| && s.rows[id].history.claims == 0
    requires s'.rows == s.rows[id := r] && s'.jobs == s.jobs[w := Claimed(id)] && JobRowOk(r, Claimed(id))
    ensures JobsOk(s')
  {
    hide UnknownTicks.Count, UnknownTicks.TicksOnly;
    forall v | v in s.jobs ensures s.jobs[v].id != id && JobOk(s'.rows, s.jobs[v]) {
      assert JobOk(s.rows, s.jobs[v]);
    }
  }

  /** A row some actor other than a worker changes: whoever works on it can live with the change. */
  lemma OthersMove(s: State, s': State, id: RowId, r: Row)
    requires JobsOk(s) && id < |s.rows| && s'.rows == s.rows[id := r] && s'.jobs == s.jobs
    requires forall w <- s.jobs :: s.jobs[w].id == id ==> JobRowOk(r, s.jobs[w])
    ensures JobsOk(s')
  {
    hide UnknownTicks.Count, UnknownTicks.TicksOnly;
    forall w | w in s'.jobs ensures JobOk(s'.rows, s'.jobs[w]) {
      assert JobOk(s.rows, s.jobs[w]);
    }
  }

  /** One row, `id`, was rewritten to a good later version of itself; the core still holds. */
  ghost predicate Rewrote(s: State, s': State, id: RowId) {
    && id < |s.rows| && |s'.rows| == |s.rows| && s'.rows == s.rows[id := s'.rows[id]]
    && RowOk(s'.rows[id]) && Advances(s.rows[id], s'.rows[id]) && Core(s')
  }

  // -------- workers

  /** What the core says about the row a worker is on. */
  lemma WorkerSees(s: State, w: ActorId)
    requires Core(s) && w in s.jobs
    ensures var id := s.jobs[w].id;
            && id < |s.rows| && JobRowOk(s.rows[id], s.jobs[w]) && RowOk(s.rows[id])
            && (id in s.watched ==> WatchedOk(s.rows[id]))
  {
    hide RowOk, CountsOk, StatusOk, JobRowOk, WatchedOk;
    assert JobOk(s.rows, s.jobs[w]);
  }

  /** A worker rewrites its row and moves on, or is done with it. */
  lemma WorkerRewrites(s: State, s': State, w: ActorId, r: Row, next: Option<Job>)
    requires Core(s) && w in s.jobs && s.jobs[w].id < |s.rows|
    requires s'.rows == s.rows[s.jobs[w].id := r]
    requires s'.jobs == if next.Some? then s.jobs[w := next.value] else s.jobs - {w}
    requires s'.watched == s.watched && s'.verdicts == s.verdicts
    requires s'.deposits == s.deposits && s'.passes == s.passes && s'.maxHead == s.maxHead
    requires next.Some? ==> next.value.id == s.jobs[w].id && JobRowOk(r, next.value)
    requires RowOk(r) && Advances(s.rows[s.jobs[w].id], r) && (s.jobs[w].id in s.watched ==> WatchedOk(r))
    ensures Rewrote(s, s', s.jobs[w].id)
  {
    hide RowOk, CountsOk, StatusOk, JobRowOk, WatchedOk, Advances, JobsOk;
    var id := s.jobs[w].id;
    WorkerMoves(s, s', w, r, if next.Some? then next.value else s.jobs[w]);
    RowChange(s, s', id, r);
  }

  lemma ClaimKeeps(s: State, w: ActorId, id: RowId)
    requires Core(s) && w !in s.jobs && Hits(s.rows, id, Pending)
    ensures Rewrote(s, ClaimStep(s, w, id), id)
  {
    var s' := ClaimStep(s, w, id);
    ClaimedRowIsOk(s, id, s'.rows[id]);
    hide RowOk, CountsOk, StatusOk, JobRowOk, WatchedOk, Advances, JobsOk;
    WorkerStarts(s, s', w, s'.rows[id], id);
    RowChange(s, s', id, s'.rows[id]);
  }

  lemma ClaimedRowIsOk(s: State, id: RowId, r: Row)
    requires Core(s) && Hits(s.rows, id, Pending)
    requires var t := Shifted(s.rows[id], Signing, ""); r == t.(history := t.history.(claims := t.history.claims + 1))
    ensures s.rows[id].history.claims == 0 && id !in s.watched
    ensures RowOk(r) && Advances(s.rows[id], r) && JobRowOk(r, Claimed(id))
  {
    hide UnknownTicks.Count, UnknownTicks.TicksOnly, JobsOk, PassesOk;
    assert RowOk(s.rows[id]);
    assert id in s.watched ==> WatchedOk(s.rows[id]);
  }

  lemma SignFailsKeeps(s: State, w: ActorId, msg: string, recorded: bool)
    requires Core(s) && w in s.jobs && s.jobs[w].Claimed?
    ensures Rewrote(s, SignFailsStep(s, w, msg, recorded), s.jobs[w].id)
  {
    hide UnknownTicks.Count, UnknownTicks.TicksOnly, Core;
    WorkerSees(s, w);
    var id := s.jobs[w].id;
    ShiftIsOk(s.rows[id], Failed, msg);
    AdvancesFromItself(s.rows[id]);
    var s' := SignFailsStep(s, w, msg, recorded);
    WorkerRewrites(s, s', w, s'.rows[id], Some(Unlocking(id)));
  }

  lemma DryRunKeeps(s: State, w: ActorId, msg: string)
    requires Core(s) && w in s.jobs && s.jobs[w].Claimed?
    ensures Rewrote(s, DryRunStep(s, w, msg), s.jobs[w].id)
  {
    hide UnknownTicks.Count, UnknownTicks.TicksOnly, Core;
    WorkerSees(s, w);
    var id := s.jobs[w].id;
    ShiftIsOk(s.rows[id], Signed, msg);
    var s' := DryRunStep(s, w, msg);
    WorkerRewrites(s, s', w, s'.rows[id], None);
  }

  lemma SignOkKeeps(s: State, w: ActorId)
    requires Core(s) && w in s.jobs && s.jobs[w].Claimed?
    ensures Rewrote(s, SignOkStep(s, w), s.jobs[w].id)
  {
    hide UnknownTicks.Count, UnknownTicks.TicksOnly, Core;
    WorkerSees(s, w);
    var id := s.jobs[w].id;
    AdvancesFromItself(s.rows[id]);
    WorkerRewrites(s, SignOkStep(s, w), w, s.rows[id], Some(Ready(id)));
  }

  lemma BroadcastFailsKeeps(s: State, w: ActorId, msg: string)
    requires Core(s) && w in s.jobs && s.jobs[w].Ready?
    ensures Rewrote(s, BroadcastFailsStep(s, w, msg), s.jobs[w].id)
  {
    hide UnknownTicks.Count, UnknownTicks.TicksOnly, Core;
    WorkerSees(s, w);
    var id := s.jobs[w].id;
    WorkerRewrites(s, BroadcastFailsStep(s, w, msg), w, CalledRow(s.rows[id]), Some(Errored(id, msg)));
  }

  /** After a broadcast error the row is in SIGNING, so neither UPDATE meant to leave BROADCASTED touches it. */
  lemma NoteKeeps(s: State, w: ActorId, recorded: bool)
    requires Core(s) && w in s.jobs && (s.jobs[w].Errored? || s.jobs[w].NotedFailed?)
    ensures s.jobs[w].Errored? ==> Rewrote(s, NoteFailedStep(s, w, recorded), s.jobs[w].id)
    ensures s.jobs[w].NotedFailed? ==> Rewrote(s, NoteUnknownStep(s, w, recorded), s.jobs[w].id)
  {
    hide UnknownTicks.Count, UnknownTicks.TicksOnly, Core;
    WorkerSees(s, w);
    var id, msg := s.jobs[w].id, s.jobs[w].msg;
    AdvancesFromItself(s.rows[id]);
    if s.jobs[w].Errored? {
      WorkerRewrites(s, NoteFailedStep(s, w, recorded), w, s.rows[id], Some(NotedFailed(id, msg)));
    } else {
      WorkerRewrites(s, NoteUnknownStep(s, w, recorded), w, s.rows[id], None);
    }
  }

  lemma BroadcastOkKeeps(s: State, w: ActorId)
    requires Core(s) && w in s.jobs && s.jobs[w].Ready?
    ensures Rewrote(s, BroadcastOkStep(s, w), s.jobs[w].id)
  {
    hide UnknownTicks.Count, UnknownTicks.TicksOnly, Core;
    WorkerSees(s, w);
    var id := s.jobs[w].id;
    WorkerRewrites(s, BroadcastOkStep(s, w), w, CalledRow(s.rows[id]), Some(Sent(id)));
  }

  lemma RecordKeeps(s: State, w: ActorId, recorded: bool)
    requires Core(s) && w in s.jobs && s.jobs[w].Sent?
    ensures Rewrote(s, RecordStep(s, w, recorded), s.jobs[w].id)
  {
    NoTicks();
    hide UnknownTicks.Count, UnknownTicks.TicksOnly, Core;
    WorkerSees(s, w);
    var id := s.jobs[w].id;
    ShiftIsOk(s.rows[id], Broadcasted, "");
    AdvancesFromItself(s.rows[id]);
    var s' := RecordStep(s, w, recorded);
    WorkerRewrites(s, s', w, s'.rows[id], if recorded then Some(Burning(id)) else None);
  }

  lemma UnlockingKeeps(s: State, w: ActorId)
    requires Core(s) && w in s.jobs && s.jobs[w].Unlocking?
    ensures Rewrote(s, UnlockingStep(s, w), s.jobs[w].id)
  {
    hide UnknownTicks.Count, UnknownTicks.TicksOnly, Core, Unlock;
    WorkerSees(s, w);
    WorkerRewrites(s, UnlockingStep(s, w), w, UnlockRow(s.rows[s.jobs[w].id]), None);
  }

  lemma BurningKeeps(s: State, w: ActorId)
    requires Core(s) && w in s.jobs && s.jobs[w].Burning?
    ensures Rewrote(s, BurningStep(s, w), s.jobs[w].id)
  {
    hide UnknownTicks.Count, UnknownTicks.TicksOnly, Core, Burn;
    WorkerSees(s, w);
    WorkerRewrites(s, BurningStep(s, w), w, BurnRow(s.rows[s.jobs[w].id]), None);
  }

  /** Losing a worker at any point leaves a good state. */
  lemma CrashKeeps(s: State, w: ActorId)
    requires Core(s)
    ensures Core(s.(jobs := s.jobs - {w}))
  {
    hide RowOk, CountsOk, StatusOk, WatchedOk, DepositOk, JobsOk, PassOk;
    var s' := s.(jobs := s.jobs - {w});
    JobsWithout(s, s', w);
    PassesLookAtDeposits(s', s);
  }

  lemma JobsWithout(s: State, s': State, w: ActorId)
    requires JobsOk(s) && s'.rows == s.rows && s'.jobs == s.jobs - {w}
    ensures JobsOk(s')
  {
    hide JobRowOk;
    forall v | v in s'.jobs ensures JobOk(s'.rows, s'.jobs[v]) { assert JobOk(s.rows, s.jobs[v]); }
  }

  /** Every row either stays or is rewritten to a good later version. */
  ghost predicate Kept(s: State, s': State) {
    && Core(s') && |s'.rows| >= |s.rows|
    && forall i :: 0 <= i < |s.rows| ==> Advances(s.rows[i], s'.rows[i])
  }

  lemma RewroteIsKept(s: State, s': State, id: RowId)
    requires Rewrote(s, s', id)
    ensures Kept(s, s')
  {
    hide UnknownTicks.Count, UnknownTicks.TicksOnly;
    forall i | 0 <= i < |s.rows| ensures Advances(s.rows[i], s'.rows[i]) {
      AdvancesFromItself(s.rows[i]);
    }
  }

  lemma SameRowsKept(s: State, s': State)
    requires Core(s') && s.rows <= s'.rows
    ensures Kept(s, s')
  {
    hide UnknownTicks.Count, UnknownTicks.TicksOnly;
    forall i | 0 <= i < |s.rows| ensures Advances(s.rows[i], s'.rows[i]) {
      AdvancesFromItself(s.rows[i]);
    }
  }

  lemma WorkerKeeps(s: State, a: Action)
    requires Core(s) && ByWorker(a)
    ensures Kept(s, WorkerStep(s, a))
  {
    var w, s' := a.worker, WorkerStep(s, a);
    if a.Crash? {
      CrashKeeps(s, w);
      SameRowsKept(s, s');
    } else if s' == s {
      SameRowsKept(s, s');
    } else if a.Claim? {
      ClaimKeeps(s, w, a.id);
      RewroteIsKept(s, s', a.id);
    } else {
      var id := s.jobs[w].id;
      match a
      case SignFails(_, msg, recorded) => SignFailsKeeps(s, w, msg, recorded); RewroteIsKept(s, s', id);
      case SignOk(_) => SignOkKeeps(s, w); RewroteIsKept(s, s', id);
      case DryRun(_, msg) => DryRunKeeps(s, w, msg); RewroteIsKept(s, s', id);
      case BroadcastFails(_, msg) => BroadcastFailsKeeps(s, w, msg); RewroteIsKept(s, s', id);
      case NoteFailed(_, recorded) => NoteKeeps(s, w, recorded); RewroteIsKept(s, s', id);
      case NoteUnknown(_, recorded) => NoteKeeps(s, w, recorded); RewroteIsKept(s, s', id);
      case BroadcastOk(_) => BroadcastOkKeeps(s, w); RewroteIsKept(s, s', id);
      case Record(_, recorded) => RecordKeeps(s, w, recorded); RewroteIsKept(s, s', id);
      case UnlockStep(_) => UnlockingKeeps(s, w); RewroteIsKept(s, s', id);
      case BurnStep(_) => BurningKeeps(s, w); RewroteIsKept(s, s', id);
    }
  }

  // -------- watchers

  /** The message of a reverted transaction counts no ticks, and neither does an empty one. */
  lemma NoTicksInRevert()
    ensures UnknownTicks.Count(REVERTED) == 0 && UnknownTicks.Count("") == 0
  {
    UnknownTicks.TicksNeverReachThreshold(0);
    assert UnknownTicks.AfterTicks(0) == "";
    NoEqualsInRevert();
    forall p ensures !UnknownTicks.OccursAt(REVERTED, UnknownTicks.PREFIX, p) { NoEqualsNoPrefix(REVERTED, p); }
  }

  lemma NoEqualsInRevert()
    ensures '=' !in REVERTED
  {
    var a, b, c := "contract reverted on chain; ", "frozen balance burned, ", "manual credit required";
    assert '=' !in a && '=' !in b && '=' !in c;
    assert REVERTED == a + b + c;
  }

  lemma NoEqualsNoPrefix(s: string, p: int)
    requires '=' !in s
    ensures !UnknownTicks.OccursAt(s, UnknownTicks.PREFIX, p)
  {
    if 0 <= p <= |s| - |UnknownTicks.PREFIX| {
      assert s[p..p + |UnknownTicks.PREFIX|][13] == s[p + 13];
      assert s[p + 13] in s && UnknownTicks.PREFIX[13] == '=';
    }
  }

  /** One more tick on a message of ticks is a message of ticks, and counts less than the threshold. */
  lemma TickKeepsTicks(msg: string)
    requires UnknownTicks.TicksOnly(msg)
    ensures UnknownTicks.TicksOnly(UnknownTicks.Bump(msg))
    ensures UnknownTicks.Count(UnknownTicks.Bump(msg)) < UnknownTicks.THRESHOLD
    ensures UnknownTicks.Count(msg) < UnknownTicks.THRESHOLD
  {
    UnknownTicks.BumpIsATick(msg);
    UnknownTicks.TicksStayFew(msg);
    UnknownTicks.TicksStayFew(UnknownTicks.Bump(msg));
  }

  lemma SeenKeeps(s: State, id: RowId, from: Status, to: Status, msg: string)
    requires Core(s) && id in s.watched && OnChain(from) && Rank(to) > Rank(from)
    requires (to == InBlock && msg == "") || (to == Completed && msg == "") || (to == Failed && msg == REVERTED)
    ensures Kept(s, s.(rows := UpdateStatus(s.rows, id, from, to, msg)))
  {
    var s' := s.(rows := UpdateStatus(s.rows, id, from, to, msg));
    if Hits(s.rows, id, from) {
      var r := s.rows[id];
      assert RowOk(r) && WatchedOk(r);
      NoTicks();
      NoTicksInRevert();
      ShiftIsOk(r, to, msg);
      forall w | w in s.jobs && s.jobs[w].id == id ensures JobRowOk(s'.rows[id], s.jobs[w]) {
        assert JobOk(s.rows, s.jobs[w]);
      }
      OthersMove(s, s', id, s'.rows[id]);
      RowChange(s, s', id, s'.rows[id]);
      RewroteIsKept(s, s', id);
    } else {
      SameRowsKept(s, s');
    }
  }

  lemma TickKeeps(s: State, id: RowId)
    requires Core(s) && id in s.watched && OnChain(s.rows[id].status)
    ensures Kept(s, s.(rows := s.rows[id := s.rows[id].(msg := UnknownTicks.Bump(s.rows[id].msg))]))
  {
    var r := s.rows[id];
    var s' := s.(rows := s.rows[id := r.(msg := UnknownTicks.Bump(r.msg))]);
    assert RowOk(r) && WatchedOk(r);
    TickKeepsTicks(r.msg);
    forall w | w in s.jobs && s.jobs[w].id == id ensures JobRowOk(s'.rows[id], s.jobs[w]) {
      assert JobOk(s.rows, s.jobs[w]);
    }
    OthersMove(s, s', id, s'.rows[id]);
    RowChange(s, s', id, s'.rows[id]);
    RewroteIsKept(s, s', id);
  }

  lemma OnChainIsWatchable(r: Row)
    requires RowOk(r) && OnChain(r.status)
    ensures WatchedOk(r)
  {
    TickKeepsTicks(r.msg);
    hide UnknownTicks.TicksOnly, UnknownTicks.Count, UnknownTicks.Bump;
  }

  lemma WatchKeeps(s: State, id: RowId)
    requires Core(s) && id < |s.rows| && OnChain(s.rows[id].status)
    ensures Kept(s, s.(watched := s.watched + {id}))
  {
    OnChainIsWatchable(s.rows[id]);
    hide RowOk, CountsOk, StatusOk, WatchedOk, DepositOk, JobsOk, PassOk, OnChain;
    var s' := s.(watched := s.watched + {id});
    JobsLookAtRows(s', s);
    PassesLookAtDeposits(s', s);
    SameRowsKept(s, s');
  }

  lemma WatcherKeeps(s: State, a: Action)
    requires Core(s) && ByWatcher(a)
    ensures Kept(s, WatcherStep(s, a))
  {
    var s' := WatcherStep(s, a);
    if s' == s {
      SameRowsKept(s, s');
    } else if a.Watch? {
      WatchKeeps(s, a.id);
    } else {
      assert WatchedOk(s.rows[a.id]);
      match a
      case SeeInBlock(id) => SeenKeeps(s, id, Broadcasted, InBlock, "");
      case SeeSuccess(id, first) => SeenKeeps(s, id, if first then InBlock else Broadcasted, Completed, "");
      case SeeRevert(id, first) => SeenKeeps(s, id, if first then InBlock else Broadcasted, Failed, REVERTED);
      case Tick(id) => TickKeeps(s, id);
      case _ =>
    }
  }

  // -------- users and admins

  lemma InitialWaits(score: int)
    ensures Waiting(InitialStatus(score))
  {
  }

  lemma FreshCountsAreOk(r: Row)
    requires r.amount > 0.0 && Waiting(r.status) && r.history == History(0, 0, 0, 0, 0, 0)
    ensures CountsOk(r)
  {
  }

  lemma WaitingIsOk(r: Row)
    requires Waiting(r.status)
    ensures StatusOk(r)
  {
    hide UnknownTicks.TicksOnly;
  }

  lemma NewRowIsOk(k: Key, amount: real, score: int)
    requires amount > 0.0
    ensures RowOk(NewRow(k, amount, score))
  {
    hide CountsOk, StatusOk, InitialStatus, Waiting;
    InitialWaits(score);
    FreshCountsAreOk(NewRow(k, amount, score));
    WaitingIsOk(NewRow(k, amount, score));
  }

  lemma JobsSurviveAppend(s: State, rows: seq<Row>)
    requires JobsOk(s) && s.rows <= rows
    ensures JobsOk(s.(rows := rows))
  {
    hide JobRowOk;
    forall w | w in s.jobs ensures JobOk(rows, s.jobs[w]) { assert JobOk(s.rows, s.jobs[w]); }
  }

  lemma CreateKeeps(s: State, k: Key, amount: real, score: int, idem: string)
    requires Core(s)
    ensures Kept(s, CreateStep(s, k, amount, score, idem))
  {
    hide RowOk, CountsOk, StatusOk, WatchedOk, JobsOk, NewRow, PassOk;
    var s' := CreateStep(s, k, amount, score, idem);
    if s' != s {
      NewRowIsOk(k, amount, score);
      JobsSurviveAppend(s, s'.rows);
      JobsLookAtRows(s', s.(rows := s'.rows));
      PassesLookAtDeposits(s', s);
      assert s'.rows == s.rows + [NewRow(k, amount, score)];
      forall i | 0 <= i < |s'.rows| ensures RowOk(s'.rows[i]) {
        if i < |s.rows| { assert RowOk(s.rows[i]); }
      }
      forall i | i in s'.watched ensures i < |s'.rows| && WatchedOk(s'.rows[i]) {
        assert WatchedOk(s.rows[i]);
      }
      assert Core(s');
    }
    SameRowsKept(s, s');
  }

  lemma JobsLookAtRows(s: State, t: State)
    requires JobsOk(t) && s.rows == t.rows && s.jobs == t.jobs
    ensures JobsOk(s)
  {
  }

  lemma PassesLookAtDeposits(s: State, t: State)
    requires PassesOk(t) && s.deposits == t.deposits && s.passes == t.passes
    ensures PassesOk(s)
  {
    forall p | p in s.passes ensures PassOk(s, s.passes[p]) { assert PassOk(t, t.passes[p]); }
  }

  lemma AdmitKeeps(s: State, id: RowId, from: Status, msg: string)
    requires Core(s) && (from == RiskCheck || from == ManualReview)
    ensures Kept(s, s.(rows := UpdateStatus(s.rows, id, from, Pending, msg)))
  {
    hide UnknownTicks.Count, UnknownTicks.TicksOnly;
    var s' := s.(rows := UpdateStatus(s.rows, id, from, Pending, msg));
    if Hits(s.rows, id, from) {
      assert RowOk(s.rows[id]);
      ShiftIsOk(s.rows[id], Pending, msg);
      forall w | w in s.jobs ensures s.jobs[w].id != id { assert JobOk(s.rows, s.jobs[w]); }
      OthersMove(s, s', id, s'.rows[id]);
      RowChange(s, s', id, s'.rows[id]);
      RewroteIsKept(s, s', id);
    } else {
      SameRowsKept(s, s');
    }
  }

  lemma RejectKeeps(s: State, id: RowId, note: string)
    requires Core(s)
    ensures Kept(s, RejectStep(s, id, note))
  {
    hide UnknownTicks.Count, UnknownTicks.TicksOnly;
    var s' := RejectStep(s, id, note);
    if Hits(s.rows, id, ManualReview) {
      assert RowOk(s.rows[id]);
      forall w | w in s.jobs ensures s.jobs[w].id != id { assert JobOk(s.rows, s.jobs[w]); }
      OthersMove(s, s', id, s'.rows[id]);
      RowChange(s, s', id, s'.rows[id]);
      RewroteIsKept(s, s', id);
    } else {
      SameRowsKept(s, s');
    }
  }

  lemma DeskKeeps(s: State, a: Action)
    requires Core(s) && ByDesk(a)
    ensures Kept(s, DeskStep(s, a))
  {
    match a
    case Create(k, amount, score, idem) => CreateKeeps(s, k, amount, score, idem);
    case Confirm(id, user) =>
      if id < |s.rows| && s.rows[id].key.user == user { AdmitKeeps(s, id, RiskCheck, s.rows[id].msg); }
      else { SameRowsKept(s, s); }
    case Approve(id) => AdmitKeeps(s, id, ManualReview, "");
    case Reject(id, note) => RejectKeeps(s, id, note);
  }

  // -------- scanners

  lemma DepositsKeep(s: State, s': State)
    requires Core(s) && s'.rows == s.rows && s'.jobs == s.jobs && s'.watched == s.watched && s'.verdicts == s.verdicts
    requires forall i :: 0 <= i < |s'.deposits| ==> DepositOk(s'.deposits[i], s'.maxHead)
    requires PassesOk(s')
    ensures Kept(s, s')
  {
    hide UnknownTicks.Count, UnknownTicks.TicksOnly;
    SameRowsKept(s, s');
  }

  lemma PromoteKeeps(s: State, head: int)
    requires Core(s)
    ensures Kept(s, ScannerStep(s, Promote(head)))
  {
    hide UnknownTicks.Count, UnknownTicks.TicksOnly;
    var s' := ScannerStep(s, Promote(head));
    forall i | 0 <= i < |s'.deposits| ensures DepositOk(s'.deposits[i], s'.maxHead) {
      assert DepositOk(s.deposits[i], s.maxHead);
    }
    forall p | p in s'.passes ensures PassOk(s', s'.passes[p]) { assert PassOk(s, s.passes[p]); }
    DepositsKeep(s, s');
  }

  lemma DetectKeeps(s: State, k: Key, amount: real, block: Option<int>)
    requires Core(s)
    ensures Kept(s, ScannerStep(s, Detect(k, amount, block)))
  {
    hide UnknownTicks.Count, UnknownTicks.TicksOnly;
    var s' := ScannerStep(s, Detect(k, amount, block));
    forall p | p in s'.passes ensures PassOk(s', s'.passes[p]) { assert PassOk(s, s.passes[p]); }
    DepositsKeep(s, s');
  }

  lemma BeginPassKeeps(s: State, p: ActorId, ids: seq<nat>)
    requires Core(s)
    ensures Kept(s, ScannerStep(s, BeginPass(p, ids)))
  {
    hide UnknownTicks.Count, UnknownTicks.TicksOnly;
    var s' := ScannerStep(s, BeginPass(p, ids));
    if s' != s {
      forall q | q in s'.passes ensures PassOk(s', s'.passes[q]) { if q != p { assert PassOk(s, s.passes[q]); } }
      forall q, i | q in s.passes && i in s.passes[q] ensures i !in ids { assert Locked(s, i); }
    }
    DepositsKeep(s, s');
  }

  lemma AbortPassKeeps(s: State, p: ActorId)
    requires Core(s)
    ensures Kept(s, ScannerStep(s, AbortPass(p)))
  {
    hide UnknownTicks.Count, UnknownTicks.TicksOnly;
    var s' := ScannerStep(s, AbortPass(p));
    forall q | q in s'.passes ensures PassOk(s', s'.passes[q]) { assert PassOk(s, s.passes[q]); }
    DepositsKeep(s, s');
  }

  /** A committed pass credits exactly the rows it locked. */
  lemma CommitCredits(s: State, p: ActorId)
    requires Core(s) && p in s.passes
    ensures var s' := ScannerStep(s, CommitPass(p));
            && s'.passes == s.passes - {p} && |s'.deposits| == |s.deposits|
            && forall i :: 0 <= i < |s.deposits| ==>
                 && s'.deposits[i] == (if i in s.passes[p] then s.deposits[i].(status := Credited, credits := 1)
                                       else s.deposits[i])
                 && (i in s.passes[p] ==> s.deposits[i].status == Confirmed && s.deposits[i].credits == 0)
  {
    PassDeposits(s, p);
    CreditAllMarks(s.table, s.deposits, s.passes[p]);
  }

  lemma PassSurvives(s: State, ds: seq<Deposit>, p: ActorId, q: ActorId)
    requires PassesOk(s) && p in s.passes && q in s.passes && p != q && |ds| == |s.deposits|
    requires forall i :: 0 <= i < |ds| && i !in s.passes[p] ==> ds[i] == s.deposits[i]
    ensures PassOk(s.(deposits := ds), s.passes[q])
  {
    assert PassOk(s, s.passes[q]);
    forall i | 0 <= i < |s.passes[q]| ensures ds[s.passes[q][i]].status == Confirmed {
      assert s.passes[q][i] in s.passes[q] && s.passes[q][i] !in s.passes[p];
    }
  }

  lemma CommitPassKeeps(s: State, p: ActorId)
    requires Core(s)
    ensures Kept(s, ScannerStep(s, CommitPass(p)))
  {
    hide UnknownTicks.Count, UnknownTicks.TicksOnly;
    var s' := ScannerStep(s, CommitPass(p));
    if p in s.passes {
      CommitCredits(s, p);
      forall q | q in s'.passes ensures PassOk(s', s'.passes[q]) {
        PassSurvives(s, s'.deposits, p, q);
        assert PassOk(s.(deposits := s'.deposits), s'.passes[q]);
      }
      forall i | 0 <= i < |s'.deposits| ensures DepositOk(s'.deposits[i], s'.maxHead) {
        assert DepositOk(s.deposits[i], s.maxHead);
      }
    }
    DepositsKeep(s, s');
  }

  lemma ScannerKeeps(s: State, a: Action)
    requires Core(s) && ByScanner(a)
    ensures Kept(s, ScannerStep(s, a))
  {
    match a
    case Detect(k, amount, block) => DetectKeeps(s, k, amount, block);
    case Promote(head) => PromoteKeeps(s, head);
    case BeginPass(p, ids) => BeginPassKeeps(s, p, ids);
    case CommitPass(p) => CommitPassKeeps(s, p);
    case AbortPass(p) => AbortPassKeeps(s, p);
  }

  // ---------------------------------------------------------------- every run

  lemma StepKeepsCore(s: State, a: Action)
    requires Core(s)
    ensures Kept(s, Step(s, a))
  {
    if ByDesk(a) { DeskKeeps(s, a); }
    else if ByWatcher(a) { WatcherKeeps(s, a); }
    else if ByScanner(a) { ScannerKeeps(s, a); }
    else { WorkerKeeps(s, a); }
  }

  lemma StepKeepsInv(s: State, a: Action, others: Holds)
    requires Inv(s, others)
    ensures Inv(Step(s, a), others) && Kept(s, Step(s, a))
    ensures forall k :: Book(Step(s, a), k) == Book(s, k)
  {
    StepKeepsCore(s, a);
    StepFunds(s, a, others, Key(0, ""));
    forall k ensures FrozenAt(Step(s, a), others, k) && Book(Step(s, a), k) == Book(s, k) {
      StepFunds(s, a, others, k);
    }
  }

  /** How a row can look after a run: it never goes back, and its status changed at most as often as its rank rose. */
  predicate Later(r: Row, r': Row) {
    var h, h' := r.history, r'.history;
    && r'.key == r.key && r'.amount == r.amount
    && 0 <= h'.changes - h.changes <= Rank(r'.status) - Rank(r.status)
    && (h'.changes == h.changes ==> r'.status == r.status)
    && h.claims <= h'.claims && h.broadcasts <= h'.broadcasts
    && h.unlocks <= h'.unlocks && h.burns <= h'.burns && h.rejects <= h'.rejects
  }

  /** Whatever the actors do, in whatever order, with workers dying anywhere: the invariant holds, every book
      balances, and every row only moves forward. */
  lemma {:induction false} RunKeepsInv(s: State, actions: seq<Action>, others: Holds)
    requires Inv(s, others)
    ensures var s' := Run(s, actions);
            && Inv(s', others) && |s'.rows| >= |s.rows|
            && (forall k :: Book(s', k) == Book(s, k))
            && forall i :: 0 <= i < |s.rows| ==> Later(s.rows[i], s'.rows[i])
    decreases |actions|
  {
    if actions == [] {
    } else {
      var s1 := Step(s, actions[0]);
      StepKeepsInv(s, actions[0], others);
      RunKeepsInv(s1, actions[1..], others);
      assert forall i :: 0 <= i < |s.rows| ==> Advances(s.rows[i], s1.rows[i]) && Later(s1.rows[i], Run(s, actions).rows[i]);
    }
  }

  /** The daemons' first state on a balance table whose frozen parts all belong to others. */
  function Start(table: Table): State {
    State(table, [], map[], map[], {}, {}, [], map[], 0)
  }

  ghost predicate FrozenForOthers(table: Table, others: Holds) {
    && NonNegative(table) && (forall k <- others :: others[k] >= 0.0)
    && forall k: Key :: At(table, k).frozen == Held(others, k)
  }

  /** Every withdrawal, in every interleaving: claimed at most once, broadcast at most once, released at most once
      (unlocked, burned or rejected, never two of them), unlocked only if it was never broadcast, burned only if it
      was, and through at most five status changes; no row is ever demoted to BROADCAST_UNKNOWN. */
  lemma AtMostOnce(table: Table, actions: seq<Action>, others: Holds, id: RowId)
    requires FrozenForOthers(table, others) && id < |Run(Start(table), actions).rows|
    ensures var r := Run(Start(table), actions).rows[id];
            var h := r.history;
            && h.claims <= 1 && h.broadcasts <= 1 && h.unlocks + h.burns + h.rejects <= 1 && h.changes <= 5
            && (h.unlocks > 0 ==> h.broadcasts == 0) && (h.burns > 0 ==> h.broadcasts == 1)
            && (h.rejects > 0 ==> h.claims == 0)
    ensures Run(Start(table), actions).verdicts == {}
    ensures Run(Start(table), actions).rows[id].status != BroadcastUnknown
  {
    assert forall k: Key :: FrozenAt(Start(table), others, k);
    RunKeepsInv(Start(table), actions, others);
    var s := Run(Start(table), actions);
    assert Core(s) && RowOk(s.rows[id]);
    hide Inv, Core, Run;
  }

  /** At every step of every run, per user and asset: frozen is exactly what unreleased withdrawals and other
      services hold, and available + frozen + burned withdrawals + withdrawals dropped by an admin rejection is the
      initial balance plus the credited deposits. */
  lemma FundsAreConserved(table: Table, actions: seq<Action>, others: Holds, k: Key)
    requires FrozenForOthers(table, others)
    ensures var s := Run(Start(table), actions);
            && At(s.table, k).frozen == Tally(s.rows, k, OnHold) + Held(others, k)
            && At(s.table, k).available + At(s.table, k).frozen + Tally(s.rows, k, Burned) + Tally(s.rows, k, Dropped)
                 == At(table, k).available + At(table, k).frozen + CreditSum(s.deposits, k)
  {
    assert forall j: Key :: FrozenAt(Start(table), others, j);
    RunKeepsInv(Start(table), actions, others);
    var s := Run(Start(table), actions);
    assert FrozenAt(s, others, k) && Book(s, k) == Book(Start(table), k);
  }

  predicate HeadSeen(actions: seq<Action>, height: int) {
    exists i :: 0 <= i < |actions| && actions[i].Promote? && actions[i].head >= height
  }

  lemma HeadStep(s: State, a: Action)
    ensures Step(s, a).maxHead > s.maxHead ==> a.Promote? && a.head == Step(s, a).maxHead
  {
    hide WorkerStep, WatcherStep, DeskStep;
    if ByDesk(a) { DeskHead(s, a); } else if ByWatcher(a) { WatcherHead(s, a); } else if ByWorker(a) { WorkerHead(s, a); }
  }

  lemma DeskHead(s: State, a: Action)
    requires ByDesk(a)
    ensures DeskStep(s, a).maxHead == s.maxHead && DeskStep(s, a).deposits == s.deposits && DeskStep(s, a).passes == s.passes
  {
  }

  lemma WatcherHead(s: State, a: Action)
    requires ByWatcher(a)
    ensures WatcherStep(s, a).maxHead == s.maxHead
    ensures WatcherStep(s, a).deposits == s.deposits && WatcherStep(s, a).passes == s.passes
  {
  }

  lemma WorkerHead(s: State, a: Action)
    requires ByWorker(a)
    ensures WorkerStep(s, a).maxHead == s.maxHead
    ensures WorkerStep(s, a).deposits == s.deposits && WorkerStep(s, a).passes == s.passes
  {
  }

  lemma {:induction false} HeadWasRead(s: State, actions: seq<Action>, height: int)
    requires s.maxHead < height <= Run(s, actions).maxHead
    ensures HeadSeen(actions, height)
    decreases |actions|
  {
    hide Step;
    HeadStep(s, actions[0]);
    var s1 := Step(s, actions[0]);
    if s1.maxHead >= height {
      assert actions[0].Promote? && actions[0].head >= height;
    } else {
      HeadWasRead(s1, actions[1..], height);
      var i :| 0 <= i < |actions[1..]| && actions[1..][i].Promote? && actions[1..][i].head >= height;
      assert actions[i + 1] == actions[1..][i];
    }
  }

  /** Under any interleaving of scanner instances and aborted transactions a deposit is credited at most once, and
      only after some scan read a head at least 19 blocks above the deposit's. */
  lemma CreditedOnceAndDeep(table: Table, actions: seq<Action>, others: Holds, i: nat)
    requires FrozenForOthers(table, others) && i < |Run(Start(table), actions).deposits|
    ensures var d := Run(Start(table), actions).deposits[i];
            && d.credits == (if d.status == Credited then 1 else 0)
            && (d.status == Credited ==> d.block.Some?)
            && (d.status == Credited && d.block.value + 19 > 0 ==> HeadSeen(actions, d.block.value + 19))
  {
    assert forall k: Key :: FrozenAt(Start(table), others, k);
    RunKeepsInv(Start(table), actions, others);
    var s := Run(Start(table), actions);
    var d := s.deposits[i];
    assert DepositOk(d, s.maxHead);
    if d.status == Credited && d.block.value + CONFIRM_THRESHOLD > 0 {
      HeadWasRead(Start(table), actions, d.block.value + CONFIRM_THRESHOLD);
    }
  }

  // ---------------------------------------------------------------- what admin rejection does

  /** As written, the rejection gives the amount back only if nothing at all was frozen, and keeps the user's funds
      whole only if the amount happens to be twice what is frozen. */
  lemma RejectReturnsFundsIff(t: Table, k: Key, amount: real)
    requires k in t && t[k].frozen >= 0.0 && amount > 0.0
    ensures RejectUnlock(t, k, amount)[k].available == t[k].available + amount <==> t[k].frozen == 0.0
    ensures Owned(RejectUnlock(t, k, amount)[k]) == Owned(t[k]) <==> amount == 2.0 * t[k].frozen
  {
  }

  /** In every reachable state the rejected amount is frozen, so it is removed from the user and returned nowhere. */
  lemma RejectDropsFunds(s: State, id: RowId, note: string, others: Holds)
    requires Inv(s, others) && Hits(s.rows, id, ManualReview)
    ensures var k := s.rows[id].key;
            At(RejectStep(s, id, note).table, k)
              == Balance(At(s.table, k).available, At(s.table, k).frozen - s.rows[id].amount)
  {
    assert RowOk(s.rows[id]);
    HoldIsFrozen(s, others, id);
  }

  // ---------------------------------------------------------------- rows nobody will touch again

  /** The worker has been told of a broadcast error. */
  predicate Noting(job: Job) { job.Errored? || job.NotedFailed? }

  /** No statement of any actor names the row's status as the one to leave, and no worker is on the row but perhaps
      one that is noting a broadcast error. */
  ghost predicate Stuck(s: State, id: RowId) {
    && id < |s.rows|
    && (forall w <- s.jobs :: s.jobs[w].id == id ==> Noting(s.jobs[w]))
    && var st := s.rows[id].status;
       st == Signing || st == Signed || st == Completed || st == Failed || st == Rejected || st == BroadcastUnknown
  }

  lemma StuckClaim(s: State, w: ActorId, id: RowId, j: RowId)
    requires Stuck(s, id)
    ensures Stuck(ClaimStep(s, w, j), id) && ClaimStep(s, w, j).rows[id] == s.rows[id]
  {
    var s' := ClaimStep(s, w, j);
    forall v | v in s'.jobs && s'.jobs[v].id == id ensures Noting(s'.jobs[v]) {
      assert v in s.jobs && s.jobs[v] == s'.jobs[v];
    }
  }

  /** A worker past its claim touches the row of its own job and no other, and takes on no new row. While noting a
      broadcast error it touches only a row that is on chain. */
  ghost predicate Touches(s: State, s': State, w: ActorId) {
    && |s'.rows| == |s.rows|
    && (forall i :: 0 <= i < |s.rows| && Spared(s, w, i) ==> s'.rows[i] == s.rows[i])
    && (forall v <- s'.jobs :: v in s.jobs && s'.jobs[v].id == s.jobs[v].id && (Noting(s.jobs[v]) ==> Noting(s'.jobs[v])))
  }

  predicate Spared(s: State, w: ActorId, i: RowId)
    requires i < |s.rows|
  {
    w in s.jobs && s.jobs[w].id == i ==> Noting(s.jobs[w]) && !OnChain(s.rows[i].status)
  }

  lemma TouchSignFails(s: State, w: ActorId, msg: string, recorded: bool)
    ensures Touches(s, SignFailsStep(s, w, msg, recorded), w)
  {
  }

  lemma TouchSigned(s: State, w: ActorId, msg: string)
    ensures Touches(s, SignOkStep(s, w), w)
    ensures Touches(s, DryRunStep(s, w, msg), w)
  {
  }

  lemma TouchBroadcast(s: State, w: ActorId, msg: string)
    ensures Touches(s, BroadcastFailsStep(s, w, msg), w)
    ensures Touches(s, BroadcastOkStep(s, w), w)
  {
  }

  lemma TouchRecord(s: State, w: ActorId, recorded: bool)
    ensures Touches(s, RecordStep(s, w, recorded), w)
  {
  }

  lemma TouchNotes(s: State, w: ActorId, recorded: bool)
    ensures Touches(s, NoteFailedStep(s, w, recorded), w)
    ensures Touches(s, NoteUnknownStep(s, w, recorded), w)
  {
  }

  lemma TouchRelease(s: State, w: ActorId)
    ensures Touches(s, UnlockingStep(s, w), w)
    ensures Touches(s, BurningStep(s, w), w)
  {
    hide Unlock, Burn;
  }

  lemma WorkerTouches(s: State, a: Action)
    requires ByWorker(a) && !a.Claim?
    ensures Touches(s, WorkerStep(s, a), a.worker)
  {
    hide SignFailsStep, SignOkStep, DryRunStep, BroadcastFailsStep, BroadcastOkStep, RecordStep, NoteFailedStep,
      NoteUnknownStep, UnlockingStep, BurningStep;
    match a
    case SignFails(w, msg, recorded) => TouchSignFails(s, w, msg, recorded);
    case SignOk(w) => TouchSigned(s, w, "");
    case DryRun(w, msg) => TouchSigned(s, w, msg);
    case BroadcastFails(w, msg) => TouchBroadcast(s, w, msg);
    case BroadcastOk(w) => TouchBroadcast(s, w, "");
    case Record(w, recorded) => TouchRecord(s, w, recorded);
    case NoteFailed(w, recorded) => TouchNotes(s, w, recorded);
    case NoteUnknown(w, recorded) => TouchNotes(s, w, recorded);
    case UnlockStep(w) => TouchRelease(s, w);
    case BurnStep(w) => TouchRelease(s, w);
    case Crash(_) =>
  }

  lemma StuckTouched(s: State, s': State, w: ActorId, id: RowId)
    requires Stuck(s, id) && Touches(s, s', w)
    ensures Stuck(s', id) && s'.rows[id] == s.rows[id]
  {
    assert Spared(s, w, id);
  }

  lemma StuckWorkerStep(s: State, a: Action, id: RowId)
    requires Stuck(s, id) && ByWorker(a)
    ensures Stuck(WorkerStep(s, a), id) && WorkerStep(s, a).rows[id] == s.rows[id]
  {
    if a.Claim? {
      StuckClaim(s, a.worker, id, a.id);
    } else {
      hide WorkerStep, Touches, Stuck;
      WorkerTouches(s, a);
      StuckTouched(s, WorkerStep(s, a), a.worker, id);
    }
  }

  lemma OffChainStays(rows: seq<Row>, id: RowId, j: RowId, from: Status, to: Status, msg: string)
    requires id < |rows| && !OnChain(rows[id].status) && OnChain(from)
    ensures var rows' := UpdateStatus(rows, j, from, to, msg); id < |rows'| && rows'[id] == rows[id]
  {
  }

  lemma StuckWatcherStep(s: State, a: Action, id: RowId)
    requires id < |s.rows| && !OnChain(s.rows[id].status) && ByWatcher(a)
    ensures var s' := WatcherStep(s, a);
            id < |s'.rows| && s'.rows[id] == s.rows[id] && s'.jobs == s.jobs
  {
    hide UnknownTicks.Bump, UnknownTicks.Count, UpdateStatus;
    if a.SeeInBlock? {
      OffChainStays(s.rows, id, a.id, Broadcasted, InBlock, "");
    } else if a.SeeSuccess? {
      OffChainStays(s.rows, id, a.id, if a.first then InBlock else Broadcasted, Completed, "");
    } else if a.SeeRevert? {
      OffChainStays(s.rows, id, a.id, if a.first then InBlock else Broadcasted, Failed, REVERTED);
    } else if a.Demote? && a.id < |s.rows| {
      var m := s.rows[a.id].msg;
      OffChainStays(s.rows, id, a.id, Broadcasted, BroadcastUnknown, m);
      OffChainStays(UpdateStatus(s.rows, a.id, Broadcasted, BroadcastUnknown, m), id, a.id, InBlock, BroadcastUnknown, m);
    }
  }

  lemma StuckDeskStep(s: State, a: Action, id: RowId)
    requires Stuck(s, id) && ByDesk(a)
    ensures var s' := DeskStep(s, a);
            id < |s'.rows| && s'.rows[id] == s.rows[id] && s'.jobs == s.jobs
  {
    assert s.rows[id].status != RiskCheck && s.rows[id].status != ManualReview;
    hide Stuck, NewRow, Shifted, RejectUnlock;
    match a
    case Create(_, _, _, _) =>
    case Confirm(_, _) =>
    case Approve(_) =>
    case Reject(_, _) =>
  }

  lemma ScannerStepRows(s: State, a: Action)
    requires ByScanner(a)
    ensures ScannerStep(s, a).rows == s.rows && ScannerStep(s, a).jobs == s.jobs
  {
  }

  lemma StuckStep(s: State, a: Action, id: RowId)
    requires Stuck(s, id)
    ensures Stuck(Step(s, a), id) && Step(s, a).rows[id] == s.rows[id]
  {
    hide WorkerStep, WatcherStep, DeskStep, ScannerStep;
    if ByWorker(a) { StuckWorkerStep(s, a, id); }
    else if ByWatcher(a) { StuckWatcherStep(s, a, id); }
    else if ByDesk(a) { StuckDeskStep(s, a, id); }
    else { ScannerStepRows(s, a); }
  }

  /** Such a row stays as it is in every further run: if its funds are on hold, they stay on hold. This is where a
      row lands that was created REJECTED, whose broadcast call failed, that was only dry-run, or whose worker died. */
  lemma {:induction false} StuckForever(s: State, actions: seq<Action>, id: RowId)
    requires Stuck(s, id)
    ensures Stuck(Run(s, actions), id) && Run(s, actions).rows[id] == s.rows[id]
    decreases |actions|
  {
    if actions == [] {
    } else {
      StuckStep(s, actions[0], id);
      StuckForever(Step(s, actions[0]), actions[1..], id);
    }
  }

  /** A withdrawal scored 100 or more is created REJECTED with its amount frozen, and no run ever releases it. */
  lemma RejectedAtCreationKeepsHold(s: State, k: Key, amount: real, score: int, idem: string, actions: seq<Action>)
    requires Core(s) && score >= 100 && CreateStep(s, k, amount, score, idem) != s
    ensures var s' := Run(CreateStep(s, k, amount, score, idem), actions);
            && |s.rows| < |s'.rows| && s'.rows[|s.rows|] == NewRow(k, amount, score)
            && Weight(s'.rows[|s.rows|], k, OnHold) == amount
  {
    var s1 := CreateStep(s, k, amount, score, idem);
    forall w | w in s1.jobs ensures s1.jobs[w].id != |s.rows| { assert JobOk(s.rows, s.jobs[w]); }
    StuckForever(s1, actions, |s.rows|);
  }

  /** A withdrawal whose broadcast call returned an error stays in SIGNING with its amount frozen forever, whether or
      not the worker lives to send the two UPDATEs meant to park it in BROADCAST_UNKNOWN. */
  lemma BroadcastErrorStrands(s: State, w: ActorId, msg: string, actions: seq<Action>)
    requires Core(s) && w in s.jobs && s.jobs[w].Ready?
    ensures var id := s.jobs[w].id;
            var s' := Run(BroadcastFailsStep(s, w, msg), actions);
            && id < |s'.rows| && s'.rows[id].status == Signing
            && Weight(s'.rows[id], s'.rows[id].key, OnHold) == s.rows[id].amount
  {
    var id := s.jobs[w].id;
    assert JobOk(s.rows, s.jobs[w]);
    StuckForever(BroadcastFailsStep(s, w, msg), actions, id);
  }
}
