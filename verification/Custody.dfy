/** Withdrawals (cmd/wallet-api/main.go) and deposits (cmd/tron-scanner/main.go) over one balance table, as the
    small steps that workers, confirmation watchers, users, admins and scanner instances interleave. Every step is
    one SQL statement or one transaction; between any two steps any other actor may run or a worker may die. */
module Custody {
  import opened Ledger
  import opened Options
  import UnknownTicks

  type RowId = nat
  type ActorId = nat

  datatype Status = RiskCheck | ManualReview | Pending | Rejected | Signing | Signed | Broadcasted
                  | InBlock | BroadcastUnknown | Completed | Failed

  /** Broadcast and still polled by the confirmation watchers. */
  predicate OnChain(st: Status) { st == Broadcasted || st == InBlock }

  /** What has happened to a row, counted. */
  datatype History = History(changes: nat, claims: nat, broadcasts: nat, unlocks: nat, burns: nat, rejects: nat)

  datatype Row = Row(key: Key, amount: real, status: Status, msg: string, history: History)

  /** Where a worker stands in processOneWithdrawal: about to build and sign; signed; broadcast sent but not yet
      recorded; failed and about to unlock; recorded and about to burn; told of a broadcast error and about to note
      FAILED; then about to note BROADCAST_UNKNOWN. */
  datatype Job = Claimed(id: RowId) | Ready(id: RowId) | Sent(id: RowId) | Unlocking(id: RowId) | Burning(id: RowId)
               | Errored(id: RowId, msg: string) | NotedFailed(id: RowId, msg: string)

  datatype DepositStatus = Detected | Confirmed | Credited
  datatype Deposit = Deposit(key: Key, amount: real, block: Option<int>, status: DepositStatus, credits: nat)

  datatype State = State(
    table: Table,
    rows: seq<Row>,
    replays: map<(UserId, string), RowId>,   // withdrawal_idempotency
    jobs: map<ActorId, Job>,                 // busy workers
    watched: set<RowId>,                     // rows some watcher has in its batch
    verdicts: set<RowId>,                    // rows some watcher is about to demote to BROADCAST_UNKNOWN
    deposits: seq<Deposit>,
    passes: map<ActorId, seq<nat>>,          // open credit transactions and the deposit rows they lock
    maxHead: int)                            // highest chain head any scanner has read

  // In pieces: the verifier does not look far into a literal of this length.
  const REVERTED := "contract reverted on chain; " + "frozen balance burned, " + "manual credit required"
  const CONFIRM_THRESHOLD := 19
  const PASS_LIMIT := 100
  const MIN_AMOUNT := 0.1

  // ---------------------------------------------------------------- SQL statements

  /** One row after a status change. */
  function Shifted(r: Row, to: Status, msg: string): Row {
    r.(status := to, msg := msg, history := r.history.(changes := r.history.changes + 1))
  }

  /** The guarded UPDATE of updateWithdrawalStatus: nothing happens unless the row is still in `from`. */
  function UpdateStatus(rows: seq<Row>, id: RowId, from: Status, to: Status, msg: string): seq<Row> {
    if id < |rows| && rows[id].status == from then rows[id := Shifted(rows[id], to, msg)] else rows
  }

  predicate Hits(rows: seq<Row>, id: RowId, from: Status) {
    id < |rows| && rows[id].status == from
  }

  function Min(x: real, y: real): real { if x <= y then x else y }
  function Max(x: real, y: real): real { if x >= y then x else y }

  /** unlockWithdrawalBalance, with its LEAST/GREATEST clamps. */
  function Unlock(t: Table, k: Key, amount: real): Table {
    if k in t then t[k := Balance(t[k].available + Min(amount, t[k].frozen), Max(t[k].frozen - amount, 0.0))] else t
  }

  /** burnWithdrawalBalance, with its GREATEST clamp. */
  function Burn(t: Table, k: Key, amount: real): Table {
    if k in t then t[k := t[k].(frozen := Max(t[k].frozen - amount, 0.0))] else t
  }

  /** The balance UPDATE of rejectReviewWithdrawal, as written. */
  function RejectUnlock(t: Table, k: Key, amount: real): Table {
    if k in t then t[k := Balance(t[k].available + Max(amount - t[k].frozen, 0.0), Max(t[k].frozen - amount, 0.0))] else t
  }

  function InitialStatus(score: int): Status {
    if score >= 100 then Rejected else if score >= 80 then ManualReview else if score >= 50 then RiskCheck else Pending
  }

  function NewRow(k: Key, amount: real, score: int): Row {
    Row(k, amount, InitialStatus(score), "", History(0, 0, 0, 0, 0, 0))
  }

  // ---------------------------------------------------------------- steps

  datatype Action =
    // users and admins
    | Create(key: Key, amount: real, score: int, idem: string)
    | Confirm(id: RowId, user: UserId)
    | Approve(id: RowId)
    | Reject(id: RowId, note: string)
    // workers
    | Claim(worker: ActorId, id: RowId)
    | SignFails(worker: ActorId, msg: string, recorded: bool)
    | SignOk(worker: ActorId)
    | DryRun(worker: ActorId, msg: string)
    | BroadcastFails(worker: ActorId, msg: string)
    | NoteFailed(worker: ActorId, recorded: bool)
    | NoteUnknown(worker: ActorId, recorded: bool)
    | BroadcastOk(worker: ActorId)
    | Record(worker: ActorId, recorded: bool)
    | UnlockStep(worker: ActorId)
    | BurnStep(worker: ActorId)
    | Crash(worker: ActorId)
    // confirmation watchers
    | Watch(id: RowId)
    | SeeInBlock(id: RowId)
    | SeeSuccess(id: RowId, first: bool)
    | SeeRevert(id: RowId, first: bool)
    | Tick(id: RowId)
    | Judge(id: RowId)
    | Demote(id: RowId)
    // scanner instances
    | Detect(key: Key, amount: real, block: Option<int>)
    | Promote(head: int)
    | BeginPass(pass: ActorId, ids: seq<nat>)
    | CommitPass(pass: ActorId)
    | AbortPass(pass: ActorId)

  predicate ByDesk(a: Action) { a.Create? || a.Confirm? || a.Approve? || a.Reject? }

  predicate ByWatcher(a: Action) {
    a.Watch? || a.SeeInBlock? || a.SeeSuccess? || a.SeeRevert? || a.Tick? || a.Judge? || a.Demote?
  }

  predicate ByScanner(a: Action) {
    a.Detect? || a.Promote? || a.BeginPass? || a.CommitPass? || a.AbortPass?
  }

  predicate ByWorker(a: Action) { !ByDesk(a) && !ByWatcher(a) && !ByScanner(a) }

  /** createWithdrawal: one transaction that moves the amount into frozen and inserts the row. */
  function CreateStep(s: State, k: Key, amount: real, score: int, idem: string): State {
    if amount < MIN_AMOUNT || (idem != "" && (k.user, idem) in s.replays) then s
    else if k !in s.table || s.table[k].available < amount then s
    else s.(
      table := s.table[k := Balance(s.table[k].available - amount, s.table[k].frozen + amount)],
      rows := s.rows + [NewRow(k, amount, score)],
      replays := if idem != "" then s.replays[(k.user, idem) := |s.rows|] else s.replays)
  }

  /** rejectReviewWithdrawal: one transaction. */
  function RejectStep(s: State, id: RowId, note: string): State {
    if !Hits(s.rows, id, ManualReview) then s
    else
      var r := Shifted(s.rows[id], Rejected, if note == "" then "rejected by admin" else note);
      s.(rows := s.rows[id := r.(history := r.history.(rejects := r.history.rejects + 1))],
         table := RejectUnlock(s.table, s.rows[id].key, s.rows[id].amount))
  }

  function ClaimStep(s: State, w: ActorId, id: RowId): State {
    if w in s.jobs || !Hits(s.rows, id, Pending) then s
    else
      var r := Shifted(s.rows[id], Signing, "");
      s.(rows := s.rows[id := r.(history := r.history.(claims := r.history.claims + 1))],
         jobs := s.jobs[w := Claimed(id)])
  }

  function Free(s: State, w: ActorId): map<ActorId, Job> { s.jobs - {w} }

  /** Worker `w` holds a job on an existing row. */
  predicate Doing(s: State, w: ActorId) {
    w in s.jobs && s.jobs[w].id < |s.rows|
  }

  /** Building or signing failed: try to record FAILED; go on to the unlock whether or not that worked. */
  function SignFailsStep(s: State, w: ActorId, msg: string, recorded: bool): State {
    if !Doing(s, w) || !s.jobs[w].Claimed? then s
    else s.(rows := if recorded then UpdateStatus(s.rows, s.jobs[w].id, Signing, Failed, msg) else s.rows,
            jobs := s.jobs[w := Unlocking(s.jobs[w].id)])
  }

  function SignOkStep(s: State, w: ActorId): State {
    if Doing(s, w) && s.jobs[w].Claimed? then s.(jobs := s.jobs[w := Ready(s.jobs[w].id)]) else s
  }

  function DryRunStep(s: State, w: ActorId, msg: string): State {
    if !Doing(s, w) || !s.jobs[w].Claimed? then s
    else s.(rows := UpdateStatus(s.rows, s.jobs[w].id, Signing, Signed, msg), jobs := Free(s, w))
  }

  /** The broadcast call has been made, whatever it answers. */
  function CalledRow(r: Row): Row { r.(history := r.history.(broadcasts := r.history.broadcasts + 1)) }

  /** The broadcast call returned an error. */
  function BroadcastFailsStep(s: State, w: ActorId, msg: string): State {
    if !Doing(s, w) || !s.jobs[w].Ready? then s
    else s.(rows := s.rows[s.jobs[w].id := CalledRow(s.rows[s.jobs[w].id])],
            jobs := s.jobs[w := Errored(s.jobs[w].id, msg)])
  }

  /** The two UPDATEs after it; both name BROADCASTED as the state to leave, and neither result is looked at. */
  function NoteFailedStep(s: State, w: ActorId, recorded: bool): State {
    if !Doing(s, w) || !s.jobs[w].Errored? then s
    else s.(rows := if recorded then UpdateStatus(s.rows, s.jobs[w].id, Broadcasted, Failed, s.jobs[w].msg) else s.rows,
            jobs := s.jobs[w := NotedFailed(s.jobs[w].id, s.jobs[w].msg)])
  }

  function NoteUnknownStep(s: State, w: ActorId, recorded: bool): State {
    if !Doing(s, w) || !s.jobs[w].NotedFailed? then s
    else s.(rows := if recorded then UpdateStatus(s.rows, s.jobs[w].id, Broadcasted, BroadcastUnknown, s.jobs[w].msg)
                    else s.rows,
            jobs := Free(s, w))
  }

  function BroadcastOkStep(s: State, w: ActorId): State {
    if !Doing(s, w) || !s.jobs[w].Ready? then s
    else s.(rows := s.rows[s.jobs[w].id := CalledRow(s.rows[s.jobs[w].id])], jobs := s.jobs[w := Sent(s.jobs[w].id)])
  }

  /** SIGNING to BROADCASTED; only if that UPDATE worked does the worker go on to burn. */
  function RecordStep(s: State, w: ActorId, recorded: bool): State {
    if !Doing(s, w) || !s.jobs[w].Sent? then s
    else if recorded && Hits(s.rows, s.jobs[w].id, Signing) then
      s.(rows := UpdateStatus(s.rows, s.jobs[w].id, Signing, Broadcasted, ""), jobs := s.jobs[w := Burning(s.jobs[w].id)])
    else s.(jobs := Free(s, w))
  }

  function UnlockRow(r: Row): Row { r.(history := r.history.(unlocks := r.history.unlocks + 1)) }
  function BurnRow(r: Row): Row { r.(history := r.history.(burns := r.history.burns + 1)) }

  function UnlockingStep(s: State, w: ActorId): State {
    if !Doing(s, w) || !s.jobs[w].Unlocking? then s
    else
      var id := s.jobs[w].id;
      s.(table := Unlock(s.table, s.rows[id].key, s.rows[id].amount),
         rows := s.rows[id := UnlockRow(s.rows[id])], jobs := Free(s, w))
  }

  function BurningStep(s: State, w: ActorId): State {
    if !Doing(s, w) || !s.jobs[w].Burning? then s
    else
      var id := s.jobs[w].id;
      s.(table := Burn(s.table, s.rows[id].key, s.rows[id].amount),
         rows := s.rows[id := BurnRow(s.rows[id])], jobs := Free(s, w))
  }

  function WorkerStep(s: State, a: Action): State
    requires ByWorker(a)
  {
    match a
    case Claim(w, id) => ClaimStep(s, w, id)
    case SignFails(w, msg, recorded) => SignFailsStep(s, w, msg, recorded)
    case SignOk(w) => SignOkStep(s, w)
    case DryRun(w, msg) => DryRunStep(s, w, msg)
    case BroadcastFails(w, msg) => BroadcastFailsStep(s, w, msg)
    case NoteFailed(w, recorded) => NoteFailedStep(s, w, recorded)
    case NoteUnknown(w, recorded) => NoteUnknownStep(s, w, recorded)
    case BroadcastOk(w) => BroadcastOkStep(s, w)
    case Record(w, recorded) => RecordStep(s, w, recorded)
    case UnlockStep(w) => UnlockingStep(s, w)
    case BurnStep(w) => BurningStep(s, w)
    case Crash(w) => s.(jobs := Free(s, w))
  }

  function WatcherStep(s: State, a: Action): State
    requires ByWatcher(a)
  {
    var id := a.id;
    if id >= |s.rows| then s
    else if a.Watch? then
      if OnChain(s.rows[id].status) then s.(watched := s.watched + {id}) else s
    else if id !in s.watched then s
    else
      match a
      case SeeInBlock(_) => s.(rows := UpdateStatus(s.rows, id, Broadcasted, InBlock, ""))
      case SeeSuccess(_, first) =>
        s.(rows := UpdateStatus(s.rows, id, if first then InBlock else Broadcasted, Completed, ""))
      case SeeRevert(_, first) =>
        s.(rows := UpdateStatus(s.rows, id, if first then InBlock else Broadcasted, Failed, REVERTED))
      case Tick(_) =>
        if !OnChain(s.rows[id].status) then s
        else s.(rows := s.rows[id := s.rows[id].(msg := UnknownTicks.Bump(s.rows[id].msg))])
      case Judge(_) =>
        if UnknownTicks.Count(s.rows[id].msg) < UnknownTicks.THRESHOLD then s
        else s.(verdicts := s.verdicts + {id})
      case Demote(_) =>
        if id !in s.verdicts then s
        else s.(rows := UpdateStatus(UpdateStatus(s.rows, id, Broadcasted, BroadcastUnknown, s.rows[id].msg),
                                     id, InBlock, BroadcastUnknown, s.rows[id].msg))
  }

  predicate Promotable(d: Deposit, head: int) {
    d.status == Detected && d.block.Some? && d.block.value <= head - CONFIRM_THRESHOLD
  }

  /** The UPDATE that promotes every deposit deep enough under `head`. */
  function PromoteAll(ds: seq<Deposit>, head: int): seq<Deposit> {
    seq(|ds|, i requires 0 <= i < |ds| => if Promotable(ds[i], head) then ds[i].(status := Confirmed) else ds[i])
  }

  predicate Locked(s: State, i: nat) {
    exists p <- s.passes :: i in s.passes[p]
  }

  /** What SELECT ... LIMIT 100 FOR UPDATE SKIP LOCKED may return: confirmed rows nobody has locked, each once;
      all of them, or as many as the limit allows. */
  predicate Selectable(s: State, ids: seq<nat>) {
    && |ids| <= PASS_LIMIT
    && (forall i, j :: 0 <= i < j < |ids| ==> ids[i] != ids[j])
    && (forall i :: 0 <= i < |ids| ==> ids[i] < |s.deposits| && s.deposits[ids[i]].status == Confirmed && !Locked(s, ids[i]))
    && (|ids| < PASS_LIMIT ==>
          forall d :: 0 <= d < |s.deposits| && s.deposits[d].status == Confirmed && !Locked(s, d) ==> d in ids)
  }

  /** The body of the credit loop, for one row: upsert the balance, mark the deposit. */
  function CreditOne(t: Table, ds: seq<Deposit>, id: nat): (Table, seq<Deposit>)
    requires id < |ds|
  {
    var d := ds[id];
    (t[d.key := At(t, d.key).(available := At(t, d.key).available + d.amount)],
     if d.status == Confirmed then ds[id := d.(status := Credited, credits := d.credits + 1)] else ds)
  }

  function CreditAll(t: Table, ds: seq<Deposit>, ids: seq<nat>): (r: (Table, seq<Deposit>))
    requires forall i :: 0 <= i < |ids| ==> ids[i] < |ds|
    ensures |r.1| == |ds|
    decreases |ids|
  {
    if ids == [] then (t, ds)
    else
      var (t', ds') := CreditOne(t, ds, ids[0]);
      CreditAll(t', ds', ids[1..])
  }

  predicate InRange(s: State, ids: seq<nat>) {
    forall i :: 0 <= i < |ids| ==> ids[i] < |s.deposits|
  }

  function ScannerStep(s: State, a: Action): State
    requires ByScanner(a)
  {
    match a
    case Detect(k, amount, block) =>
      if amount <= 0.0 then s else s.(deposits := s.deposits + [Deposit(k, amount, block, Detected, 0)])
    case Promote(head) =>
      s.(deposits := PromoteAll(s.deposits, head), maxHead := if head > s.maxHead then head else s.maxHead)
    case BeginPass(p, ids) =>
      if p in s.passes || !Selectable(s, ids) then s else s.(passes := s.passes[p := ids])
    case CommitPass(p) =>
      if p !in s.passes || !InRange(s, s.passes[p]) then s
      else
        var (t, ds) := CreditAll(s.table, s.deposits, s.passes[p]);
        s.(table := t, deposits := ds, passes := s.passes - {p})
    case AbortPass(p) => s.(passes := s.passes - {p})
  }

  function DeskStep(s: State, a: Action): State
    requires ByDesk(a)
  {
    match a
    case Create(k, amount, score, idem) => CreateStep(s, k, amount, score, idem)
    case Confirm(id, user) =>
      if id < |s.rows| && s.rows[id].key.user == user then
        s.(rows := UpdateStatus(s.rows, id, RiskCheck, Pending, s.rows[id].msg)) else s
    case Approve(id) => s.(rows := UpdateStatus(s.rows, id, ManualReview, Pending, ""))
    case Reject(id, note) => RejectStep(s, id, note)
  }

  function Step(s: State, a: Action): State {
    if ByDesk(a) then DeskStep(s, a)
    else if ByWatcher(a) then WatcherStep(s, a)
    else if ByScanner(a) then ScannerStep(s, a)
    else WorkerStep(s, a)
  }

  function Run(s: State, actions: seq<Action>): State
    decreases |actions|
  {
    if actions == [] then s else Run(Step(s, actions[0]), actions[1..])
  }
}
