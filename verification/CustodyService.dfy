/** The daemons' statements and routines as they run on the database. Each one is proved to have exactly the effect
    of the Custody steps it consists of, so the run theorems of CustodyProofs hold of it. */
module CustodyService {
  import opened Ledger
  import opened Custody
  import opened Options
  import UnknownTicks

  /** How processOneWithdrawal can turn out. The flags say which of its later statements reach the database. */
  datatype Outcome =
    | ClaimError
    | BuildOrSignError(msg: string, recorded: bool, unlocked: bool)
    | DryRunOnly(msg: string, recorded: bool)
    | BroadcastError(msg: string, first: bool, second: bool)
    | BroadcastDone(recorded: bool, burned: bool)

  /** The same as small steps of worker `w`; a lost last statement is a worker that dies before it. */
  function Script(w: ActorId, id: RowId, o: Outcome): seq<Action> {
    match o
    case ClaimError => []
    case BuildOrSignError(msg, recorded, unlocked) =>
      [Claim(w, id), SignFails(w, msg, recorded), if unlocked then UnlockStep(w) else Crash(w)]
    case DryRunOnly(msg, recorded) => [Claim(w, id), if recorded then DryRun(w, msg) else Crash(w)]
    case BroadcastError(msg, first, second) =>
      [Claim(w, id), SignOk(w), BroadcastFails(w, msg), NoteFailed(w, first), NoteUnknown(w, second)]
    case BroadcastDone(recorded, burned) =>
      [Claim(w, id), SignOk(w), BroadcastOk(w), Record(w, recorded), if burned then BurnStep(w) else Crash(w)]
  }

  /** What the chain says of a transaction a watcher asks for: nothing yet, in a block that is not final, or final. */
  datatype Seen = Missing | NotFinal | Succeeded | Reverted

  /** confirmOneWithdrawal as small steps; a second update after a first one that hit finds no row to change. */
  function Watching(id: RowId, seen: Seen): seq<Action> {
    match seen
    case Missing => [Tick(id), Judge(id), Demote(id)]
    case NotFinal => [SeeInBlock(id)]
    case Succeeded => [SeeSuccess(id, true), SeeSuccess(id, false)]
    case Reverted => [SeeRevert(id, true), SeeRevert(id, false)]
  }

  /** confirmAndCredit as small steps of scanner instance `p`. */
  function Pass(p: ActorId, head: int, ids: seq<nat>, commit: bool): seq<Action> {
    [Promote(head), BeginPass(p, ids), if commit then CommitPass(p) else AbortPass(p)]
  }

  /** What a pass does once the rows are promoted. */
  function AfterSelect(s: State, p: ActorId, ids: seq<nat>, commit: bool): State {
    ScannerStep(ScannerStep(s, BeginPass(p, ids)), if commit then CommitPass(p) else AbortPass(p))
  }

  function Dead(s: State, w: ActorId): State { s.(jobs := Free(s, w)) }

  /** What the rest of a script does once the claim has been tried. */
  function AfterClaim(s: State, w: ActorId, o: Outcome): State {
    match o
    case ClaimError => s
    case BuildOrSignError(msg, recorded, unlocked) => Ended(SignFailsStep(s, w, msg, recorded), w, unlocked)
    case DryRunOnly(msg, recorded) => if recorded then DryRunStep(s, w, msg) else Dead(s, w)
    case BroadcastError(msg, first, second) => Noted(BroadcastFailsStep(SignOkStep(s, w), w, msg), w, first, second)
    case BroadcastDone(recorded, burned) =>
      Burned(RecordStep(BroadcastOkStep(SignOkStep(s, w), w), w, recorded), w, burned)
  }

  function Ended(s: State, w: ActorId, unlocked: bool): State {
    if unlocked then UnlockingStep(s, w) else Dead(s, w)
  }

  function Noted(s: State, w: ActorId, first: bool, second: bool): State {
    NoteUnknownStep(NoteFailedStep(s, w, first), w, second)
  }

  function Burned(s: State, w: ActorId, burned: bool): State {
    if burned then BurningStep(s, w) else Dead(s, w)
  }

  class Database {
    var table: Table
    var rows: seq<Row>
    var replays: map<(UserId, string), RowId>
    var deposits: seq<Deposit>
    var maxHead: int
    ghost var jobs: map<ActorId, Job>
    ghost var watched: set<RowId>
    ghost var verdicts: set<RowId>
    ghost var passes: map<ActorId, seq<nat>>

    ghost function State(): Custody.State
      reads this
    {
      Custody.State(table, rows, replays, jobs, watched, verdicts, deposits, passes, maxHead)
    }

    method UpdateWithdrawalStatus(id: RowId, from: Status, to: Status, msg: string) returns (ok: bool)
      modifies this`rows
      ensures rows == UpdateStatus(old(rows), id, from, to, msg)
      ensures ok <==> Hits(old(rows), id, from)
    {
      if id >= |rows| || rows[id].status != from { return false; }
      var h := rows[id].history;
      rows := rows[id := rows[id].(status := to, msg := msg, history := h.(changes := h.changes + 1))];
      return true;
    }

    method UnlockWithdrawalBalance(k: Key, amount: real)
      modifies this`table
      ensures table == Unlock(old(table), k, amount)
    {
      if k in table {
        var b := table[k];
        var least := if amount <= b.frozen then amount else b.frozen;
        var greatest := if b.frozen - amount >= 0.0 then b.frozen - amount else 0.0;
        table := table[k := Balance(b.available + least, greatest)];
      }
    }

    method BurnWithdrawalBalance(k: Key, amount: real)
      modifies this`table
      ensures table == Burn(old(table), k, amount)
    {
      if k in table {
        var b := table[k];
        var greatest := if b.frozen - amount >= 0.0 then b.frozen - amount else 0.0;
        table := table[k := b.(frozen := greatest)];
      }
    }

    method CreateWithdrawal(k: Key, amount: real, score: int, idem: string) returns (id: Option<RowId>)
      modifies this`table, this`rows, this`replays
      ensures State() == CreateStep(old(State()), k, amount, score, idem)
      ensures id.Some? <==> (amount >= MIN_AMOUNT && ((idem != "" && (k.user, idem) in old(replays))
                                                      || (k in old(table) && old(table)[k].available >= amount)))
      ensures id.Some? && idem != "" ==> (k.user, idem) in replays && replays[(k.user, idem)] == id.value
    {
      if amount < MIN_AMOUNT { return None; }
      if idem != "" && (k.user, idem) in replays { return Some(replays[(k.user, idem)]); }
      if k !in table { return None; }
      if table[k].available < amount { return None; }
      table := table[k := Balance(table[k].available - amount, table[k].frozen + amount)];
      var status := Pending;
      if score >= 100 { status := Rejected; }
      else if score >= 80 { status := ManualReview; }
      else if score >= 50 { status := RiskCheck; }
      rows := rows + [Row(k, amount, status, "", History(0, 0, 0, 0, 0, 0))];
      if idem != "" { replays := replays[(k.user, idem) := |rows| - 1]; }
      return Some(|rows| - 1);
    }

    method RejectReviewWithdrawal(id: RowId, note: string) returns (ok: bool)
      modifies this`table, this`rows
      ensures State() == RejectStep(old(State()), id, note)
      ensures ok <==> Hits(old(rows), id, ManualReview)
    {
      var msg := if note == "" then "rejected by admin" else note;
      ok := UpdateWithdrawalStatus(id, ManualReview, Rejected, msg);
      if !ok { return; }
      var r := rows[id];
      rows := rows[id := r.(history := r.history.(rejects := r.history.rejects + 1))];
      if r.key in table {
        var b := table[r.key];
        var given := if r.amount - b.frozen >= 0.0 then r.amount - b.frozen else 0.0;
        var left := if b.frozen - r.amount >= 0.0 then b.frozen - r.amount else 0.0;
        table := table[r.key := Balance(b.available + given, left)];
      }
    }

    /** PENDING to SIGNING, unless another worker was faster. */
    method ClaimWithdrawal(w: ActorId, id: RowId) returns (claimed: bool)
      requires w !in jobs
      modifies this`rows, this`jobs
      ensures State() == ClaimStep(old(State()), w, id)
      ensures claimed <==> w in jobs
      ensures claimed ==> jobs[w] == Claimed(id) && id < |rows| && rows[id].status == Signing
    {
      claimed := UpdateWithdrawalStatus(id, Pending, Signing, "");
      if claimed {
        var r := rows[id];
        rows := rows[id := r.(history := r.history.(claims := r.history.claims + 1))];
        jobs := jobs[w := Claimed(id)];
      }
    }

    /** Building or signing failed: FAILED, then unlock, whether or not the first worked. */
    method GiveUpUnsent(w: ActorId, id: RowId, msg: string, recorded: bool, unlocked: bool)
      requires w in jobs && jobs[w] == Claimed(id) && id < |rows|
      modifies this`table, this`rows, this`jobs
      ensures State() == Ended(SignFailsStep(old(State()), w, msg, recorded), w, unlocked)
    {
      if recorded { var _ := UpdateWithdrawalStatus(id, Signing, Failed, msg); }
      jobs := jobs[w := Unlocking(id)];
      if unlocked {
        UnlockWithdrawalBalance(rows[id].key, rows[id].amount);
        rows := rows[id := UnlockRow(rows[id])];
      }
      jobs := jobs - {w};
    }

    /** Dry run: keep the signature, send nothing. */
    method KeepSigned(w: ActorId, id: RowId, msg: string, recorded: bool)
      requires w in jobs && jobs[w] == Claimed(id) && id < |rows|
      modifies this`rows, this`jobs
      ensures State() == if recorded then DryRunStep(old(State()), w, msg) else Dead(old(State()), w)
    {
      if recorded { var _ := UpdateWithdrawalStatus(id, Signing, Signed, msg); }
      jobs := jobs - {w};
    }

    /** The broadcast call returned an error. */
    method RecordBroadcastError(w: ActorId, id: RowId, msg: string, first: bool, second: bool)
      requires w in jobs && jobs[w] == Ready(id) && id < |rows|
      modifies this`rows, this`jobs
      ensures State() == Noted(BroadcastFailsStep(old(State()), w, msg), w, first, second)
    {
      hide BroadcastFailsStep, NoteFailedStep, NoteUnknownStep;
      TellError(w, id, msg);
      NoteFailure(w, id, msg, first);
      NoteUnknown(w, id, msg, second);
    }

    method TellError(w: ActorId, id: RowId, msg: string)
      requires w in jobs && jobs[w] == Ready(id) && id < |rows|
      modifies this`rows, this`jobs
      ensures State() == BroadcastFailsStep(old(State()), w, msg)
      ensures w in jobs && jobs[w] == Errored(id, msg) && id < |rows|
    {
      rows := rows[id := CalledRow(rows[id])];
      jobs := jobs[w := Errored(id, msg)];
    }

    method NoteFailure(w: ActorId, id: RowId, msg: string, recorded: bool)
      requires w in jobs && jobs[w] == Errored(id, msg) && id < |rows|
      modifies this`rows, this`jobs
      ensures State() == NoteFailedStep(old(State()), w, recorded)
      ensures w in jobs && jobs[w] == NotedFailed(id, msg) && id < |rows|
    {
      if recorded { var _ := UpdateWithdrawalStatus(id, Broadcasted, Failed, msg); }
      jobs := jobs[w := NotedFailed(id, msg)];
    }

    method NoteUnknown(w: ActorId, id: RowId, msg: string, recorded: bool)
      requires w in jobs && jobs[w] == NotedFailed(id, msg) && id < |rows|
      modifies this`rows, this`jobs
      ensures State() == NoteUnknownStep(old(State()), w, recorded)
    {
      if recorded { var _ := UpdateWithdrawalStatus(id, Broadcasted, BroadcastUnknown, msg); }
      jobs := jobs - {w};
    }

    /** The broadcast call returned: SIGNING to BROADCASTED, then burn, but only if that UPDATE hit the row. */
    method RecordBroadcast(w: ActorId, id: RowId, recorded: bool, burned: bool)
      requires w in jobs && jobs[w] == Ready(id) && id < |rows|
      modifies this`table, this`rows, this`jobs
      ensures State() == Burned(RecordStep(BroadcastOkStep(old(State()), w), w, recorded), w, burned)
    {
      rows := rows[id := CalledRow(rows[id])];
      jobs := jobs[w := Sent(id)];
      assert State() == BroadcastOkStep(old(State()), w);
      RecordAndBurn(w, id, recorded, burned);
    }

    method RecordAndBurn(w: ActorId, id: RowId, recorded: bool, burned: bool)
      requires w in jobs && jobs[w] == Sent(id) && id < |rows|
      modifies this`table, this`rows, this`jobs
      ensures State() == Burned(RecordStep(old(State()), w, recorded), w, burned)
    {
      var hit := false;
      if recorded { hit := UpdateWithdrawalStatus(id, Signing, Broadcasted, ""); }
      if !hit {
        jobs := jobs - {w};
        return;
      }
      jobs := jobs[w := Burning(id)];
      if burned {
        BurnWithdrawalBalance(rows[id].key, rows[id].amount);
        rows := rows[id := BurnRow(rows[id])];
      }
      jobs := jobs - {w};
    }

    /** Claim a row, build, sign, broadcast, record, burn; `o` is what the chain, the signer and the database answer. */
    method ProcessOneWithdrawal(w: ActorId, id: RowId, o: Outcome)
      requires w !in jobs
      modifies this`table, this`rows, this`jobs
      ensures State() == Run(old(State()), Script(w, id, o))
    {
      hide Run, Script;
      ScriptRuns(State(), w, id, o);
      if o.ClaimError? { return; }
      var claimed := ClaimWithdrawal(w, id);
      if !claimed {
        IdleWorkerDoesNothing(State(), w, o);
        return;
      }
      hide ClaimStep, SignFailsStep, DryRunStep, BroadcastFailsStep, BroadcastOkStep, RecordStep, Noted, Ended, Burned;
      match o
      case BuildOrSignError(msg, recorded, unlocked) => GiveUpUnsent(w, id, msg, recorded, unlocked);
      case DryRunOnly(msg, recorded) => KeepSigned(w, id, msg, recorded);
      case BroadcastError(msg, first, second) =>
        jobs := jobs[w := Ready(id)];
        RecordBroadcastError(w, id, msg, first, second);
      case BroadcastDone(recorded, burned) =>
        jobs := jobs[w := Ready(id)];
        RecordBroadcast(w, id, recorded, burned);
    }

    /** What a watcher does with one row of its batch. */
    method ConfirmOneWithdrawal(id: RowId, seen: Seen)
      requires id in watched && id !in verdicts
      modifies this`rows, this`verdicts
      ensures State() == Run(old(State()), Watching(id, seen))
    {
      WatchingRuns(State(), id, seen);
      hide Run, Watching, Ticked, Judged, Demoted;
      match seen
      case Missing => BumpUnknownTick(id);
      case NotFinal => var _ := UpdateWithdrawalStatus(id, Broadcasted, InBlock, "");
      case Succeeded =>
        var ok := UpdateWithdrawalStatus(id, InBlock, Completed, "");
        if !ok { var _ := UpdateWithdrawalStatus(id, Broadcasted, Completed, ""); }
      case Reverted =>
        var ok := UpdateWithdrawalStatus(id, InBlock, Failed, REVERTED);
        if !ok { var _ := UpdateWithdrawalStatus(id, Broadcasted, Failed, REVERTED); }
    }

    /** Append a tick, count the ticks that can be read back, and give up at the threshold. */
    method BumpUnknownTick(id: RowId)
      requires id in watched && id !in verdicts
      modifies this`rows, this`verdicts
      ensures State() == Demoted(Judged(Ticked(old(State()), id), id), id)
    {
      hide UnknownTicks.Bump, UnknownTicks.Count;
      if id >= |rows| { return; }
      if OnChain(rows[id].status) {
        rows := rows[id := rows[id].(msg := UnknownTicks.Bump(rows[id].msg))];
      }
      var n := UnknownTicks.CountUnknownTicks(rows[id].msg);
      if n < UnknownTicks.THRESHOLD { return; }
      verdicts := verdicts + {id};
      var msg := rows[id].msg;
      var ok := UpdateWithdrawalStatus(id, Broadcasted, BroadcastUnknown, msg);
      if !ok { var _ := UpdateWithdrawalStatus(id, InBlock, BroadcastUnknown, msg); }
    }

    /** The credit loop, on the transaction's own copy of the two tables. */
    method CreditRows(ids: seq<nat>) returns (t: Table, ds: seq<Deposit>, credited: nat)
      requires InRange(State(), ids)
      ensures (t, ds) == CreditAll(table, deposits, ids)
      ensures credited == |ids|
    {
      t, ds := table, deposits;
      credited := 0;
      for i := 0 to |ids|
        invariant credited == i && |ds| == |deposits|
        invariant CreditAll(t, ds, ids[i..]) == CreditAll(table, deposits, ids)
      {
        assert ids[i..][1..] == ids[i + 1..];
        var d := ds[ids[i]];
        if d.key in t {
          t := t[d.key := t[d.key].(available := t[d.key].available + d.amount)];
        } else {
          t := t[d.key := Balance(0.0 + d.amount, 0.0)];
        }
        if d.status == Confirmed {
          ds := ds[ids[i] := d.(status := Credited, credits := d.credits + 1)];
        }
        credited := credited + 1;
      }
    }

    /** Promote what is deep enough under `head`, then credit the selected rows in one transaction, committed or not. */
    method ConfirmAndCredit(p: ActorId, head: int, ids: seq<nat>, commit: bool) returns (confirmed: nat, credited: nat)
      requires p !in passes
      requires Selectable(ScannerStep(State(), Promote(head)), ids)
      modifies this`table, this`deposits, this`maxHead, this`passes
      ensures State() == Run(old(State()), Pass(p, head, ids, commit))
      ensures credited == |ids|
      ensures confirmed == |set i: nat | i < |old(deposits)| && Promotable(old(deposits)[i], head)|
    {
      PassRuns(State(), p, head, ids, commit);
      confirmed := PromoteDeposits(head);
      if head > maxHead { maxHead := head; }
      assert State() == ScannerStep(old(State()), Promote(head));
      credited := CreditPass(p, ids, commit);
    }

    /** The credit transaction over the rows its SELECT returned. */
    method CreditPass(p: ActorId, ids: seq<nat>, commit: bool) returns (credited: nat)
      requires p !in passes && Selectable(State(), ids)
      modifies this`table, this`deposits, this`passes
      ensures State() == AfterSelect(old(State()), p, ids, commit)
      ensures credited == |ids|
    {
      passes := passes[p := ids];
      var t, ds;
      t, ds, credited := CreditRows(ids);
      if commit { table, deposits := t, ds; }
      passes := passes - {p};
    }

    method PromoteDeposits(head: int) returns (confirmed: nat)
      modifies this`deposits
      ensures deposits == PromoteAll(old(deposits), head)
      ensures confirmed == |set i: nat | i < |old(deposits)| && Promotable(old(deposits)[i], head)|
    {
      confirmed := 0;
      ghost var done: set<nat> := {};
      for i := 0 to |deposits|
        invariant |deposits| == |old(deposits)|
        invariant forall j :: 0 <= j < |deposits| ==>
                    deposits[j] == if j < i then PromoteAll(old(deposits), head)[j] else old(deposits)[j]
        invariant done == set j: nat | j < i && Promotable(old(deposits)[j], head)
        invariant confirmed == |done|
      {
        if Promotable(deposits[i], head) {
          deposits := deposits[i := deposits[i].(status := Confirmed)];
          confirmed := confirmed + 1;
          done := done + {i};
        }
      }
    }
  }

  function Ticked(s: State, id: RowId): State { WatcherStep(s, Tick(id)) }
  function Judged(s: State, id: RowId): State { WatcherStep(s, Judge(id)) }
  function Demoted(s: State, id: RowId): State { WatcherStep(s, Demote(id)) }

  lemma WatchingRuns(s: State, id: RowId, seen: Seen)
    ensures Run(s, Watching(id, seen)) ==
              match seen
              case Missing => Demoted(Judged(Ticked(s, id), id), id)
              case NotFinal => WatcherStep(s, SeeInBlock(id))
              case Succeeded => WatcherStep(WatcherStep(s, SeeSuccess(id, true)), SeeSuccess(id, false))
              case Reverted => WatcherStep(WatcherStep(s, SeeRevert(id, true)), SeeRevert(id, false))
  {
    hide WatcherStep;
    match seen
    case Missing =>
      var rest := [Judge(id), Demote(id)];
      Advance(s, Tick(id), Ticked(s, id), rest);
      assert [Tick(id)] + rest == Watching(id, seen);
      TwoWatched(Ticked(s, id), Judge(id), Demote(id));
    case NotFinal =>
      Advance(s, SeeInBlock(id), WatcherStep(s, SeeInBlock(id)), []);
      assert [SeeInBlock(id)] + [] == [SeeInBlock(id)];
    case Succeeded => TwoWatched(s, SeeSuccess(id, true), SeeSuccess(id, false));
    case Reverted => TwoWatched(s, SeeRevert(id, true), SeeRevert(id, false));
  }

  lemma TwoWatched(s: State, a: Action, b: Action)
    requires ByWatcher(a) && ByWatcher(b)
    ensures Run(s, [a, b]) == WatcherStep(WatcherStep(s, a), b)
  {
    hide WatcherStep;
    Advance(s, a, WatcherStep(s, a), [b]);
    Advance(WatcherStep(s, a), b, WatcherStep(WatcherStep(s, a), b), []);
    assert [a] + [b] == [a, b] && [b] + [] == [b];
  }

  /** The first action of a run, taken. */
  lemma Advance(s: State, a: Action, next: State, rest: seq<Action>)
    requires next == Step(s, a)
    ensures Run(s, [a] + rest) == Run(next, rest)
  {
    assert ([a] + rest)[1..] == rest;
  }

  lemma ClaimRuns(s: State, w: ActorId, id: RowId, rest: seq<Action>)
    ensures Run(s, [Claim(w, id)] + rest) == Run(ClaimStep(s, w, id), rest)
  {
    Advance(s, Claim(w, id), ClaimStep(s, w, id), rest);
  }

  lemma DryRunRuns(s: State, w: ActorId, msg: string, recorded: bool)
    ensures Run(s, [if recorded then DryRun(w, msg) else Crash(w)])
            == if recorded then DryRunStep(s, w, msg) else Dead(s, w)
  {
    var a := if recorded then DryRun(w, msg) else Crash(w);
    Advance(s, a, if recorded then DryRunStep(s, w, msg) else Dead(s, w), []);
    assert [a] + [] == [a];
  }

  lemma GiveUpRuns(s: State, w: ActorId, msg: string, recorded: bool, unlocked: bool)
    ensures Run(s, [SignFails(w, msg, recorded), if unlocked then UnlockStep(w) else Crash(w)])
            == Ended(SignFailsStep(s, w, msg, recorded), w, unlocked)
  {
    var s' := SignFailsStep(s, w, msg, recorded);
    var a := if unlocked then UnlockStep(w) else Crash(w);
    Advance(s, SignFails(w, msg, recorded), s', [a]);
    Advance(s', a, Ended(s', w, unlocked), []);
    assert [SignFails(w, msg, recorded)] + [a] == [SignFails(w, msg, recorded), a] && [a] + [] == [a];
  }

  lemma ErrorRuns(s: State, w: ActorId, msg: string, rest: seq<Action>)
    ensures Run(s, [SignOk(w), BroadcastFails(w, msg)] + rest) == Run(BroadcastFailsStep(SignOkStep(s, w), w, msg), rest)
  {
    var s' := SignOkStep(s, w);
    Advance(s, SignOk(w), s', [BroadcastFails(w, msg)] + rest);
    Advance(s', BroadcastFails(w, msg), BroadcastFailsStep(s', w, msg), rest);
    assert [SignOk(w)] + ([BroadcastFails(w, msg)] + rest) == [SignOk(w), BroadcastFails(w, msg)] + rest;
  }

  lemma NotesRun(s: State, w: ActorId, first: bool, second: bool)
    ensures Run(s, [NoteFailed(w, first), NoteUnknown(w, second)]) == Noted(s, w, first, second)
  {
    var s' := NoteFailedStep(s, w, first);
    Advance(s, NoteFailed(w, first), s', [NoteUnknown(w, second)]);
    Advance(s', NoteUnknown(w, second), NoteUnknownStep(s', w, second), []);
    assert [NoteFailed(w, first)] + [NoteUnknown(w, second)] == [NoteFailed(w, first), NoteUnknown(w, second)];
    assert [NoteUnknown(w, second)] + [] == [NoteUnknown(w, second)];
  }

  lemma SendRuns(s: State, w: ActorId, rest: seq<Action>)
    ensures Run(s, [SignOk(w), BroadcastOk(w)] + rest) == Run(BroadcastOkStep(SignOkStep(s, w), w), rest)
  {
    var s' := SignOkStep(s, w);
    Advance(s, SignOk(w), s', [BroadcastOk(w)] + rest);
    Advance(s', BroadcastOk(w), BroadcastOkStep(s', w), rest);
    assert [SignOk(w)] + ([BroadcastOk(w)] + rest) == [SignOk(w), BroadcastOk(w)] + rest;
  }

  lemma RecordRuns(s: State, w: ActorId, recorded: bool, burned: bool)
    ensures Run(s, [Record(w, recorded), if burned then BurnStep(w) else Crash(w)])
            == Burned(RecordStep(s, w, recorded), w, burned)
  {
    var s' := RecordStep(s, w, recorded);
    var a := if burned then BurnStep(w) else Crash(w);
    Advance(s, Record(w, recorded), s', [a]);
    Advance(s', a, Burned(s', w, burned), []);
    assert [Record(w, recorded)] + [a] == [Record(w, recorded), a] && [a] + [] == [a];
  }

  lemma ScriptRuns(s: State, w: ActorId, id: RowId, o: Outcome)
    ensures Run(s, Script(w, id, o)) == if o.ClaimError? then s else AfterClaim(ClaimStep(s, w, id), w, o)
  {
    if !o.ClaimError? {
      hide Step, ClaimStep, SignFailsStep, SignOkStep, DryRunStep, BroadcastFailsStep, BroadcastOkStep, RecordStep, Ended,
        Noted, Burned;
      var s' := ClaimStep(s, w, id);
      var rest := Script(w, id, o)[1..];
      assert Script(w, id, o) == [Claim(w, id)] + rest;
      ClaimRuns(s, w, id, rest);
      match o
      case BuildOrSignError(msg, recorded, unlocked) => GiveUpRuns(s', w, msg, recorded, unlocked);
      case DryRunOnly(msg, recorded) => DryRunRuns(s', w, msg, recorded);
      case BroadcastError(msg, first, second) =>
        assert rest == [SignOk(w), BroadcastFails(w, msg)] + [NoteFailed(w, first), NoteUnknown(w, second)];
        ErrorRuns(s', w, msg, [NoteFailed(w, first), NoteUnknown(w, second)]);
        NotesRun(BroadcastFailsStep(SignOkStep(s', w), w, msg), w, first, second);
      case BroadcastDone(recorded, burned) =>
        var last := if burned then BurnStep(w) else Crash(w);
        assert rest == [SignOk(w), BroadcastOk(w)] + [Record(w, recorded), last];
        SendRuns(s', w, [Record(w, recorded), last]);
        RecordRuns(BroadcastOkStep(SignOkStep(s', w), w), w, recorded, burned);
    }
  }

  lemma PassRuns(s: State, p: ActorId, head: int, ids: seq<nat>, commit: bool)
    ensures Run(s, Pass(p, head, ids, commit)) == AfterSelect(ScannerStep(s, Promote(head)), p, ids, commit)
  {
    var begin, end := BeginPass(p, ids), if commit then CommitPass(p) else AbortPass(p);
    ScannerAdvance(s, Promote(head), [begin, end]);
    ScannerAdvance(ScannerStep(s, Promote(head)), begin, [end]);
    ScannerAdvance(ScannerStep(ScannerStep(s, Promote(head)), begin), end, []);
    hide ScannerStep, Run;
    assert [Promote(head)] + [begin, end] == Pass(p, head, ids, commit);
    assert [begin] + [end] == [begin, end] && [end] + [] == [end];
    RunOfNone(AfterSelect(ScannerStep(s, Promote(head)), p, ids, commit));
  }

  lemma ScannerAdvance(s: State, a: Action, rest: seq<Action>)
    requires ByScanner(a)
    ensures Run(s, [a] + rest) == Run(ScannerStep(s, a), rest)
  {
    hide ScannerStep;
    Advance(s, a, ScannerStep(s, a), rest);
  }

  lemma RunOfNone(s: State)
    ensures Run(s, []) == s
  {
  }

  /** A worker without a job, such as one that lost the race for a row, changes nothing. */
  lemma IdleWorkerDoesNothing(s: State, w: ActorId, o: Outcome)
    requires w !in s.jobs
    ensures AfterClaim(s, w, o) == s
  {
    assert Free(s, w) == s.jobs;
  }
}
