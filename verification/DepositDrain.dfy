/** How fast committed credit passes drain the confirmed deposits. */
module DepositDrain {
  import opened Ledger
  import opened Custody
  import opened CustodyProofs
  import opened Options

  /** Deposits a pass may take: confirmed and not locked by another scanner instance. */
  ghost function Takable(s: State): set<nat> {
    set i: nat | i < |s.deposits| && s.deposits[i].status == Confirmed && !Locked(s, i)
  }

  ghost function Elements(ids: seq<nat>): set<nat> {
    set i | i in ids
  }

  lemma {:induction false} DistinctCount(ids: seq<nat>)
    requires forall i, j :: 0 <= i < j < |ids| ==> ids[i] != ids[j]
    ensures |Elements(ids)| == |ids|
  {
    if ids == [] {
    } else {
      DistinctCount(ids[1..]);
      assert Elements(ids) == Elements(ids[1..]) + {ids[0]};
      assert ids[0] !in Elements(ids[1..]);
    }
  }

  lemma SubsetCount(a: set<nat>, b: set<nat>)
    requires a <= b
    ensures |b - a| == |b| - |a|
  {
    assert b == a + (b - a);
  }

  /** A pass takes a hundred deposits, or all of them if there are fewer. */
  lemma PassSize(s: State, ids: seq<nat>)
    requires Selectable(s, ids)
    ensures Elements(ids) <= Takable(s)
    ensures |ids| == if |Takable(s)| < PASS_LIMIT then |Takable(s)| else PASS_LIMIT
  {
    DistinctCount(ids);
    SubsetCount(Elements(ids), Takable(s));
    if |ids| < PASS_LIMIT {
      assert Takable(s) <= Elements(ids);
    }
  }

  /** One scan by instance `p`: open the credit transaction on `ids`, then commit it. */
  function Pass(s: State, p: ActorId, ids: seq<nat>): State {
    ScannerStep(ScannerStep(s, BeginPass(p, ids)), CommitPass(p))
  }

  lemma PassKeepsInv(s: State, p: ActorId, ids: seq<nat>, others: Holds)
    requires Inv(s, others)
    ensures Inv(Pass(s, p, ids), others)
  {
    var s1 := ScannerStep(s, BeginPass(p, ids));
    assert Step(s, BeginPass(p, ids)) == s1 && Step(s1, CommitPass(p)) == Pass(s, p, ids);
    StepKeepsInv(s, BeginPass(p, ids), others);
    StepKeepsInv(s1, CommitPass(p), others);
  }

  lemma PassCredits(s: State, p: ActorId, ids: seq<nat>)
    requires Core(s) && p !in s.passes && Selectable(s, ids)
    ensures var s' := Pass(s, p, ids);
            && s'.passes == s.passes && |s'.deposits| == |s.deposits|
            && forall i :: 0 <= i < |s.deposits| ==>
                 s'.deposits[i].status == if i in ids then Credited else s.deposits[i].status
  {
    var s1 := ScannerStep(s, BeginPass(p, ids));
    BeginPassKeeps(s, p, ids);
    CommitCredits(s1, p);
    assert s1.passes - {p} == s.passes;
  }

  lemma PassDrains(s: State, p: ActorId, ids: seq<nat>, others: Holds)
    requires Inv(s, others) && p !in s.passes && Selectable(s, ids)
    ensures var s' := Pass(s, p, ids);
            && Inv(s', others) && s'.passes == s.passes
            && |Takable(s')| == if |Takable(s)| < PASS_LIMIT then 0 else |Takable(s)| - PASS_LIMIT
  {
    var s' := Pass(s, p, ids);
    PassKeepsInv(s, p, ids, others);
    PassCredits(s, p, ids);
    PassSize(s, ids);
    DistinctCount(ids);
    forall i: nat ensures i in Takable(s') <==> i in Takable(s) - Elements(ids) {
      assert Locked(s', i) == Locked(s, i);
    }
    assert Takable(s') == Takable(s) - Elements(ids);
    SubsetCount(Elements(ids), Takable(s));
  }

  /** Any number of passes of one instance, each on whatever rows its SELECT happened to return. */
  ghost predicate PassesRunOk(s: State, p: ActorId, choices: seq<seq<nat>>)
    decreases |choices|
  {
    choices == [] || (Selectable(s, choices[0]) && PassesRunOk(Pass(s, p, choices[0]), p, choices[1..]))
  }

  function RunPasses(s: State, p: ActorId, choices: seq<seq<nat>>): State
    decreases |choices|
  {
    if choices == [] then s else RunPasses(Pass(s, p, choices[0]), p, choices[1..])
  }

  /** After n committed passes exactly k - 100n of k takable deposits are left, or none: the k deposits drain in
      the ceil(k/100)-th pass and not before. */
  lemma {:induction false} PassesDrain(s: State, p: ActorId, choices: seq<seq<nat>>, others: Holds)
    requires Inv(s, others) && p !in s.passes && PassesRunOk(s, p, choices)
    ensures var k, n := |Takable(s)|, |choices|;
            |Takable(RunPasses(s, p, choices))| == if k <= PASS_LIMIT * n then 0 else k - PASS_LIMIT * n
    decreases |choices|
  {
    if choices == [] {
    } else {
      PassDrains(s, p, choices[0], others);
      PassesDrain(Pass(s, p, choices[0]), p, choices[1..], others);
    }
  }

  // ---------------------------------------------------------------- in any run

  ghost function Promotables(s: State, head: int): set<nat> {
    set i: nat | i < |s.deposits| && Promotable(s.deposits[i], head)
  }

  predicate Opens(s: State, a: Action) { a.BeginPass? && a.pass !in s.passes && Selectable(s, a.ids) }

  /** How many deposits a step promotes, and how many it credits by committing a pass. */
  ghost function Promoted(s: State, a: Action): nat {
    if a.Promote? then |Promotables(s, a.head)| else 0
  }

  function Committed(s: State, a: Action): nat {
    if a.CommitPass? && a.pass in s.passes then |s.passes[a.pass]| else 0
  }

  /** How many takable deposits a step adds, by promoting them or by aborting the pass that had locked them; None is
      a pass that opens and takes some. */
  ghost function Added(s: State, a: Action): Option<nat> {
    if Opens(s, a) then None
    else if a.AbortPass? && a.pass in s.passes then Some(|s.passes[a.pass]|)
    else Some(Promoted(s, a))
  }

  lemma LockedIffInPass(s: State, p: ActorId, s': State, i: nat)
    requires s'.passes == s.passes - {p} && p in s.passes && PassesOk(s)
    ensures Locked(s', i) <==> Locked(s, i) && i !in s.passes[p]
  {
    if Locked(s, i) && i !in s.passes[p] {
      var q :| q in s.passes && i in s.passes[q];
      assert q in s'.passes;
    }
    if Locked(s', i) {
      var q :| q in s'.passes && i in s'.passes[q];
      assert q != p && q in s.passes;
    }
  }

  lemma PromoteAdds(s: State, head: int)
    requires Core(s)
    ensures |Takable(ScannerStep(s, Promote(head)))| == |Takable(s)| + |Promotables(s, head)|
  {
    var s' := ScannerStep(s, Promote(head));
    forall i: nat ensures i in Takable(s') <==> i in Takable(s) + Promotables(s, head) {
      assert Locked(s', i) == Locked(s, i);
      if Locked(s, i) {
        var q :| q in s.passes && i in s.passes[q];
        assert PassOk(s, s.passes[q]);
      }
    }
    assert Takable(s') == Takable(s) + Promotables(s, head);
    assert Takable(s) !! Promotables(s, head);
  }

  lemma DetectAddsNothing(s: State, k: Key, amount: real, block: Option<int>)
    requires Core(s)
    ensures Takable(ScannerStep(s, Detect(k, amount, block))) == Takable(s)
  {
    var s' := ScannerStep(s, Detect(k, amount, block));
    forall i: nat ensures i in Takable(s') <==> i in Takable(s) {
      assert Locked(s', i) == Locked(s, i);
    }
  }

  /** What a pass takes nobody else may take while it is open. */
  lemma BeginTakes(s: State, p: ActorId, ids: seq<nat>)
    requires p !in s.passes && Selectable(s, ids)
    ensures |Takable(ScannerStep(s, BeginPass(p, ids)))|
         == if |Takable(s)| < PASS_LIMIT then 0 else |Takable(s)| - PASS_LIMIT
  {
    var s' := ScannerStep(s, BeginPass(p, ids));
    PassSize(s, ids);
    DistinctCount(ids);
    forall i: nat ensures Locked(s', i) <==> Locked(s, i) || i in ids {
      if Locked(s, i) {
        var q :| q in s.passes && i in s.passes[q];
        assert q in s'.passes;
      }
      assert s'.passes[p] == ids;
    }
    assert Takable(s') == Takable(s) - Elements(ids);
    SubsetCount(Elements(ids), Takable(s));
  }

  /** Committing takes away what was not takable already. */
  lemma CommitTakesNothing(s: State, p: ActorId)
    requires Core(s) && p in s.passes
    ensures Takable(ScannerStep(s, CommitPass(p))) == Takable(s)
  {
    var s' := ScannerStep(s, CommitPass(p));
    CommitCredits(s, p);
    forall i: nat ensures i in Takable(s') <==> i in Takable(s) { LockedIffInPass(s, p, s', i); }
  }

  /** Aborting gives back all the pass had locked. */
  lemma AbortReturns(s: State, p: ActorId)
    requires Core(s) && p in s.passes
    ensures |Takable(ScannerStep(s, AbortPass(p)))| == |Takable(s)| + |s.passes[p]|
  {
    var s' := ScannerStep(s, AbortPass(p));
    var ids := s.passes[p];
    assert PassOk(s, ids);
    DistinctCount(ids);
    forall i: nat ensures i in Takable(s') <==> i in Takable(s) + Elements(ids) { LockedIffInPass(s, p, s', i); }
    assert Takable(s') == Takable(s) + Elements(ids);
    assert Takable(s) !! Elements(ids);
  }

  lemma SameDepositsSameTakable(s: State, s': State)
    requires s'.deposits == s.deposits && s'.passes == s.passes
    ensures Takable(s') == Takable(s)
  {
    forall i: nat ensures i in Takable(s') <==> i in Takable(s) {
      assert Locked(s', i) == Locked(s, i);
    }
  }

  /** Users, admins, workers and watchers leave the deposits alone. */
  lemma DaemonsLeaveDeposits(s: State, a: Action)
    requires !ByScanner(a)
    ensures Step(s, a).deposits == s.deposits && Step(s, a).passes == s.passes
  {
    hide WorkerStep, WatcherStep, DeskStep;
    if ByDesk(a) { DeskHead(s, a); } else if ByWatcher(a) { WatcherHead(s, a); } else { WorkerHead(s, a); }
  }

  /** One entry of the backlog: a pass takes a hundred or all there are, what is added adds up. */
  function After(k: nat, added: Option<nat>): nat {
    match added
    case None => if k < PASS_LIMIT then 0 else k - PASS_LIMIT
    case Some(m) => k + m
  }

  function Backlog(k: nat, entries: seq<Option<nat>>): nat
    decreases |entries|
  {
    if entries == [] then k else Backlog(After(k, entries[0]), entries[1..])
  }

  lemma ScannerMovesBacklog(s: State, a: Action)
    requires Core(s) && ByScanner(a)
    ensures |Takable(ScannerStep(s, a))| == After(|Takable(s)|, Added(s, a))
  {
    hide Takable, Selectable, Core;
    match a
    case Detect(k, amount, block) => DetectAddsNothing(s, k, amount, block);
    case Promote(head) => PromoteAdds(s, head);
    case BeginPass(p, ids) => if Opens(s, a) { BeginTakes(s, p, ids); }
    case CommitPass(p) => if p in s.passes { CommitTakesNothing(s, p); }
    case AbortPass(p) =>
      if p in s.passes { AbortReturns(s, p); } else { SameDepositsSameTakable(s, ScannerStep(s, a)); }
  }

  lemma StepMovesBacklog(s: State, a: Action)
    requires Core(s)
    ensures |Takable(Step(s, a))| == After(|Takable(s)|, Added(s, a))
  {
    hide Takable, Core;
    if ByScanner(a) {
      ScannerMovesBacklog(s, a);
    } else {
      DaemonsLeaveDeposits(s, a);
      SameDepositsSameTakable(s, Step(s, a));
    }
  }

  ghost function Entries(s: State, actions: seq<Action>): seq<Option<nat>>
    decreases |actions|
  {
    if actions == [] then [] else [Added(s, actions[0])] + Entries(Step(s, actions[0]), actions[1..])
  }

  /** In every run, whichever scanner instances open, commit and abort passes in whatever order and whatever everybody
      else does, the number of takable deposits is the backlog of what was added and of the passes opened. */
  lemma {:induction false} ScansDrain(s: State, actions: seq<Action>)
    requires Core(s)
    ensures |Takable(Run(s, actions))| == Backlog(|Takable(s)|, Entries(s, actions))
    decreases |actions|
  {
    if actions == [] {
    } else {
      hide Takable, Core, Step;
      var s' := Step(s, actions[0]);
      StepMovesBacklog(s, actions[0]);
      StepIsCore(s, actions[0]);
      ScansDrain(s', actions[1..]);
      var entries := Entries(s, actions);
      assert entries[0] == Added(s, actions[0]) && entries[1..] == Entries(s', actions[1..]);
    }
  }

  lemma StepIsCore(s: State, a: Action)
    requires Core(s)
    ensures Core(Step(s, a))
  {
    hide Core, Step;
    StepKeepsCore(s, a);
  }

  // ---------------------------------------------------------------- confirmed and credited

  ghost function Having(s: State, st: DepositStatus): set<nat> {
    set i: nat | i < |s.deposits| && s.deposits[i].status == st
  }

  lemma CommitMoves(s: State, p: ActorId)
    requires Core(s) && p in s.passes
    ensures var s', n := ScannerStep(s, CommitPass(p)), |s.passes[p]|;
            && |Having(s', Confirmed)| == |Having(s, Confirmed)| - n
            && |Having(s', Credited)| == |Having(s, Credited)| + n
            && n <= PASS_LIMIT
  {
    var s', ids := ScannerStep(s, CommitPass(p)), s.passes[p];
    assert PassOk(s, ids);
    CommitCredits(s, p);
    DistinctCount(ids);
    assert Having(s', Confirmed) == Having(s, Confirmed) - Elements(ids);
    SubsetCount(Elements(ids), Having(s, Confirmed));
    assert Having(s', Credited) == Having(s, Credited) + Elements(ids);
    assert Having(s, Credited) !! Elements(ids);
  }

  lemma PromoteOne(s: State, head: int, i: nat)
    requires i < |s.deposits|
    ensures var s' := ScannerStep(s, Promote(head));
            && |s'.deposits| == |s.deposits|
            && s'.deposits[i].status == (if Promotable(s.deposits[i], head) then Confirmed else s.deposits[i].status)
            && (Promotable(s.deposits[i], head) ==> s.deposits[i].status == Detected)
  {
  }

  lemma PromoteMoves(s: State, head: int)
    ensures var s' := ScannerStep(s, Promote(head));
            && |Having(s', Confirmed)| == |Having(s, Confirmed)| + |Promotables(s, head)|
            && |Having(s', Credited)| == |Having(s, Credited)|
  {
    var s' := ScannerStep(s, Promote(head));
    forall i: nat ensures && (i in Having(s', Confirmed) <==> i in Having(s, Confirmed) + Promotables(s, head))
                          && (i in Having(s', Credited) <==> i in Having(s, Credited)) {
      if i < |s.deposits| { PromoteOne(s, head, i); }
    }
    hide ScannerStep, Promotable;
    assert Having(s', Confirmed) == Having(s, Confirmed) + Promotables(s, head);
    assert Having(s, Confirmed) !! Promotables(s, head);
    assert Having(s', Credited) == Having(s, Credited);
  }

  lemma DetectMovesNothing(s: State, k: Key, amount: real, block: Option<int>)
    ensures var s' := ScannerStep(s, Detect(k, amount, block));
            Having(s', Confirmed) == Having(s, Confirmed) && Having(s', Credited) == Having(s, Credited)
  {
  }

  lemma SameDepositsSameHaving(s: State, s': State)
    requires s'.deposits == s.deposits
    ensures forall st :: Having(s', st) == Having(s, st)
  {
  }

  lemma StepMoves(s: State, a: Action)
    requires Core(s)
    ensures var s' := Step(s, a);
            && |Having(s', Confirmed)| == |Having(s, Confirmed)| + Promoted(s, a) - Committed(s, a)
            && |Having(s', Credited)| == |Having(s, Credited)| + Committed(s, a)
            && Committed(s, a) <= PASS_LIMIT
  {
    if ByScanner(a) {
      hide Having, Promotables, Core, CreditAll, PromoteAll, Selectable;
      match a
      case Detect(k, amount, block) => DetectMovesNothing(s, k, amount, block);
      case Promote(head) => PromoteMoves(s, head);
      case CommitPass(p) => if p in s.passes { CommitMoves(s, p); }
      case BeginPass(_, _) => SameDepositsSameHaving(s, Step(s, a));
      case AbortPass(_) => SameDepositsSameHaving(s, Step(s, a));
    } else {
      hide Step, Having, Core;
      DaemonsLeaveDeposits(s, a);
      SameDepositsSameHaving(s, Step(s, a));
    }
  }

  /** Promoted in a run, credited by its committed passes, and the number of those passes. */
  ghost function AllPromoted(s: State, actions: seq<Action>): nat
    decreases |actions|
  {
    if actions == [] then 0 else Promoted(s, actions[0]) + AllPromoted(Step(s, actions[0]), actions[1..])
  }

  function AllCommitted(s: State, actions: seq<Action>): nat
    decreases |actions|
  {
    if actions == [] then 0 else Committed(s, actions[0]) + AllCommitted(Step(s, actions[0]), actions[1..])
  }

  function Commits(s: State, actions: seq<Action>): nat
    decreases |actions|
  {
    if actions == [] then 0
    else
      var a := actions[0];
      (if a.CommitPass? && a.pass in s.passes then 1 else 0) + Commits(Step(s, a), actions[1..])
  }

  /** In every run of any instances: a deposit leaves the confirmed ones only by a committed pass, which credits it, and
      no pass credits more than a hundred. */
  lemma {:induction false} RunDrains(s: State, actions: seq<Action>)
    requires Core(s)
    ensures var s', n := Run(s, actions), AllCommitted(s, actions);
            && |Having(s', Confirmed)| == |Having(s, Confirmed)| + AllPromoted(s, actions) - n
            && |Having(s', Credited)| == |Having(s, Credited)| + n
            && n <= PASS_LIMIT * Commits(s, actions)
    decreases |actions|
  {
    if actions == [] {
    } else {
      hide Having, Core, Step, Promoted;
      StepMoves(s, actions[0]);
      StepIsCore(s, actions[0]);
      RunDrains(Step(s, actions[0]), actions[1..]);
    }
  }

  // ---------------------------------------------------------------- the backlog in figures

  function Passes(entries: seq<Option<nat>>): nat {
    if entries == [] then 0 else (if entries[0].None? then 1 else 0) + Passes(entries[1..])
  }

  function Additions(entries: seq<Option<nat>>): nat {
    if entries == [] then 0 else (if entries[0].Some? then entries[0].value else 0) + Additions(entries[1..])
  }

  /** No pass found fewer than a hundred deposits. */
  predicate NeverShort(k: nat, entries: seq<Option<nat>>)
    decreases |entries|
  {
    entries == [] || ((entries[0].None? ==> k >= PASS_LIMIT) && NeverShort(After(k, entries[0]), entries[1..]))
  }

  /** n passes take 100n deposits out of those there were and those that were added, exactly if none of them ran short;
      otherwise fewer. */
  lemma {:induction false} BacklogIs(k: nat, entries: seq<Option<nat>>)
    ensures Backlog(k, entries) >= k + Additions(entries) - PASS_LIMIT * Passes(entries)
    ensures Backlog(k, entries) == k + Additions(entries) - PASS_LIMIT * Passes(entries) <==> NeverShort(k, entries)
    decreases |entries|
  {
    if entries == [] {
    } else {
      BacklogIs(After(k, entries[0]), entries[1..]);
    }
  }
}
