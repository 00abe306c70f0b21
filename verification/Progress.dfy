/** How many engine calls a rotation takes. */
module Progress {
  import opened RotationTypes
  import opened EngineSpec
  import opened Machine
  import opened Safety
  import opened Recovery
  import opened CrashFree

  function PendingCount(steps: seq<Step>): nat {
    if steps == [] then 0
    else PendingCount(steps[..|steps| - 1]) + if steps[|steps| - 1].status == Pending then 1 else 0
  }

  lemma {:induction false} PendingCountSet(steps: seq<Step>, i: nat, status: StepStatus)
    requires i < |steps| && steps[i].status == Pending && status != Pending
    ensures PendingCount(SetStep(steps, i, status)) == PendingCount(steps) - 1
  {
    var r, n := SetStep(steps, i, status), |steps| - 1;
    if i == n {
      assert r[..n] == steps[..n];
    } else {
      PendingCountSet(steps[..n], i, status);
      assert r[..n] == SetStep(steps[..n], i, status);
    }
  }

  lemma {:induction false} PendingCountPositive(steps: seq<Step>, i: nat)
    requires i < |steps| && steps[i].status == Pending
    ensures PendingCount(steps) > 0
  {
    if i < |steps| - 1 {
      PendingCountPositive(steps[..|steps| - 1], i);
    }
  }

  // ---- chains of re-enqueued jobs ----

  datatype Call = Call(now: int, o: Oracle)

  function After(s: Sys, call: Call): Sys {
    Replay(s, AdvanceEvents(s.row, call.now, call.o))
  }

  /** Each call but the last asked for the job to be enqueued again. */
  predicate Chain(s: Sys, calls: seq<Call>)
    decreases |calls|
  {
    |calls| <= 1 || (Continues(s.row, calls[0].now, calls[0].o) && Chain(After(s, calls[0]), calls[1..]))
  }

  lemma ContinuingCall(s: Sys, now: int, o: Oracle)
    requires Continues(s.row, now, o)
    ensures var i := FirstPending(s.row.steps);
            && i < |s.row.steps|
            && Replay(s, AdvanceEvents(s.row, now, o)).row == DoneRow(s.row, i, RefFrom(s.row.steps[i], s.row, o.exec))
            && PendingAfter(s.row.steps, i)
  {
    var i := FirstPending(s.row.steps);
    assert AdvanceEvents(s.row, now, o) == RunEvents(s.row, i, o);
    hide AdvanceEvents, Replay;
    DoneState(s, i, o);
  }

  /** A chain of self re-enqueues from p pending steps takes at most max(1, p) calls,
      whatever the rotation's history. */
  lemma {:induction false} ChainBound(s: Sys, calls: seq<Call>)
    requires calls != [] && Chain(s, calls)
    ensures |calls| == 1 || |calls| <= PendingCount(s.row.steps)
    decreases |calls|
  {
    hide Continues, DoneRow;
    if |calls| > 1 {
      ContinuingCall(s, calls[0].now, calls[0].o);
      var t := After(s, calls[0]);
      ChainBound(t, calls[1..]);
      var i := FirstPending(s.row.steps);
      DoneRowCount(s.row, i, RefFrom(s.row.steps[i], s.row, calls[0].o.exec));
    }
  }

  lemma DoneRowCount(row: Row, i: nat, ref: Option<SecretRef>)
    requires i < |row.steps| && row.steps[i].status == Pending && PendingAfter(row.steps, i)
    ensures 0 < PendingCount(DoneRow(row, i, ref).steps) == PendingCount(row.steps) - 1
  {
    PendingCountSet(row.steps, i, Done);
    var j :| i < j < |row.steps| && row.steps[j].status == Pending;
    PendingCountPositive(DoneRow(row, i, ref).steps, j);
  }

  // ---- the exact cost of a rotation that nothing goes wrong in ----

  predicate Helpful(out: Outcome) {
    out.create.Some? && out.writeOk && out.verify == Passed && out.disableOk && out.deleteOk
  }

  /** One approval, one confirmation per pause, and jobs that neither crash nor fail. */
  predicate PromptAct(c: Config, a: Action) {
    var row := c.db.row;
    match a
    case Approve(sent) => sent && c.jobs == 0 && row.status == PendingApproval
    case Confirm(i, sent) =>
      && sent && c.jobs == 0 && row.status == AwaitingConfirmation
      && i == FirstPending(row.steps) && i < |row.steps| && row.steps[i].flagged
    case Job(now, o, fate) => c.jobs > 0 && fate.Finishes? && !Expired(row, now) && Helpful(o.exec)
    case _ => false
  }

  ghost predicate PromptRun(init: Sys, actions: seq<Action>) {
    Throughout(PromptAct, init, actions)
  }

  function JobCount(actions: seq<Action>): nat {
    if actions == [] then 0
    else JobCount(actions[..|actions| - 1]) + if actions[|actions| - 1].Job? then 1 else 0
  }

  /** The flagged steps from `k` on. */
  function FlagCount(steps: seq<Step>, k: nat): nat
    requires k <= |steps|
    decreases |steps| - k
  {
    if k == |steps| then 0 else (if steps[k].flagged then 1 else 0) + FlagCount(steps, k + 1)
  }

  lemma {:induction false} FlagCountSame(a: seq<Step>, b: seq<Step>, k: nat)
    requires k <= |a| == |b| && forall j :: k <= j < |a| ==> a[j].flagged == b[j].flagged
    ensures FlagCount(a, k) == FlagCount(b, k)
    decreases |a| - k
  {
    if k < |a| {
      FlagCountSame(a, b, k + 1);
    }
  }

  predicate OnPause(row: Row, k: nat) {
    k < |row.steps| && row.status == AwaitingConfirmation && row.steps[k].flagged
  }

  /** The engine calls still needed when the first `k` steps are done. */
  function Cost(row: Row, k: nat): int
    requires k <= |row.steps|
  {
    |row.steps| - k + FlagCount(row.steps, k) - if OnPause(row, k) then 1 else 0
  }

  /** The first `k` steps are done and exactly one thing can happen next. */
  predicate Stage(c: Config, k: nat) {
    var row := c.db.row;
    && Prefixed(row.steps, k) && |row.steps| > 0 && VerifiesFirst(row.steps)
    && if k == |row.steps| then row.status == Completed && c.jobs == 0
       else if OnPause(row, k) then c.jobs == 0
       else if row.status == PendingApproval then k == 0 && c.jobs <= 1
       else !Terminal(row.status) && c.jobs == 1
  }

  lemma PromptPause(c: Config, a: Action, k: nat)
    requires Stage(c, k) && PromptAct(c, a) && a.Job?
    requires c.db.row.steps[k].flagged && c.db.row.status != AwaitingConfirmation
    ensures Stage(Act(c, a), k) && Cost(Act(c, a).db.row, k) == Cost(c.db.row, k) - 1
  {
    PauseEvents(c.db.row, a.now, a.o, k);
    ReplayOne(c.db, Paused(k));
    FlagCountSame(c.db.row.steps, Act(c, a).db.row.steps, k);
  }

  lemma PromptStep(c: Config, a: Action, k: nat)
    requires Stage(c, k) && PromptAct(c, a) && a.Job? && k < |c.db.row.steps| && !OnPause(c.db.row, k)
    requires !c.db.row.steps[k].flagged
    ensures Stage(Act(c, a), k + 1) && Cost(Act(c, a).db.row, k + 1) == Cost(c.db.row, k) - 1
  {
    hide Act, Replay;
    PoisedRuns(c, a.now, a.o, k);
    var ref := RefFrom(c.db.row.steps[k], c.db.row, a.o.exec);
    DoneRowPrefixed(c.db.row, k, ref);
    FlagCountSame(c.db.row.steps, DoneRow(c.db.row, k, ref).steps, k + 1);
  }

  lemma PromptConfirm(c: Config, a: Action, k: nat)
    requires Stage(c, k) && PromptAct(c, a) && a.Confirm? && a.i == k < |c.db.row.steps|
    ensures Stage(Act(c, a), k) && Cost(Act(c, a).db.row, k) == Cost(c.db.row, k)
  {
    ReplayOne(c.db, Confirmed(k));
    FlagCountSame(c.db.row.steps, Act(c, a).db.row.steps, k + 1);
  }

  lemma PromptApprove(c: Config, a: Action, k: nat)
    requires Stage(c, k) && PromptAct(c, a) && a.Approve?
    ensures Stage(Act(c, a), k) && Cost(Act(c, a).db.row, k) == Cost(c.db.row, k)
  {
    ReplayOne(c.db, Approved);
  }

  lemma PromptActs(c: Config, a: Action, k: nat) returns (k': nat)
    requires Stage(c, k) && PromptAct(c, a)
    ensures Stage(Act(c, a), k')
    ensures Cost(Act(c, a).db.row, k') == Cost(c.db.row, k) - if a.Job? then 1 else 0
  {
    hide Act, Cost, FlagCount;
    k' := k;
    FirstPendingIs(c.db.row.steps, k);
    match a
    case Approve(_) => PromptApprove(c, a, k);
    case Confirm(_, _) => PromptConfirm(c, a, k);
    case Job(_, _, _) =>
      if c.db.row.steps[k].flagged && c.db.row.status != AwaitingConfirmation {
        PromptPause(c, a, k);
      } else {
        PromptStep(c, a, k);
        k' := k + 1;
      }
    case _ =>
  }

  lemma {:induction false} PromptStages(init: Sys, actions: seq<Action>) returns (k: nat)
    requires Initial(init) && |init.row.steps| > 0 && VerifiesFirst(init.row.steps) && PromptRun(init, actions)
    ensures Stage(Run(init, actions), k)
    ensures JobCount(actions) + Cost(Run(init, actions).db.row, k) ==
            |init.row.steps| + FlagCount(init.row.steps, 0)
    decreases |actions|
  {
    hide Act, Cost;
    if actions == [] {
      k := 0;
      RunEmptyCost(init);
    } else {
      var before := actions[..|actions| - 1];
      k := PromptStages(init, before);
      k := PromptActs(Run(init, before), actions[|actions| - 1], k);
    }
  }

  lemma RunEmptyCost(init: Sys)
    ensures Run(init, []) == Config(init, 0, [])
    ensures Initial(init) ==> Cost(init.row, 0) == |init.row.steps| + FlagCount(init.row.steps, 0)
  {
  }

  /** With all verifies before all revokes, an unexpired plan, helpful connectors and one
      confirmation per pause, the rotation is completed exactly when n + c engine calls
      have run: n steps, of which c were flagged. */
  lemma ExactCost(init: Sys, actions: seq<Action>)
    requires Initial(init) && |init.row.steps| > 0 && VerifiesFirst(init.row.steps) && PromptRun(init, actions)
    ensures JobCount(actions) <= |init.row.steps| + FlagCount(init.row.steps, 0)
    ensures Run(init, actions).db.row.status == Completed
            <==> JobCount(actions) == |init.row.steps| + FlagCount(init.row.steps, 0)
  {
    hide Run, PromptRun;
    var k := PromptStages(init, actions);
    var row := Run(init, actions).db.row;
    assert k < |row.steps| ==> Cost(row, k) > 0;
  }

  /** Until then the run can always go on, in exactly one way. */
  lemma NeverStuck(init: Sys, actions: seq<Action>)
    requires Initial(init) && |init.row.steps| > 0 && VerifiesFirst(init.row.steps) && PromptRun(init, actions)
    requires Run(init, actions).db.row.status != Completed
    ensures var c := Run(init, actions);
            var confirm := Confirm(FirstPending(c.db.row.steps), true);
            || (c.jobs == 1 && !PromptAct(c, Approve(true)) && !PromptAct(c, confirm))
            || (c.jobs == 0 && PromptAct(c, Approve(true)) && !PromptAct(c, confirm))
            || (c.jobs == 0 && !PromptAct(c, Approve(true)) && PromptAct(c, confirm))
  {
    hide Run, PromptRun;
    var k := PromptStages(init, actions);
    FirstPendingIs(Run(init, actions).db.row.steps, k);
  }
}
