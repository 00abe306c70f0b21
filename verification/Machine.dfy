/** Whole runs of one rotation: engine jobs, API requests and crashes in any order. */
module Machine {
  import opened RotationTypes
  import opened EngineSpec

  // A job that crashes has done the first `cut` effects of its call, and is then
  // delivered `again` more times (0: lost).
  datatype Fate = Finishes | Crashes(cut: nat, again: nat)

  // `sent` is false when the API process dies between its commit and the enqueue.
  datatype Action =
    | Approve(sent: bool)
    | Reject
    | Confirm(i: nat, sent: bool)
    | SimulateFailure
    | LockBusy
    | Job(now: int, o: Oracle, fate: Fate)

  datatype Config = Config(db: Sys, jobs: nat, log: seq<Event>)

  /** A rotation as trigger_rotation and the demo seed create it. */
  predicate Initial(s: Sys) {
    && s.row.status == PendingApproval
    && s.row.newRef == None
    && forall i :: 0 <= i < |s.row.steps| ==> s.row.steps[i].status == Pending
  }

  function Cut(fate: Fate, events: seq<Event>): seq<Event> {
    if fate.Crashes? && fate.cut <= |events| then events[..fate.cut] else events
  }

  /** The durable effects of an action; a request that the API answers with 409 has none. */
  function EventsOf(c: Config, a: Action): seq<Event> {
    var row := c.db.row;
    match a
    case Approve(_) => if row.status == PendingApproval then [Approved] else []
    case Reject => if row.status in {PendingApproval, AwaitingConfirmation} then [RejectedByUser] else []
    case Confirm(i, _) =>
      if row.status == AwaitingConfirmation && i < |row.steps| && row.steps[i].status == Pending
      then [Confirmed(i)] else []
    case SimulateFailure => if row.status == PendingApproval then [Simulated] else []
    case LockBusy => []
    case Job(now, o, fate) => if c.jobs == 0 then [] else Cut(fate, AdvanceEvents(row, now, o))
  }

  function JobsAfter(c: Config, a: Action): nat {
    match a
    case Approve(sent) => if sent && EventsOf(c, a) != [] then c.jobs + 1 else c.jobs
    case Confirm(_, sent) => if sent && EventsOf(c, a) != [] then c.jobs + 1 else c.jobs
    case Reject => c.jobs
    case SimulateFailure => c.jobs
    case LockBusy => if c.jobs == 0 then 0 else c.jobs - 1
    case Job(now, o, fate) =>
      if c.jobs == 0 then 0
      else if fate.Crashes? then c.jobs - 1 + fate.again
      else if Continues(c.db.row, now, o) then c.jobs
      else c.jobs - 1
  }

  function Act(c: Config, a: Action): Config {
    Config(Replay(c.db, EventsOf(c, a)), JobsAfter(c, a), c.log + EventsOf(c, a))
  }

  function Fold(step: (Config, Action) -> Config, c: Config, actions: seq<Action>): Config {
    if actions == [] then c
    else step(Fold(step, c, actions[..|actions| - 1]), actions[|actions| - 1])
  }

  function Run(init: Sys, actions: seq<Action>): Config {
    Fold(Act, Config(init, 0, []), actions)
  }

  /** Every action of the run meets the condition where it happens. */
  ghost predicate Throughout(ok: (Config, Action) -> bool, init: Sys, actions: seq<Action>) {
    actions == [] ||
    var before := actions[..|actions| - 1];
    Throughout(ok, init, before) && ok(Run(init, before), actions[|actions| - 1])
  }

  lemma RunLast(init: Sys, actions: seq<Action>)
    requires actions != []
    ensures Run(init, actions) == Act(Run(init, actions[..|actions| - 1]), actions[|actions| - 1])
  {
  }

  /** The durable state after the first `p` events of a log. */
  function At(init: Sys, log: seq<Event>, p: nat): Sys
    requires p <= |log|
  {
    Replay(init, log[..p])
  }

  // ---- when each event can occur ----

  predicate LastIs(hist: seq<Event>, e: Event) {
    hist != [] && hist[|hist| - 1] == e
  }

  predicate LastExecuted(hist: seq<Event>, i: nat) {
    hist != [] && hist[|hist| - 1].Executed? && hist[|hist| - 1].i == i
  }

  predicate Due(s: Sys, i: nat) {
    i < |s.row.steps| && FirstPending(s.row.steps) == i
  }

  predicate Runs(s: Sys, i: nat) {
    Due(s, i) && s.row.status == RunningStatus(s.row.steps[i].kind)
  }

  predicate GatePasses(s: Sys, i: nat)
    requires Due(s, i)
  {
    s.row.steps[i].kind == Revoke ==> GateOpen(s.row.steps)
  }

  predicate HighestDone(steps: seq<Step>, i: nat) {
    i < |steps| && steps[i].status == Done && forall j :: i < j < |steps| ==> steps[j].status != Done
  }

  /** The condition on the state and on the events before it under which `e` occurs. */
  predicate Legal(s: Sys, hist: seq<Event>, e: Event) {
    && !Terminal(s.row.status)
    && match e
       case PlanExpired => s.row.status == PendingApproval
       case Paused(i) => Due(s, i) && s.row.steps[i].flagged && s.row.status != AwaitingConfirmation
       case Blocked(i) =>
         Due(s, i) && !GatePasses(s, i) && (s.row.steps[i].flagged ==> s.row.status == AwaitingConfirmation)
       case Started(i) =>
         && Due(s, i) && GatePasses(s, i) && !Runs(s, i)
         && (s.row.steps[i].flagged ==> s.row.status == AwaitingConfirmation)
       case Executed(i, _) =>
         Runs(s, i) && GatePasses(s, i) && (s.row.steps[i].flagged ==> LastIs(hist, Started(i)))
       case StepDone(i, ref) =>
         && Runs(s, i) && GatePasses(s, i) && LastExecuted(hist, i)
         && var out := hist[|hist| - 1].out;
            StepOk(s.row.steps[i], s.row, out) && ref == RefFrom(s.row.steps[i], s.row, out)
       case StepFailed(i) =>
         && Runs(s, i) && GatePasses(s, i) && LastExecuted(hist, i)
         && !StepOk(s.row.steps[i], s.row, hist[|hist| - 1].out)
       case RollbackStarted => hist != [] && hist[|hist| - 1].StepFailed?
       case UndoRan(i, ok) =>
         s.row.status == RollingBack && HighestDone(s.row.steps, i) && (!ok ==> UndoCalls(s.row.steps[i], s.row))
       case UndoStored(i, ok) =>
         && s.row.status == RollingBack && i < |s.row.steps| && s.row.steps[i].status == Done
         && LastIs(hist, UndoRan(i, ok))
       case Finished(status) =>
         if status == Completed then FirstPending(s.row.steps) == |s.row.steps|
         else
           && status in {RolledBack, RollbackFailed} && s.row.status == RollingBack
           && forall i :: 0 <= i < |s.row.steps| ==> s.row.steps[i].status != Done
       case Approved => s.row.status == PendingApproval
       case RejectedByUser => s.row.status in {PendingApproval, AwaitingConfirmation}
       case Confirmed(i) =>
         s.row.status == AwaitingConfirmation && i < |s.row.steps| && s.row.steps[i].status == Pending
       case Simulated => s.row.status == PendingApproval
  }

  predicate Lawful(law: (Sys, seq<Event>, Event) -> bool, s: Sys, hist: seq<Event>, events: seq<Event>) {
    events == [] ||
    var before := events[..|events| - 1];
    Lawful(law, s, hist, before) && law(Replay(s, before), hist + before, events[|events| - 1])
  }

  lemma {:induction false} LawfulConcat(law: (Sys, seq<Event>, Event) -> bool,
                                        s: Sys, hist: seq<Event>, a: seq<Event>, b: seq<Event>)
    requires Lawful(law, s, hist, a) && Lawful(law, Replay(s, a), hist + a, b)
    ensures Lawful(law, s, hist, a + b)
    decreases |b|
  {
    hide Replay;
    if b == [] {
      assert a + b == a;
    } else {
      var b' := b[..|b| - 1];
      LawfulConcat(law, s, hist, a, b');
      ReplayAppend(s, a, b');
      assert (a + b)[..|a + b| - 1] == a + b';
      assert hist + (a + b') == hist + a + b';
    }
  }

  lemma {:induction false} LawfulPrefix(law: (Sys, seq<Event>, Event) -> bool,
                                        s: Sys, hist: seq<Event>, events: seq<Event>, n: nat)
    requires Lawful(law, s, hist, events) && n <= |events|
    ensures Lawful(law, s, hist, events[..n])
    decreases |events|
  {
    hide Replay;
    if n == |events| {
      assert events[..n] == events;
    } else {
      LawfulPrefix(law, s, hist, events[..|events| - 1], n);
      assert events[..|events| - 1][..n] == events[..n];
    }
  }

  predicate LegalSeq(s: Sys, hist: seq<Event>, events: seq<Event>) {
    Lawful(Legal, s, hist, events)
  }

  lemma LegalConcat(s: Sys, hist: seq<Event>, a: seq<Event>, b: seq<Event>)
    requires LegalSeq(s, hist, a) && LegalSeq(Replay(s, a), hist + a, b)
    ensures LegalSeq(s, hist, a + b)
  {
    LawfulConcat(Legal, s, hist, a, b);
  }

  lemma LegalPrefix(s: Sys, hist: seq<Event>, events: seq<Event>, n: nat)
    requires LegalSeq(s, hist, events) && n <= |events|
    ensures LegalSeq(s, hist, events[..n])
  {
    LawfulPrefix(Legal, s, hist, events, n);
  }

  /** Every event of a legal sequence is legal where it occurs. */
  lemma LegalHere(s: Sys, hist: seq<Event>, events: seq<Event>, k: nat)
    requires LegalSeq(s, hist, events) && k < |events|
    ensures Legal(Replay(s, events[..k]), hist + events[..k], events[k])
  {
    LegalPrefix(s, hist, events, k + 1);
    assert events[..k + 1][..k] == events[..k];
  }

  lemma LegalOne(s: Sys, hist: seq<Event>, e: Event)
    requires Legal(s, hist, e)
    ensures LegalSeq(s, hist, [e]) && Replay(s, [e]) == Apply(s, e)
  {
    ReplayOne(s, e);
    assert [e][..0] == [] && hist + [] == hist;
  }

  lemma LegalTwo(s: Sys, hist: seq<Event>, e: Event, f: Event)
    requires Legal(s, hist, e) && Legal(Apply(s, e), hist + [e], f)
    ensures LegalSeq(s, hist, [e, f]) && Replay(s, [e, f]) == Apply(Apply(s, e), f)
  {
    LegalOne(s, hist, e);
    LegalOne(Apply(s, e), hist + [e], f);
    LegalConcat(s, hist, [e], [f]);
    ReplayAppend(s, [e], [f]);
    assert [e] + [f] == [e, f];
  }

  // ---- the events of one engine call are legal ----

  /** `s` is reached from the loaded `row` inside a rollback. */
  predicate RollingFrom(row: Row, s: Sys) {
    && SamePlan(row.steps, s.row.steps)
    && s.row.status == RollingBack && s.row.newRef == row.newRef && s.row.planPath == row.planPath
  }

  function UndoneStatus(row: Row, i: nat, fails: set<nat>): StepStatus
    requires i < |row.steps|
  {
    if UndoOk(row.steps[i], row, i, fails) then Compensated else StepStatus.Failed
  }

  /** Compensating `todo` turns the steps `before` into `after`: those in `todo` get
      their verdict, all others stay as they were. */
  ghost predicate UndoneSteps(row: Row, before: seq<Step>, after: seq<Step>, todo: seq<nat>, fails: set<nat>)
    requires InPlan(row, todo)
  {
    && |after| == |before| == |row.steps|
    && (forall k :: 0 <= k < |todo| ==> after[todo[k]].status == UndoneStatus(row, todo[k], fails))
    && (forall i :: 0 <= i < |before| && i !in todo ==> after[i] == before[i])
  }

  lemma {:induction false} UndoState(row: Row, s: Sys, todo: seq<nat>, fails: set<nat>)
    requires RollingFrom(row, s) && InPlan(row, todo)
    requires forall k, l :: 0 <= k < l < |todo| ==> todo[k] > todo[l]
    ensures RollingFrom(row, Replay(s, UndoEvents(row, todo, fails)))
    ensures UndoneSteps(row, s.row.steps, Replay(s, UndoEvents(row, todo, fails)).row.steps, todo, fails)
    decreases |todo|
  {
    if todo != [] {
      var rest, i := todo[..|todo| - 1], todo[|todo| - 1];
      UndoState(row, s, rest, fails);
      assert todo == rest + [i];
      UndoPair(row, s, rest, i, fails);
      UndoneMore(row, s.row.steps, Replay(s, UndoEvents(row, rest, fails)).row.steps, rest, i, fails);
    }
  }

  lemma UndoEventsMore(row: Row, rest: seq<nat>, i: nat, fails: set<nat>)
    requires InPlan(row, rest) && i < |row.steps|
    ensures InPlan(row, rest + [i])
    ensures var ok := UndoOk(row.steps[i], row, i, fails);
            UndoEvents(row, rest + [i], fails) == UndoEvents(row, rest, fails) + [UndoRan(i, ok), UndoStored(i, ok)]
  {
    assert (rest + [i])[..|rest + [i]| - 1] == rest;
  }

  lemma UndoPairState(t: Sys, i: nat, ok: bool)
    ensures Replay(t, [UndoRan(i, ok), UndoStored(i, ok)]).row ==
            WithStepStatus(t, i, if ok then Compensated else StepStatus.Failed).row
  {
    ReplayTwo(t, UndoRan(i, ok), UndoStored(i, ok));
  }

  lemma UndoPair(row: Row, s: Sys, rest: seq<nat>, i: nat, fails: set<nat>)
    requires InPlan(row, rest) && i < |row.steps| && InPlan(row, rest + [i])
    requires RollingFrom(row, Replay(s, UndoEvents(row, rest, fails)))
    ensures RollingFrom(row, Replay(s, UndoEvents(row, rest + [i], fails)))
    ensures Replay(s, UndoEvents(row, rest + [i], fails)).row.steps ==
            SetStep(Replay(s, UndoEvents(row, rest, fails)).row.steps, i, UndoneStatus(row, i, fails))
  {
    var ok := UndoOk(row.steps[i], row, i, fails);
    var done, pair := UndoEvents(row, rest, fails), [UndoRan(i, ok), UndoStored(i, ok)];
    UndoEventsMore(row, rest, i, fails);
    ReplayAppend(s, done, pair);
    UndoPairState(Replay(s, done), i, ok);
  }

  lemma UndoneMore(row: Row, before: seq<Step>, after: seq<Step>, rest: seq<nat>, i: nat, fails: set<nat>)
    requires InPlan(row, rest) && i < |row.steps|
    requires forall k :: 0 <= k < |rest| ==> rest[k] > i
    requires UndoneSteps(row, before, after, rest, fails)
    ensures InPlan(row, rest + [i])
    ensures UndoneSteps(row, before, SetStep(after, i, UndoneStatus(row, i, fails)), rest + [i], fails)
  {
  }

  lemma ReplayTwo(s: Sys, e: Event, f: Event)
    ensures Replay(s, [e, f]) == Apply(Apply(s, e), f)
  {
    assert [e, f][..1] == [e];
    ReplayOne(s, e);
  }

  lemma {:induction false} UndoLegal(row: Row, s: Sys, hist: seq<Event>, todo: seq<nat>, fails: set<nat>)
    requires RollingFrom(row, s) && InPlan(row, todo)
    requires forall k :: 0 <= k < |todo| ==> s.row.steps[todo[k]].status == Done
    requires forall k, l :: 0 <= k < l < |todo| ==> todo[k] > todo[l]
    requires HighestOf(s.row.steps, todo)
    ensures LegalSeq(s, hist, UndoEvents(row, todo, fails))
    decreases |todo|
  {
    if todo != [] {
      var rest, i := todo[..|todo| - 1], todo[|todo| - 1];
      assert todo == rest + [i];
      hide Replay, Legal, Apply, HighestOf, HighestDone, UndoneSteps;
      var ok := UndoOk(row.steps[i], row, i, fails);
      UndoState(row, s, rest, fails);
      var t := Replay(s, UndoEvents(row, rest, fails));
      NextHighest(row, s.row.steps, t.row.steps, rest, i, fails);
      UndoLegal(row, s, hist, rest, fails);
      assert !ok ==> UndoCalls(t.row.steps[i], t.row) by {
        assert SamePlan(row.steps, t.row.steps);
      }
      UndoPairLegal(t, hist + UndoEvents(row, rest, fails), i, ok);
      LegalConcat(s, hist, UndoEvents(row, rest, fails), [UndoRan(i, ok), UndoStored(i, ok)]);
    }
  }

  /** The done steps are those in `todo` and possibly lower ones. */
  predicate HighestOf(steps: seq<Step>, todo: seq<nat>) {
    forall j :: 0 <= j < |steps| && steps[j].status == Done ==> j in todo || forall k :: 0 <= k < |todo| ==> j < todo[k]
  }

  lemma NextHighest(row: Row, before: seq<Step>, after: seq<Step>, rest: seq<nat>, i: nat, fails: set<nat>)
    requires InPlan(row, rest) && UndoneSteps(row, before, after, rest, fails)
    requires i < |before| && before[i].status == Done && HighestOf(before, rest + [i])
    requires forall k :: 0 <= k < |rest| ==> rest[k] > i
    ensures HighestDone(after, i) && HighestOf(before, rest)
  {
    var todo := rest + [i];
    assert todo[|rest|] == i && forall k :: 0 <= k < |rest| ==> todo[k] == rest[k];
    forall j | i < j < |after|
      ensures after[j].status != Done
    {
      if j in rest {
        var k :| 0 <= k < |rest| && rest[k] == j;
      }
    }
  }

  lemma UndoPairLegal(s: Sys, hist: seq<Event>, i: nat, ok: bool)
    requires s.row.status == RollingBack && HighestDone(s.row.steps, i)
    requires !ok ==> UndoCalls(s.row.steps[i], s.row)
    ensures LegalSeq(s, hist, [UndoRan(i, ok), UndoStored(i, ok)])
  {
    LegalTwo(s, hist, UndoRan(i, ok), UndoStored(i, ok));
  }

  /** A rollback leaves no step done, and pending steps pending. */
  lemma NoneDone(row: Row, before: seq<Step>, after: seq<Step>, fails: set<nat>)
    requires |before| == |row.steps|
    requires forall k :: 0 <= k < |row.steps| && before[k].status == Done ==> row.steps[k].status == Done
    requires UndoneSteps(row, before, after, DoneDescending(row.steps, |row.steps|), fails)
    ensures forall k :: 0 <= k < |row.steps| ==> after[k].status != Done
  {
    var todo := DoneDescending(row.steps, |row.steps|);
    forall k | 0 <= k < |row.steps|
      ensures after[k].status != Done
    {
      if k in todo {
        var l :| 0 <= l < |todo| && todo[l] == k;
      }
    }
  }

  lemma UndoAllLegal(row: Row, s: Sys, hist: seq<Event>, fails: set<nat>)
    requires RollingFrom(row, s)
    requires forall k :: 0 <= k < |row.steps| ==> (s.row.steps[k].status == Done <==> row.steps[k].status == Done)
    ensures LegalSeq(s, hist, UndoAllEvents(row, DoneDescending(row.steps, |row.steps|), fails))
  {
    var todo := DoneDescending(row.steps, |row.steps|);
    var undo := UndoEvents(row, todo, fails);
    UndoLegal(row, s, hist, todo, fails);
    UndoState(row, s, todo, fails);
    var t := Replay(s, undo);
    NoneDone(row, s.row.steps, t.row.steps, fails);
    LegalOne(t, hist + undo, Finished(RollbackVerdict(row, todo, fails)));
    LegalConcat(s, hist, undo, [Finished(RollbackVerdict(row, todo, fails))]);
  }

  lemma RollbackLegal(row: Row, s: Sys, hist: seq<Event>, i: nat, fails: set<nat>)
    requires SamePlan(row.steps, s.row.steps) && !Terminal(s.row.status)
    requires s.row.newRef == row.newRef && s.row.planPath == row.planPath
    requires LastIs(hist, StepFailed(i))
    requires forall k :: 0 <= k < |row.steps| ==> (s.row.steps[k].status == Done <==> row.steps[k].status == Done)
    ensures LegalSeq(s, hist, RollbackEvents(row, fails))
  {
    LegalOne(s, hist, RollbackStarted);
    UndoAllLegal(row, Apply(s, RollbackStarted), hist + [RollbackStarted], fails);
    LegalConcat(s, hist, [RollbackStarted], UndoAllEvents(row, DoneDescending(row.steps, |row.steps|), fails));
  }

  lemma StartLegal(s: Sys, hist: seq<Event>, i: nat, out: Outcome)
    requires !Terminal(s.row.status) && Due(s, i) && GatePasses(s, i)
    requires s.row.steps[i].flagged ==> s.row.status == AwaitingConfirmation
    ensures LegalSeq(s, hist, StartEvents(s.row, i, out))
    ensures Replay(s, StartEvents(s.row, i, out)).row ==
            s.row.(status := RunningStatus(s.row.steps[i].kind))
    ensures LastIs(hist + StartEvents(s.row, i, out), Executed(i, out))
  {
    if Runs(s, i) {
      assert StartEvents(s.row, i, out) == [Executed(i, out)];
      LegalOne(s, hist, Executed(i, out));
    } else {
      assert StartEvents(s.row, i, out) == [Started(i), Executed(i, out)];
      StartedLegal(s, hist, i, out);
    }
  }

  lemma StartedLegal(s: Sys, hist: seq<Event>, i: nat, out: Outcome)
    requires !Terminal(s.row.status) && Due(s, i) && GatePasses(s, i) && !Runs(s, i)
    requires s.row.steps[i].flagged ==> s.row.status == AwaitingConfirmation
    ensures LegalSeq(s, hist, [Started(i), Executed(i, out)])
    ensures Replay(s, [Started(i), Executed(i, out)]).row == s.row.(status := RunningStatus(s.row.steps[i].kind))
  {
    LegalTwo(s, hist, Started(i), Executed(i, out));
  }

  lemma FirstPendingIs(steps: seq<Step>, i: nat)
    requires i <= |steps| && forall j :: 0 <= j < i ==> steps[j].status != Pending
    requires i < |steps| ==> steps[i].status == Pending
    ensures FirstPending(steps) == i
  {
  }

  lemma DoneLegal(row: Row, s: Sys, hist: seq<Event>, i: nat, out: Outcome)
    requires Due(s, i) && GatePasses(s, i) && i < |row.steps|
    requires s.row == row.(status := RunningStatus(row.steps[i].kind))
    requires LastIs(hist, Executed(i, out)) && StepOk(row.steps[i], row, out)
    ensures LegalSeq(s, hist, DoneEvents(row, i, RefFrom(row.steps[i], row, out)))
  {
    var e := StepDone(i, RefFrom(row.steps[i], row, out));
    assert Legal(s, hist, e);
    if PendingAfter(row.steps, i) {
      LegalOne(s, hist, e);
      assert DoneEvents(row, i, RefFrom(row.steps[i], row, out)) == [e];
    } else {
      var t := Apply(s, e);
      FirstPendingIs(t.row.steps, |t.row.steps|);
      LegalTwo(s, hist, e, Finished(Completed));
      assert DoneEvents(row, i, RefFrom(row.steps[i], row, out)) == [e, Finished(Completed)];
    }
  }

  lemma FailLegal(row: Row, s: Sys, hist: seq<Event>, i: nat, o: Oracle)
    requires Due(s, i) && GatePasses(s, i) && i < |row.steps|
    requires s.row == row.(status := RunningStatus(row.steps[i].kind))
    requires LastIs(hist, Executed(i, o.exec)) && !StepOk(row.steps[i], row, o.exec)
    ensures LegalSeq(s, hist, [StepFailed(i)] + RollbackEvents(row, o.undoFails))
  {
    LegalOne(s, hist, StepFailed(i));
    RollbackLegal(row, Apply(s, StepFailed(i)), hist + [StepFailed(i)], i, o.undoFails);
    LegalConcat(s, hist, [StepFailed(i)], RollbackEvents(row, o.undoFails));
  }

  lemma AdvanceLegal(s: Sys, hist: seq<Event>, now: int, o: Oracle)
    ensures LegalSeq(s, hist, AdvanceEvents(s.row, now, o))
  {
    var events := AdvanceEvents(s.row, now, o);
    var i := FirstPending(s.row.steps);
    if |events| == 1 && Legal(s, hist, events[0]) {
      LegalOne(s, hist, events[0]);
      assert events == [events[0]];
    } else if events != [] {
      var out, first := o.exec, StartEvents(s.row, i, o.exec);
      StartLegal(s, hist, i, out);
      if StepOk(s.row.steps[i], s.row, out) {
        DoneLegal(s.row, Replay(s, first), hist + first, i, out);
      } else {
        FailLegal(s.row, Replay(s, first), hist + first, i, o);
      }
      LegalConcat(s, hist, first, ResultEvents(s.row, i, o));
    }
  }

  lemma ActLegal(c: Config, a: Action)
    ensures LegalSeq(c.db, c.log, EventsOf(c, a))
  {
    var events := EventsOf(c, a);
    if a.Job? {
      var full := AdvanceEvents(c.db.row, a.now, a.o);
      AdvanceLegal(c.db, c.log, a.now, a.o);
      if a.fate.Crashes? && a.fate.cut <= |full| {
        LegalPrefix(c.db, c.log, full, a.fate.cut);
      }
    } else if events != [] {
      LegalOne(c.db, c.log, events[0]);
      assert events == [events[0]];
    }
  }

  lemma RunLegalStep(init: Sys, c: Config, a: Action)
    requires LegalSeq(init, [], c.log) && c.db == Replay(init, c.log)
    ensures LegalSeq(init, [], Act(c, a).log) && Act(c, a).db == Replay(init, Act(c, a).log)
  {
    ActLegal(c, a);
    assert [] + c.log == c.log;
    LegalConcat(init, [], c.log, EventsOf(c, a));
    ReplayAppend(init, c.log, EventsOf(c, a));
  }

  /** Every log of every run is legal, and the rows are its replay. */
  lemma {:induction false} RunLegal(init: Sys, actions: seq<Action>)
    ensures LegalSeq(init, [], Run(init, actions).log)
    ensures Run(init, actions).db == Replay(init, Run(init, actions).log)
    decreases |actions|
  {
    if actions != [] {
      RunLegal(init, actions[..|actions| - 1]);
      RunLegalStep(init, Run(init, actions[..|actions| - 1]), actions[|actions| - 1]);
    }
  }

  // ---- walking along a log ----

  ghost predicate LegalLog(init: Sys, log: seq<Event>) {
    LegalSeq(init, [], log)
  }

  lemma LogStep(init: Sys, log: seq<Event>, p: nat)
    requires LegalLog(init, log) && p < |log|
    ensures Legal(At(init, log, p), log[..p], log[p])
    ensures At(init, log, p + 1) == Apply(At(init, log, p), log[p])
  {
    LegalHere(init, [], log, p);
    assert [] + log[..p] == log[..p];
    assert log[..p + 1][..p] == log[..p];
  }
}
