/** What the compensation loop does to the steps, and in which order. */
module Rollback {
  import opened RotationTypes
  import opened EngineSpec
  import opened Machine

  /** The loop compensates `todo[0]`, `todo[1]`, ... in this order, each once, and goes on
      after a failed compensation. */
  lemma {:induction false} UndoInOrder(row: Row, todo: seq<nat>, fails: set<nat>, k: nat)
    requires InPlan(row, todo) && k < |todo|
    ensures var events, ok := UndoEvents(row, todo, fails), UndoOk(row.steps[todo[k]], row, todo[k], fails);
            && |events| == 2 * |todo|
            && events[2 * k] == UndoRan(todo[k], ok)
            && events[2 * k + 1] == UndoStored(todo[k], ok)
    decreases |todo|
  {
    var rest := todo[..|todo| - 1];
    if k < |rest| {
      UndoInOrder(row, rest, fails, k);
    } else if rest != [] {
      UndoInOrder(row, rest, fails, 0);
    }
  }

  ghost predicate AllUndoOk(row: Row, fails: set<nat>) {
    forall j :: 0 <= j < |row.steps| && row.steps[j].status == Done ==> UndoOk(row.steps[j], row, j, fails)
  }

  lemma StepsOutcome(row: Row, mid: seq<Step>, after: seq<Step>, fails: set<nat>)
    requires UndoneSteps(row, mid, after, DoneDescending(row.steps, |row.steps|), fails)
    ensures forall j :: 0 <= j < |row.steps| && row.steps[j].status == Done ==>
              after[j].status == UndoneStatus(row, j, fails)
    ensures forall j :: 0 <= j < |row.steps| && row.steps[j].status != Done ==> after[j] == mid[j]
  {
    var todo := DoneDescending(row.steps, |row.steps|);
    forall j | 0 <= j < |row.steps| && row.steps[j].status == Done
      ensures after[j].status == UndoneStatus(row, j, fails)
    {
      var k :| 0 <= k < |todo| && todo[k] == j;
    }
  }

  lemma VerdictOutcome(row: Row, fails: set<nat>)
    ensures RollbackVerdict(row, DoneDescending(row.steps, |row.steps|), fails) ==
            if AllUndoOk(row, fails) then RolledBack else RollbackFailed
  {
    var todo := DoneDescending(row.steps, |row.steps|);
    if RollbackVerdict(row, todo, fails) == RolledBack {
      forall j | 0 <= j < |row.steps| && row.steps[j].status == Done
        ensures UndoOk(row.steps[j], row, j, fails)
      {
        var k :| 0 <= k < |todo| && todo[k] == j;
      }
    }
  }

  /** The steps and the status that a failure of step `i` ends in: the failed step and the
      pending steps after it stay as they are, every done step is compensated or failed,
      and the status says whether all compensations succeeded. */
  lemma RollbackOutcome(s: Sys, i: nat, fails: set<nat>)
    requires i < |s.row.steps| && s.row.steps[i].status == Pending
    ensures var before := s.row.steps;
            var t := Replay(s, [StepFailed(i)] + RollbackEvents(s.row, fails));
            var after := t.row.steps;
            && |after| == |before|
            && after[i].status == StepStatus.Failed
            && (forall j :: 0 <= j < |before| && before[j].status == Done ==>
                  after[j].status == UndoneStatus(s.row, j, fails))
            && (forall j :: 0 <= j < |before| && before[j].status != Done && j != i ==> after[j] == before[j])
            && t.row.status == if AllUndoOk(s.row, fails) then RolledBack else RollbackFailed
  {
    hide Replay, UndoEvents, RollbackEvents, RollbackVerdict, AllUndoOk, UndoneStatus, UndoneSteps, Apply, RollingFrom;
    var todo := DoneDescending(s.row.steps, |s.row.steps|);
    var s2 := Apply(Apply(s, StepFailed(i)), RollbackStarted);
    var s3 := Replay(s2, UndoEvents(s.row, todo, fails));
    RollbackReplay(s, i, fails);
    RollbackBegins(s, i);
    UndoState(s.row, s2, todo, fails);
    RollbackEnds(s3, RollbackVerdict(s.row, todo, fails));
    StepsOutcome(s.row, s2.row.steps, s3.row.steps, fails);
    VerdictOutcome(s.row, fails);
  }

  lemma RollbackBegins(s: Sys, i: nat)
    requires i < |s.row.steps| && s.row.steps[i].status == Pending
    ensures var s2 := Apply(Apply(s, StepFailed(i)), RollbackStarted);
            && RollingFrom(s.row, s2) && s2.world == s.world
            && s2.row.steps == s.row.steps[i := s.row.steps[i].(status := StepStatus.Failed)]
  {}

  lemma RollbackEnds(s: Sys, verdict: RotationStatus)
    ensures var t := Apply(s, Finished(verdict));
            t.row.status == verdict && t.row.steps == s.row.steps && t.world == s.world
  {}

  lemma RollbackReplay(s: Sys, i: nat, fails: set<nat>)
    ensures var todo := DoneDescending(s.row.steps, |s.row.steps|);
            Replay(s, [StepFailed(i)] + RollbackEvents(s.row, fails)) ==
            Apply(Replay(Apply(Apply(s, StepFailed(i)), RollbackStarted), UndoEvents(s.row, todo, fails)),
                  Finished(RollbackVerdict(s.row, todo, fails)))
  {
    hide Replay, UndoEvents, Apply;
    var todo := DoneDescending(s.row.steps, |s.row.steps|);
    var undo, finish := UndoEvents(s.row, todo, fails), Finished(RollbackVerdict(s.row, todo, fails));
    var s1 := Apply(s, StepFailed(i));
    var s2 := Apply(s1, RollbackStarted);
    ReplayAppend(s, [StepFailed(i)], RollbackEvents(s.row, fails));
    ReplayOne(s, StepFailed(i));
    ReplayAppend(s1, [RollbackStarted], undo + [finish]);
    ReplayOne(s1, RollbackStarted);
    ReplayAppend(s2, undo, [finish]);
    ReplayOne(Replay(s2, undo), finish);
  }

  /** In every run, crashed rollbacks included, a compensation is of the highest done step. */
  lemma HighestFirst(init: Sys, actions: seq<Action>, p: nat)
    requires p < |Run(init, actions).log| && Run(init, actions).log[p].UndoRan?
    ensures HighestDone(At(init, Run(init, actions).log, p).row.steps, Run(init, actions).log[p].i)
  {
    hide Run;
    RunLegal(init, actions);
    LogStep(init, Run(init, actions).log, p);
  }
}
