/**
 The follow-up schedule of an enrollment, kept by every transaction whatever jobs are delivered:
 steps run once, in order, and not before their time.
 */
module Schedule {
  import opened Base
  import opened Leads
  import opened Moves

  predicate SortedSteps(steps: seq<Step>) {
    forall i, j :: 0 <= i < j < |steps| ==> steps[i].order < steps[j].order
  }

  /** Minutes after enrollment at which position `i` is planned; past the end, the completion check. */
  function Offset(s: Sequence, i: nat): int
    requires i <= |s.steps| && s.steps != []
  {
    if i < |s.steps| then s.steps[i].offsetMinutes
    else s.steps[|s.steps| - 1].offsetMinutes + s.finalWaitMinutes
  }

  /** The step number stored while position `i` is next. */
  function OrderAt(s: Sequence, i: nat): int
    requires i <= |s.steps| && s.steps != []
  {
    if i < |s.steps| then s.steps[i].order else s.steps[|s.steps| - 1].order + 1
  }

  /** The planned instant of position `i`, in milliseconds. */
  function Planned(e: Enrollment, i: nat): int
    requires i <= |e.sequence.steps| && e.sequence.steps != []
  {
    e.createdAt + Offset(e.sequence, i) * MINUTE
  }

  /** The planned gap before position `i`, in milliseconds. */
  function GapBefore(e: Enrollment, i: nat): int
    requires 0 < i <= |e.sequence.steps|
  {
    Planned(e, i) - Planned(e, i - 1)
  }

  /** The steps run so far are the first ones of the sequence, each no more than a minute early. */
  predicate RanInOrder(e: Enrollment) {
    && SortedSteps(e.sequence.steps) && e.sequence.steps != [] && |e.ran| <= |e.sequence.steps|
    && e.currentStep == OrderAt(e.sequence, |e.ran|)
    && (forall i :: 0 <= i < |e.ran| ==>
          e.ran[i].order == e.sequence.steps[i].order && e.ran[i].at + EARLY_TOLERANCE_MS >= Planned(e, i))
    && (forall i :: 0 < i < |e.ran| ==> e.ran[i].at + EARLY_TOLERANCE_MS >= e.ran[i - 1].at + GapBefore(e, i))
  }

  /** An instant at which position `|ran|` may happen: planned, and a gap after the last step. */
  predicate NotBefore(e: Enrollment, t: int)
    requires |e.ran| <= |e.sequence.steps| && e.sequence.steps != []
  {
    t >= Planned(e, |e.ran|) && (e.ran != [] ==> t >= e.ran[|e.ran| - 1].at + GapBefore(e, |e.ran|))
  }

  predicate OnSchedule(e: Enrollment) {
    && RanInOrder(e)
    && (Live(e) <==> e.nextRunAt.Some?)
    && (Live(e) ==> NotBefore(e, e.nextRunAt.value))
    && (e.status.Completed? <==> e.completedAt.Some?)
    && (e.completedAt.Some? ==>
          |e.ran| == |e.sequence.steps| && NotBefore(e, e.completedAt.value + EARLY_TOLERANCE_MS))
  }

  predicate RowOnSchedule(row: Row) {
    forall i :: 0 <= i < |row.enrollments| ==> OnSchedule(row.enrollments[i])
  }

  /** A recorded first contact may only enroll into a sequence whose steps are sorted. */
  predicate SortedAction(a: RowAction) {
    a.OnSent? && a.sequence.Some? ==> SortedSteps(a.sequence.value.steps)
  }

  // ----- Looking steps up -----

  lemma {:induction false} FindStepIs(steps: seq<Step>, order: int)
    requires SortedSteps(steps)
    ensures FindStep(steps, order).Some? ==> exists i :: 0 <= i < |steps| && steps[i] == FindStep(steps, order).value
    ensures FindStep(steps, order).Some? ==> FindStep(steps, order).value.order == order
    ensures forall i :: 0 <= i < |steps| && steps[i].order == order ==> FindStep(steps, order) == Some(steps[i])
  {
    if steps == [] {
    } else {
      FindStepIs(steps[1..], order);
      if steps[0].order != order {
        var r := FindStep(steps[1..], order);
        if r.Some? {
          var i :| 0 <= i < |steps[1..]| && steps[1..][i] == r.value;
          assert steps[i + 1] == r.value;
        }
        forall i | 0 <= i < |steps| && steps[i].order == order ensures FindStep(steps, order) == Some(steps[i]) {
          assert steps[i] == steps[1..][i - 1];
        }
      }
    }
  }

  lemma {:induction false} FindAfterIs(steps: seq<Step>, i: nat)
    requires SortedSteps(steps) && i < |steps|
    ensures FindAfter(steps, steps[i].order) == if i + 1 < |steps| then Some(steps[i + 1]) else None
  {
    if i > 0 {
      assert steps[i] == steps[1..][i - 1];
      assert steps[0].order < steps[i].order;
      FindAfterIs(steps[1..], i - 1);
    } else {
      NoneAfter(steps[1..], steps[0].order);
    }
  }

  lemma NoneAfter(rest: seq<Step>, order: int)
    requires rest != [] ==> rest[0].order > order
    ensures FindAfter(rest, order) == if rest != [] then Some(rest[0]) else None
  {
  }

  /** The stored step number finds its step, and past the last step it finds none. */
  lemma CurrentStepFinds(e: Enrollment)
    requires RanInOrder(e)
    ensures FindStep(e.sequence.steps, e.currentStep)
         == if |e.ran| < |e.sequence.steps| then Some(e.sequence.steps[|e.ran|]) else None
  {
    FindStepIs(e.sequence.steps, e.currentStep);
    var last := |e.sequence.steps| - 1;
    assert forall i :: 0 <= i <= last ==> e.sequence.steps[i].order <= e.sequence.steps[last].order;
  }

  // ----- Every transaction keeps the schedule -----

  lemma AdvanceKeepsSchedule(e: Enrollment, at: int)
    requires OnSchedule(e) && e.status.Active? && |e.ran| < |e.sequence.steps| && Due(e, at)
    ensures
      var e' := AdvancePast(e, e.sequence.steps[|e.ran|], at);
      OnSchedule(e') && e'.nextRunAt.value == Max(Planned(e, |e.ran| + 1), at + GapBefore(e, |e.ran| + 1))
  {
    hide FindAfter, FindStep, SortedSteps;
    var n := |e.ran|;
    FindAfterIs(e.sequence.steps, n);
    var e' := AdvancePast(e, e.sequence.steps[n], at);
    assert forall i :: 0 <= i <= |e.sequence.steps| ==> Planned(e', i) == Planned(e, i);
    assert forall i :: 0 < i <= |e.sequence.steps| ==> GapBefore(e', i) == GapBefore(e, i);
    assert e'.nextRunAt.value == Max(Planned(e, n + 1), at + GapBefore(e, n + 1));
    assert forall i :: 0 <= i < n ==> e'.ran[i] == e.ran[i];
    assert RanInOrder(e');
  }

  /** No move takes an enrollment off schedule. */
  lemma MoveKeepsSchedule(e: Enrollment, m: Move)
    requires OnSchedule(e) && Allowed(e, m)
    ensures OnSchedule(MoveTo(e, m))
  {
    CurrentStepFinds(e);
    if m.Go? {
      AdvanceKeepsSchedule(e, m.at);
    } else {
      var e' := MoveTo(e, m);
      assert forall i :: 0 <= i <= |e.sequence.steps| ==> Planned(e', i) == Planned(e, i);
      assert forall i :: 0 < i <= |e.sequence.steps| ==> GapBefore(e', i) == GapBefore(e, i);
    }
  }

  lemma EnrollmentStartsOnSchedule(s: Sequence, now: int)
    requires SortedSteps(s.steps) && s.steps != []
    ensures OnSchedule(NewEnrollment(s, now)) && Punctual(NewEnrollment(s, now))
  {
  }

  /** No transaction on a lead takes any of its enrollments off schedule. */
  lemma ApplyKeepsSchedule(row: Row, a: RowAction)
    requires RowOnSchedule(row) && SortedAction(a)
    ensures RowOnSchedule(Apply(row, a))
  {
    ApplyMoves(row, a);
    var es := Apply(row, a).enrollments;
    forall i | 0 <= i < |es| ensures OnSchedule(es[i]) {
      if i < |row.enrollments| {
        MoveKeepsSchedule(row.enrollments[i], MoveOf(row, a, i));
      } else {
        EnrollmentStartsOnSchedule(a.sequence.value, a.now);
      }
    }
  }

  // ----- Punctual runs -----

  /** Every step so far ran exactly when planned, and the next one is due exactly when planned. */
  predicate Punctual(e: Enrollment)
    requires RanInOrder(e)
  {
    && (forall i :: 0 <= i < |e.ran| ==> e.ran[i].at == Planned(e, i))
    && (e.nextRunAt.Some? ==> e.nextRunAt.value == Planned(e, |e.ran|))
    && (e.completedAt.Some? ==> |e.ran| == |e.sequence.steps| && e.completedAt.value == Planned(e, |e.ran|))
  }

  /** A job that runs the current step runs it exactly when due, and nothing is resumed; other jobs run at any time. */
  predicate PunctualAction(row: Row, a: RowAction) {
    && !a.OnResume?
    && (a.OnStep? && StepIsCurrent(row, a.ordinal, a.step, a.at) && row.enrollments[a.ordinal].nextRunAt.Some? ==>
          a.at == row.enrollments[a.ordinal].nextRunAt.value)
  }

  predicate RowPunctual(row: Row) {
    RowOnSchedule(row) && forall i :: 0 <= i < |row.enrollments| ==> Punctual(row.enrollments[i])
  }

  /** If current steps run exactly when due and nothing is resumed, every step runs exactly when planned. */
  lemma ApplyKeepsPunctual(row: Row, a: RowAction)
    requires RowPunctual(row) && SortedAction(a) && PunctualAction(row, a)
    ensures RowPunctual(Apply(row, a))
  {
    ApplyKeepsSchedule(row, a);
    ApplyMoves(row, a);
    var es := Apply(row, a).enrollments;
    forall i | 0 <= i < |es| ensures Punctual(es[i]) {
      if i < |row.enrollments| {
        MoveKeepsPunctual(row.enrollments[i], MoveOf(row, a, i));
      } else {
        EnrollmentStartsOnSchedule(a.sequence.value, a.now);
      }
    }
  }

  lemma MoveKeepsPunctual(e: Enrollment, m: Move)
    requires OnSchedule(e) && Punctual(e) && Allowed(e, m) && !m.Release?
    requires m.Go? || m.Finish? ==> e.nextRunAt == Some(m.at)
    ensures RanInOrder(MoveTo(e, m)) && Punctual(MoveTo(e, m))
  {
    MoveKeepsSchedule(e, m);
    CurrentStepFinds(e);
    var e' := MoveTo(e, m);
    if m.Go? {
      AdvanceKeepsSchedule(e, m.at);
      assert forall i :: 0 <= i < |e.ran| ==> e'.ran[i] == e.ran[i];
    }
    assert forall i :: 0 <= i <= |e.sequence.steps| ==> Planned(e', i) == Planned(e, i);
  }

  // ----- Exactly once -----

  /** Runs that can still have an effect: the steps left and the completion check. */
  function Remaining(e: Enrollment): nat
    requires |e.ran| <= |e.sequence.steps|
  {
    if Live(e) then |e.sequence.steps| - |e.ran| + 1 else 0
  }

  /** Two snapshots of one enrollment: history only grows, and an end is an end. */
  predicate Follows(e: Enrollment, e': Enrollment)
    requires |e.ran| <= |e.sequence.steps| && |e'.ran| <= |e'.sequence.steps|
  {
    && e'.sequence == e.sequence && e'.createdAt == e.createdAt
    && e.ran <= e'.ran
    && Remaining(e') <= Remaining(e)
    && (!Live(e) ==> e' == e)
  }

  lemma MoveGoesForward(e: Enrollment, m: Move)
    requires OnSchedule(e) && Allowed(e, m)
    ensures |MoveTo(e, m).ran| <= |MoveTo(e, m).sequence.steps|
    ensures Follows(e, MoveTo(e, m))
    ensures Live(e) && (m.Stop? || m.Go? || m.Finish?) ==> Remaining(MoveTo(e, m)) < Remaining(e)
  {
    MoveKeepsSchedule(e, m);
    CurrentStepFinds(e);
  }

  /** Enrollments are never removed, steps never undone; stopped and completed are final. */
  lemma EnrollmentsOnlyMoveForward(row: Row, a: RowAction, i: nat)
    requires RowOnSchedule(row) && i < |row.enrollments|
    ensures
      var es := Apply(row, a).enrollments;
      && i < |es| && |es[i].ran| <= |es[i].sequence.steps|
      && Follows(row.enrollments[i], es[i])
  {
    ApplyMoves(row, a);
    MoveGoesForward(row.enrollments[i], MoveOf(row, a, i));
  }

  /** A step job that changes the row uses up one of the remaining runs. */
  lemma EffectiveRunCounts(row: Row, ordinal: nat, step: int, at: int)
    requires RowOnSchedule(row) && ordinal < |row.enrollments|
    requires RunStep(row, ordinal, step, at).0 != row
    ensures
      var es := RunStep(row, ordinal, step, at).0.enrollments;
      && ordinal < |es| && |es[ordinal].ran| <= |es[ordinal].sequence.steps|
      && Remaining(es[ordinal]) < Remaining(row.enrollments[ordinal])
  {
    var a := OnStep(ordinal, step, at);
    ApplyMoves(row, a);
    MoveGoesForward(row.enrollments[ordinal], MoveOf(row, a, ordinal));
  }

  function ApplyAll(row: Row, actions: seq<RowAction>): Row
    decreases actions
  {
    if actions == [] then row else ApplyAll(Apply(row, actions[0]), actions[1..])
  }

  /** How many of the actions are step jobs of this enrollment that change something. */
  function EffectiveRuns(row: Row, ordinal: nat, actions: seq<RowAction>): nat
    decreases actions
  {
    if actions == [] then 0
    else
      (if actions[0].OnStep? && actions[0].ordinal == ordinal && Apply(row, actions[0]) != row then 1 else 0)
      + EffectiveRuns(Apply(row, actions[0]), ordinal, actions[1..])
  }

  /** However many jobs are delivered, at most `n + 1` of them have an effect on an `n`-step enrollment. */
  lemma {:induction false} AtMostRemainingRuns(row: Row, ordinal: nat, actions: seq<RowAction>)
    requires RowOnSchedule(row) && ordinal < |row.enrollments|
    requires forall a :: a in actions ==> SortedAction(a)
    ensures EffectiveRuns(row, ordinal,
        actions) <= Remaining(row.enrollments[ordinal]) <= |row.enrollments[ordinal].sequence.steps| + 1
    decreases actions
  {
    if actions == [] {
    } else {
      var a := actions[0];
      assert a in actions;
      ApplyKeepsSchedule(row, a);
      EnrollmentsOnlyMoveForward(row, a, ordinal);
      AtMostRemainingRuns(Apply(row, a), ordinal, actions[1..]);
      if a.OnStep? && a.ordinal == ordinal && Apply(row, a) != row {
        EffectiveRunCounts(row, ordinal, a.step, a.at);
      }
    }
  }

  /**
   A job for a step already passed changes nothing; it queues that step's message again, the very
   one queued when the step ran, and the currently stored next job.
   */
  lemma RetryRepeats(row: Row, ordinal: nat, step: int, at: int)
    requires RowOnSchedule(row) && ordinal < |row.enrollments|
    requires RunStep(row, ordinal, step, at).1.Queued?
    ensures
      var e := row.enrollments[ordinal];
      var (row', outcome) := RunStep(row, ordinal, step, at);
      var e' := row'.enrollments[ordinal];
      && (exists i :: 0 <= i < |e'.ran| && i < |e.sequence.steps|
                      && e'.ran[i].order == step && e.sequence.steps[i].order == step
                      && IsMessageOf(outcome.message, EnrollmentId(row.id, ordinal), e.sequence.steps[i]))
      && e'.nextRunAt.Some?
      && outcome.next == StepJob(EnrollmentId(row.id, ordinal), e'.currentStep, e'.nextRunAt.value)
      && (step < e.currentStep ==> row' == row)
      && (step == e.currentStep ==> |e'.ran| == |e.ran| + 1)
  {
    var e := row.enrollments[ordinal];
    ApplyKeepsSchedule(row, OnStep(ordinal, step, at));
    CurrentStepFinds(e);
    FindStepIs(e.sequence.steps, step);
    var i :| 0 <= i < |e.sequence.steps| && e.sequence.steps[i] == FindStep(e.sequence.steps, step).value;
    var e' := RunStep(row, ordinal, step, at).0.enrollments[ordinal];
    assert i < |e'.ran| && e'.ran[i].order == step;
  }

  // ----- Rebuilding a lost queue -----

  /** `reconcileEnrollments` for one enrollment. */
  function ReconcileJob(row: Row, ordinal: nat, now: int, horizonMs: int): Option<StepJob>
    requires ordinal < |row.enrollments|
  {
    var e := row.enrollments[ordinal];
    if e.status.Active? && e.nextRunAt.Some? && e.nextRunAt.value <= now + horizonMs
    then Some(StepJob(EnrollmentId(row.id, ordinal), e.currentStep, e.nextRunAt.value))
    else None
  }

  /** One round after a loss: reconcile at `now`, then the produced job runs at `at`. */
  datatype Round = Round(now: int, horizonMs: int, at: int)

  function RunRound(row: Row, ordinal: nat, r: Round): Row
    requires ordinal < |row.enrollments|
  {
    match ReconcileJob(row, ordinal, r.now, r.horizonMs)
    case None => row
    case Some(job) => RunStep(row, ordinal, job.step, r.at).0
  }

  function RunRounds(row: Row, ordinal: nat, rounds: seq<Round>): Row
    requires ordinal < |row.enrollments|
    decreases rounds
  {
    if rounds == [] then row
    else
      var row' := RunRound(row, ordinal, rounds[0]);
      if ordinal < |row'.enrollments| then RunRounds(row', ordinal, rounds[1..]) else row'
  }

  /** Each round's horizon covers the due time, and its job runs no earlier than that. */
  predicate Timely(row: Row, ordinal: nat, rounds: seq<Round>)
    requires ordinal < |row.enrollments|
    decreases rounds
  {
    rounds != [] ==>
      var e := row.enrollments[ordinal];
      && (e.nextRunAt.Some? ==>
            e.nextRunAt.value <= rounds[0].now + rounds[0].horizonMs && rounds[0].at >= e.nextRunAt.value)
      && var row' := RunRound(row, ordinal, rounds[0]);
         ordinal < |row'.enrollments| ==> Timely(row', ordinal, rounds[1..])
  }

  /** With every step job lost, `remaining + 1` rounds take an active enrollment to its end. */
  lemma {:induction false} QueueIsDisposable(row: Row, ordinal: nat, rounds: seq<Round>)
    requires RowOnSchedule(row) && ordinal < |row.enrollments|
    requires !row.enrollments[ordinal].status.Paused?
    requires Timely(row, ordinal, rounds)
    requires |rounds| >= Remaining(row.enrollments[ordinal])
    ensures
      var row' := RunRounds(row, ordinal, rounds);
      && ordinal < |row'.enrollments|
      && (row'.enrollments[ordinal].status.Completed? || row'.enrollments[ordinal].status.Stopped?)
    decreases |rounds|
  {
    if rounds != [] && row.enrollments[ordinal].status.Active? {
      var row' := RunRound(row, ordinal, rounds[0]);
      RoundHasEffect(row, ordinal, rounds[0]);
      QueueIsDisposable(row', ordinal, rounds[1..]);
    } else {
      EndedStaysEnded(row, ordinal, rounds);
    }
  }

  lemma {:induction false} EndedStaysEnded(row: Row, ordinal: nat, rounds: seq<Round>)
    requires ordinal < |row.enrollments| && !row.enrollments[ordinal].status.Active?
    ensures RunRounds(row, ordinal, rounds) == row
    decreases rounds
  {
    if rounds == [] {
    } else {
      EndedStaysEnded(row, ordinal, rounds[1..]);
    }
  }

  /** A timely round runs the current step of an active enrollment, and that uses up a run. */
  lemma RoundHasEffect(row: Row, ordinal: nat, r: Round)
    requires RowOnSchedule(row) && ordinal < |row.enrollments|
    requires
      var e := row.enrollments[ordinal];
      e.status.Active? && e.nextRunAt.value <= r.now + r.horizonMs && r.at >= e.nextRunAt.value
    ensures RowOnSchedule(RunRound(row, ordinal, r))
    ensures
      var es := RunRound(row, ordinal, r).enrollments;
      && ordinal < |es| && !es[ordinal].status.Paused?
      && Remaining(es[ordinal]) < Remaining(row.enrollments[ordinal])
  {
    var e := row.enrollments[ordinal];
    var a := OnStep(ordinal, e.currentStep, r.at);
    assert RunRound(row, ordinal, r) == Apply(row, a);
    ApplyKeepsSchedule(row, a);
    ApplyMoves(row, a);
    MoveGoesForward(e, MoveOf(row, a, ordinal));
  }
}
