/** What a transaction on a lead does to each of the lead's enrollments, one at a time. */
module Moves {
  import opened Base
  import opened Leads

  datatype Move = Stay | Stop | Go(step: Step, at: int) | Finish(at: int) | Hold | Release(now: int)

  function MoveTo(e: Enrollment, m: Move): Enrollment {
    match m
    case Stay => e
    case Stop => StopOne(e)
    case Go(step, at) => AdvancePast(e, step, at)
    case Finish(at) => e.(status := EnrollmentStatus.Completed, nextRunAt := None, completedAt := Some(at))
    case Hold => e.(status := Paused)
    case Release(now) => e.(status := Active, nextRunAt := Some(Max(e.nextRunAt.GetOr(0), now)))
  }

  /** A job may run a minute early, no more. */
  predicate Due(e: Enrollment, at: int) {
    e.nextRunAt.Some? ==> e.nextRunAt.value <= at + EARLY_TOLERANCE_MS
  }

  predicate Allowed(e: Enrollment, m: Move) {
    match m
    case Stay => true
    case Stop => true
    case Go(step, at) => e.status.Active? && FindStep(e.sequence.steps, e.currentStep) == Some(step) && Due(e, at)
    case Finish(at) => e.status.Active? && FindStep(e.sequence.steps, e.currentStep) == None && Due(e, at)
    case Hold => e.status.Active?
    case Release(_) => e.status.Paused?
  }

  /** The job does what it was scheduled for: it is for the current step of an active enrollment, and due. */
  predicate StepIsCurrent(row: Row, ordinal: nat, step: int, at: int) {
    && ordinal < |row.enrollments|
    && var e := row.enrollments[ordinal];
       e.status.Active? && e.currentStep == step && Due(e, at)
  }

  function MoveOf(row: Row, a: RowAction, i: nat): Move
    requires i < |row.enrollments|
  {
    match a
    case OnCapture(_, _, _, suppressed) => if suppressed && !row.status.DoNotContact? then Stop else Stay
    case OnReply(optingOut, _, _) => if optingOut && row.status.DoNotContact? then Stay else Stop
    case OnUnsubscribe => if row.status.DoNotContact? then Stay else Stop
    case OnCrmChange(target, _, _) => if row.status == target || Contactable(target) then Stay else Stop
    case OnStep(ordinal, step, at) =>
      if !StepIsCurrent(row, ordinal, step, at) then Stay
      else if !Contactable(row.status) then Stop
      else if i != ordinal then Stay
      else
        (match FindStep(row.enrollments[i].sequence.steps, step)
         case None => Finish(at)
         case Some(s) => Go(s, at))
    case OnPause(ordinal) => if i == ordinal && row.enrollments[i].status.Active? then Hold else Stay
    case OnResume(ordinal, now) => if i == ordinal && row.enrollments[i].status.Paused? then Release(now) else Stay
    case _ => Stay
  }

  /** The transaction that enrolls: the commit of a first contact to a qualified lead. */
  predicate Enrolls(row: Row, a: RowAction) {
    && a.OnSent? && a.job.kind.FirstContactMessage? && row.status.Qualified?
    && a.sequence.Some? && a.sequence.value.active && a.sequence.value.steps != []
  }

  function NewEnrollment(s: Sequence, now: int): Enrollment
    requires s.steps != []
  {
    Enrollment(s, s.steps[0].order, Active, Some(now + s.steps[0].offsetMinutes * MINUTE), now, [], None)
  }

  lemma StepMovesAt(row: Row, ordinal: nat, step: int, at: int, i: nat)
    requires i < |row.enrollments|
    ensures
      var a := OnStep(ordinal, step, at);
      && i < |Apply(row, a).enrollments| == |row.enrollments|
      && Allowed(row.enrollments[i], MoveOf(row, a, i))
      && Apply(row, a).enrollments[i] == MoveTo(row.enrollments[i], MoveOf(row, a, i))
  {
    var after := Apply(row, OnStep(ordinal, step, at));
    if !StepIsCurrent(row, ordinal, step, at) {
      assert after == row;
    } else if !Contactable(row.status) {
      assert after == StopEnrollments(row, NotContactable);
    } else {
      var e := row.enrollments[ordinal];
      match FindStep(e.sequence.steps, step)
      case None => assert after == Complete(row, ordinal, at);
      case Some(s) => assert after == SetEnrollment(row, ordinal, AdvancePast(e, s, at));
    }
  }

  lemma MovesAt(row: Row, a: RowAction, i: nat)
    requires i < |row.enrollments|
    ensures
      && i < |Apply(row, a).enrollments|
      && Allowed(row.enrollments[i], MoveOf(row, a, i))
      && Apply(row, a).enrollments[i] == MoveTo(row.enrollments[i], MoveOf(row, a, i))
  {
    match a
    case OnStep(ordinal, step, at) => StepMovesAt(row, ordinal, step, at, i);
    case OnSent(_, _, _, _, _) =>
    case OnPause(_) =>
    case OnResume(_, _) =>
    case _ => assert Apply(row, a).enrollments == row.enrollments ||
        Apply(row, a).enrollments == StopEach(row.enrollments);
  }

  /** How many enrollments there are afterwards. */
  lemma MovesCount(row: Row, a: RowAction)
    ensures Enrolls(row, a) ==>
      && |Apply(row, a).enrollments| == |row.enrollments| + 1
      && Apply(row, a).enrollments[|row.enrollments|] == NewEnrollment(a.sequence.value, a.now)
    ensures !Enrolls(row, a) ==> |Apply(row, a).enrollments| == |row.enrollments|
    ensures Apply(row, a).id == row.id
  {
    match a
    case OnSent(_, _, _, _, _) =>
    case OnStep(_, _, _) =>
    case OnPause(_) =>
    case OnResume(_, _) =>
    case _ => assert |StopEach(row.enrollments)| == |row.enrollments|;
  }

  /** A transaction moves every enrollment by its own move and adds one exactly when it enrolls. */
  lemma ApplyMoves(row: Row, a: RowAction)
    ensures forall i :: 0 <= i < |row.enrollments| ==>
      && i < |Apply(row, a).enrollments|
      && Allowed(row.enrollments[i], MoveOf(row, a, i))
      && Apply(row, a).enrollments[i] == MoveTo(row.enrollments[i], MoveOf(row, a, i))
    ensures Enrolls(row, a) ==>
      && |Apply(row, a).enrollments| == |row.enrollments| + 1
      && Apply(row, a).enrollments[|row.enrollments|] == NewEnrollment(a.sequence.value, a.now)
    ensures !Enrolls(row, a) ==> |Apply(row, a).enrollments| == |row.enrollments|
    ensures Apply(row, a).id == row.id
  {
    MovesCount(row, a);
    forall i | 0 <= i < |row.enrollments|
      ensures
        && i < |Apply(row, a).enrollments|
        && Allowed(row.enrollments[i], MoveOf(row, a, i))
        && Apply(row, a).enrollments[i] == MoveTo(row.enrollments[i], MoveOf(row, a, i))
    {
      MovesAt(row, a, i);
    }
  }
}
