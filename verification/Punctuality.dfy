/**
 If every step job runs at the time it was built for and nothing is paused and resumed, every step of
 every lead runs exactly when planned, however often jobs are delivered.
 */
module Punctuality {
  import opened Base
  import opened Keys
  import opened Leads
  import opened Moves
  import opened Machine
  import opened Schedule
  import opened Store

  // ----- Where step jobs come from -----

  /** The job is the one the row stores as next for its enrollment. */
  predicate IsNext(row: Row, job: StepJob) {
    && job.enrollment.lead == row.id && job.enrollment.ordinal < |row.enrollments|
    && var e := row.enrollments[job.enrollment.ordinal];
       Live(e) && e.currentStep == job.step && e.nextRunAt == Some(job.runAt)
  }

  /**
   The jobs handed to the queue after a step job, fresh or retried, by the reconcile sweep and after a
   resume are the stored next job at that moment.
   */
  lemma BuiltJobsAreNext(row: Row, ordinal: nat, step: int, at: int, horizonMs: int)
    requires RowOnSchedule(row)
    ensures ordinal < |row.enrollments| ==>
      var (row', outcome) := RunStep(row, ordinal, step, at);
      outcome.Queued? ==> IsNext(row', outcome.next)
    ensures ordinal < |row.enrollments| ==>
      var job := ReconcileJob(row, ordinal, at, horizonMs);
      job.Some? ==> IsNext(row, job.value)
    ensures ordinal < |row.enrollments| && row.enrollments[ordinal].status.Paused? ==>
      var row' := Resume(row, ordinal, at);
      var e := row'.enrollments[ordinal];
      e.nextRunAt.Some? && IsNext(row', StepJob(EnrollmentId(row.id, ordinal), e.currentStep, e.nextRunAt.value))
  {
    if ordinal < |row.enrollments| && RunStep(row, ordinal, step, at).1.Queued? {
      RetryRepeats(row, ordinal, step, at);
      ApplyMoves(row, OnStep(ordinal, step, at));
    }
  }

  /** So is the job of the first contact that enrolls. */
  lemma EnrollingJobIsNext(row: Row, message: MessageJob, to: Option<string>, ev: Id, sequence: Option<Sequence>,
      now: int)
    ensures
      var (row', job) := RecordSent(row, message, to, ev, sequence, now);
      job.Some? ==> IsNext(row', job.value)
  {
  }

  /** At some moment of the run up to its `n`-th action the job was the stored next one. */
  predicate WasNext(cfg: Config, actions: seq<Action>, n: nat, job: StepJob)
    requires n <= |actions|
  {
    exists j: nat :: j <= n && WasNextAt(cfg, actions, j, job)
  }

  predicate WasNextAt(cfg: Config, actions: seq<Action>, j: nat, job: StepJob)
    requires j <= |actions|
  {
    var s := Run(cfg, INIT, actions[..j]);
    job.enrollment.lead in s.leads && IsNext(s.leads[job.enrollment.lead], job)
  }

  /** Each of these jobs was at some moment the stored next one. */
  predicate AllWereNext(cfg: Config, actions: seq<Action>, jobs: set<StepJob>) {
    forall job :: job in jobs ==> WasNext(cfg, actions, |actions|, job)
  }

  /** Each job that was run had been the stored next one before. */
  predicate DeliveredWereNext(cfg: Config, actions: seq<Action>) {
    forall i :: 0 <= i < |actions| && actions[i].RunStepJob? ==> WasNext(cfg, actions, i, actions[i].stepJob)
  }

  lemma WasNextStays(cfg: Config, actions: seq<Action>, a: Action, n: nat, m: nat, job: StepJob)
    requires n <= |actions| && n <= m <= |actions| + 1 && WasNext(cfg, actions, n, job)
    ensures WasNext(cfg, actions + [a], m, job)
  {
    hide Machine.Next;
    var j: nat :| j <= n && WasNextAt(cfg, actions, j, job);
    assert (actions + [a])[..j] == actions[..j];
    assert WasNextAt(cfg, actions + [a], j, job);
  }

  lemma StepsStayBuilt(cfg: Config, actions: seq<Action>, a: Action, jobs: set<StepJob>)
    requires AllWereNext(cfg, actions, jobs) && DeliveredWereNext(cfg, actions)
    requires a.RunStepJob? ==> a.stepJob in jobs
    ensures AllWereNext(cfg, actions + [a], jobs) && DeliveredWereNext(cfg, actions + [a])
  {
    hide Machine.Next;
    forall job | job in jobs ensures WasNext(cfg, actions + [a], |actions + [a]|, job) {
      WasNextStays(cfg, actions, a, |actions|, |actions| + 1, job);
    }
    var all := actions + [a];
    forall i | 0 <= i < |all| && all[i].RunStepJob? ensures WasNext(cfg, all, i, all[i].stepJob) {
      if i < |actions| {
        WasNextStays(cfg, actions, a, i, i, all[i].stepJob);
      } else {
        WasNextStays(cfg, actions, a, |actions|, |actions|, a.stepJob);
      }
    }
  }

  lemma NextNowWasNext(cfg: Config, actions: seq<Action>, job: StepJob)
    requires job.enrollment.lead in Run(cfg, INIT, actions).leads
    requires IsNext(Run(cfg, INIT, actions).leads[job.enrollment.lead], job)
    ensures WasNext(cfg, actions, |actions|, job)
  {
    hide Machine.Next;
    assert actions[..|actions|] == actions;
    assert WasNextAt(cfg, actions, |actions|, job);
  }

  lemma RowsAreOnSchedule(cfg: Config, actions: seq<Action>, l: Id)
    requires SequencesSorted(cfg)
    ensures l in Run(cfg, INIT, actions).leads ==> RowOnSchedule(Run(cfg, INIT, actions).leads[l])
  {
    hide Machine.Next;
    RunKeepsInv(cfg, actions);
  }

  lemma StepJobIsNext(row: Row, ordinal: nat, step: int, at: int)
    requires RowOnSchedule(row) && ordinal < |row.enrollments|
    ensures
      var (row', outcome) := RunStep(row, ordinal, step, at);
      outcome.Queued? ==> IsNext(row', outcome.next) && outcome.next.enrollment.lead == row.id == row'.id
  {
    BuiltJobsAreNext(row, ordinal, step, at, 0);
    SameId(row, OnStep(ordinal, step, at));
  }

  lemma SweptJobIsNext(row: Row, ordinal: nat, now: int, horizonMs: int)
    requires ordinal < |row.enrollments|
    ensures
      var swept := ReconcileJob(row, ordinal, now, horizonMs);
      swept.Some? ==> IsNext(row, swept.value)
  {
  }

  // ----- Until it is run or resumed, a step keeps its time -----

  /** `e'` is a later `e`: as long as it waits for the same step, it waits for the same time. */
  predicate KeepsTime(e: Enrollment, e': Enrollment) {
    && e'.sequence == e.sequence && e.ran <= e'.ran
    && (Live(e') && |e'.ran| == |e.ran| ==> e'.nextRunAt == e.nextRunAt)
  }

  lemma MoveKeepsTime(e: Enrollment, e': Enrollment, m: Move)
    requires KeepsTime(e, e') && Allowed(e', m) && !m.Release?
    ensures KeepsTime(e, MoveTo(e', m))
  {
    assert e'.ran <= MoveTo(e', m).ran;
  }

  lemma RowKeepsTime(row: Row, a: RowAction, i: nat, e: Enrollment)
    requires i < |row.enrollments| && KeepsTime(e, row.enrollments[i]) && !a.OnResume?
    ensures i < |Apply(row, a).enrollments| && KeepsTime(e, Apply(row, a).enrollments[i])
  {
    ApplyMoves(row, a);
    MoveKeepsTime(e, row.enrollments[i], MoveOf(row, a, i));
  }

  /** The lead has its enrollment `i`, once `e`, still on that time, or is gone for good. */
  predicate StillOnTime(s: State, l: Id, i: nat, e: Enrollment) {
    l in s.issued && (l in s.leads ==> i < |s.leads[l].enrollments| && KeepsTime(e, s.leads[l].enrollments[i]))
  }

  lemma NextKeepsTime(cfg: Config, s: State, a: Action, l: Id, i: nat, e: Enrollment)
    requires StillOnTime(s, l, i, e)
    requires !(a.ResumeEnrollment? && a.enrollment.lead == l)
    ensures StillOnTime(Next(cfg, s, a), l, i, e)
  {
    NextPerforms(cfg, s, a);
    RowCases(cfg, s, a);
    EffectIsFree(cfg, s, a);
    ResumesAreActions(cfg, s, a);
    var effect := EffectOf(cfg, s, a);
    if l in Next(cfg, s, a).leads {
      assert RowCase(cfg, s, a, l);
      if effect.Touch? && effect.lead == l {
        RowKeepsTime(s.leads[l], effect.action, i, e);
      }
    }
  }

  lemma ResumesAreActions(cfg: Config, s: State, a: Action)
    ensures EffectOf(cfg, s, a).Touch? && EffectOf(cfg, s, a).action.OnResume? ==>
      a.ResumeEnrollment? && a.enrollment.lead == EffectOf(cfg, s, a).lead
  {
  }

  predicate NeverResumes(actions: seq<Action>, l: Id) {
    forall i :: 0 <= i < |actions| ==> !(actions[i].ResumeEnrollment? && actions[i].enrollment.lead == l)
  }

  lemma NeverResumesSplits(actions: seq<Action>, l: Id)
    requires actions != [] && NeverResumes(actions, l)
    ensures NeverResumes(actions[..|actions| - 1], l)
    ensures !(actions[|actions| - 1].ResumeEnrollment? && actions[|actions| - 1].enrollment.lead == l)
  {
  }

  lemma {:induction false} RunKeepsTime(cfg: Config, before: seq<Action>, after: seq<Action>, l: Id, i: nat,
      e: Enrollment)
    requires StillOnTime(Run(cfg, INIT, before), l, i, e) && NeverResumes(after, l)
    ensures StillOnTime(Run(cfg, INIT, before + after), l, i, e)
  {
    hide Machine.Next;
    if after == [] {
      assert before + after == before;
    } else {
      var last := |after| - 1;
      NeverResumesSplits(after, l);
      RunKeepsTime(cfg, before, after[..last], l, i, e);
      var all := before + after;
      assert all[..|all| - 1] == before + after[..last] && all[|all| - 1] == after[last];
      LastKeepsTime(cfg, all, l, i, e);
    }
  }

  lemma LastKeepsTime(cfg: Config, actions: seq<Action>, l: Id, i: nat, e: Enrollment)
    requires actions != [] && StillOnTime(Run(cfg, INIT, actions[..|actions| - 1]), l, i, e)
    requires !(actions[|actions| - 1].ResumeEnrollment? && actions[|actions| - 1].enrollment.lead == l)
    ensures StillOnTime(Run(cfg, INIT, actions), l, i, e)
  {
    NextKeepsTime(cfg, Run(cfg, INIT, actions[..|actions| - 1]), actions[|actions| - 1], l, i, e);
  }

  /** The stored step number tells how many steps ran. */
  lemma StepTellsPosition(e: Enrollment, e': Enrollment)
    requires OnSchedule(e) && OnSchedule(e') && e'.sequence == e.sequence && e'.currentStep == e.currentStep
    ensures |e'.ran| == |e.ran|
  {
    if |e.ran| < |e'.ran| {
      OrderAtGrows(e.sequence, |e.ran|, |e'.ran|);
    } else if |e'.ran| < |e.ran| {
      OrderAtGrows(e.sequence, |e'.ran|, |e.ran|);
    }
  }

  lemma OrderAtGrows(s: Sequence, i: nat, j: nat)
    requires s.steps != [] && SortedSteps(s.steps) && i < j <= |s.steps|
    ensures OrderAt(s, i) < OrderAt(s, j)
  {
    if j == |s.steps| && i < j - 1 { assert s.steps[i].order < s.steps[j - 1].order; }
  }

  // ----- Punctual runs -----

  /**
   The lead's step jobs each run at the time they were built for, once or many times, in any order;
   nothing of the lead is resumed.
   */
  predicate PunctualRun(cfg: Config, actions: seq<Action>, l: Id) {
    && NeverResumes(actions, l)
    && forall i :: 0 <= i < |actions| && actions[i].RunStepJob? && actions[i].stepJob.enrollment.lead == l ==>
         actions[i].at == actions[i].stepJob.runAt && WasNext(cfg, actions, i, actions[i].stepJob)
  }

  /** The lead's step jobs each run at the time they were built for. */
  predicate RunAtTheirTime(actions: seq<Action>, l: Id) {
    forall i :: 0 <= i < |actions| && actions[i].RunStepJob? && actions[i].stepJob.enrollment.lead == l ==>
      actions[i].at == actions[i].stepJob.runAt
  }

  lemma PunctualPrefix(cfg: Config, actions: seq<Action>, l: Id)
    requires actions != [] && PunctualRun(cfg, actions, l)
    ensures PunctualRun(cfg, actions[..|actions| - 1], l)
  {
    var prefix := actions[..|actions| - 1];
    forall i | 0 <= i < |prefix| && prefix[i].RunStepJob? && prefix[i].stepJob.enrollment.lead == l
      ensures prefix[i].at == prefix[i].stepJob.runAt && WasNext(cfg, prefix, i, prefix[i].stepJob)
    {
      assert prefix[i] == actions[i];
      var j: nat :| j <= i && WasNextAt(cfg, actions, j, actions[i].stepJob);
      assert prefix[..j] == actions[..j];
      assert WasNextAt(cfg, prefix, j, prefix[i].stepJob);
    }
  }

  lemma SameStepSameTime(s: State, l: Id, i: nat, e: Enrollment)
    requires StillOnTime(s, l, i, e) && l in s.leads && OnSchedule(e) && OnSchedule(s.leads[l].enrollments[i])
    requires Live(s.leads[l].enrollments[i]) && s.leads[l].enrollments[i].currentStep == e.currentStep
    ensures s.leads[l].enrollments[i].nextRunAt == e.nextRunAt
  {
    StepTellsPosition(e, s.leads[l].enrollments[i]);
  }

  lemma EnrollmentsAreOnSchedule(cfg: Config, actions: seq<Action>, l: Id, i: nat)
    requires SequencesSorted(cfg) && l in Run(cfg, INIT, actions).leads
    requires i < |Run(cfg, INIT, actions).leads[l].enrollments|
    ensures OnSchedule(Run(cfg, INIT, actions).leads[l].enrollments[i]) && l in Run(cfg, INIT, actions).issued
  {
    RunKeepsInv(cfg, actions);
  }

  /** A job that was once the stored next one, and is for the current step still, is the stored next one now. */
  lemma OnceNextIsNext(cfg: Config, actions: seq<Action>, j: nat, job: StepJob)
    requires SequencesSorted(cfg) && j <= |actions| && WasNextAt(cfg, actions, j, job)
    requires NeverResumes(actions[j..], job.enrollment.lead)
    requires IsCurrent(Run(cfg, INIT, actions), job)
    ensures Run(cfg, INIT, actions).leads[job.enrollment.lead].enrollments[job.enrollment.ordinal].nextRunAt ==
        Some(job.runAt)
  {
    hide Machine.Next;
    var l, i := job.enrollment.lead, job.enrollment.ordinal;
    assert actions[..j] + actions[j..] == actions;
    EnrollmentsAreOnSchedule(cfg, actions[..j], l, i);
    EnrollmentsAreOnSchedule(cfg, actions, l, i);
    var e := Run(cfg, INIT, actions[..j]).leads[l].enrollments[i];
    RunKeepsTime(cfg, actions[..j], actions[j..], l, i, e);
    SameStepSameTime(Run(cfg, INIT, actions), l, i, e);
  }

  /** The job is for the step its enrollment is waiting to run. */
  predicate IsCurrent(s: State, job: StepJob) {
    && job.enrollment.lead in s.leads
    && job.enrollment.ordinal < |s.leads[job.enrollment.lead].enrollments|
    && var e := s.leads[job.enrollment.lead].enrollments[job.enrollment.ordinal];
       Live(e) && e.currentStep == job.step
  }

  lemma LastJobIsPunctual(cfg: Config, actions: seq<Action>, l: Id)
    requires SequencesSorted(cfg) && actions != [] && PunctualRun(cfg, actions, l)
    ensures
      var s, a := Run(cfg, INIT, actions[..|actions| - 1]), actions[|actions| - 1];
      var effect := EffectOf(cfg, s, a);
      effect.Touch? && effect.lead == l && l in s.leads ==> PunctualAction(s.leads[l], effect.action)
  {
    var last := |actions| - 1;
    var s, a := Run(cfg, INIT, actions[..last]), actions[last];
    ResumesAreActions(cfg, s, a);
    StepsAreJobs(cfg, s, a);
    var effect := EffectOf(cfg, s, a);
    if effect.Touch? && effect.lead == l && l in s.leads && effect.action.OnStep?
       && StepIsCurrent(s.leads[l], effect.action.ordinal, effect.action.step, effect.action.at) {
      var j: nat :| j <= last && WasNextAt(cfg, actions, j, a.stepJob);
      assert actions[..last][..j] == actions[..j];
      assert actions[..last][j..] == actions[j..last];
      OnceNextIsNext(cfg, actions[..last], j, a.stepJob);
    }
  }

  lemma StepsAreJobs(cfg: Config, s: State, a: Action)
    ensures EffectOf(cfg, s, a).Touch? && EffectOf(cfg, s, a).action.OnStep? ==>
      && a.RunStepJob? && EffectOf(cfg, s, a).lead == a.stepJob.enrollment.lead
      && EffectOf(cfg, s, a).action == OnStep(a.stepJob.enrollment.ordinal, a.stepJob.step, a.at)
  {
  }

  lemma NextKeepsPunctual(cfg: Config, s: State, a: Action, l: Id)
    requires SequencesSorted(cfg) && l in Next(cfg, s, a).leads
    requires l in s.leads ==> RowPunctual(s.leads[l])
    requires
      var effect := EffectOf(cfg, s, a);
      effect.Touch? && effect.lead == l && l in s.leads ==> PunctualAction(s.leads[l], effect.action)
    ensures RowPunctual(Next(cfg, s, a).leads[l])
  {
    RowCases(cfg, s, a);
    EffectIsConfigured(cfg, s, a);
    assert RowCase(cfg, s, a, l);
    var e := EffectOf(cfg, s, a);
    if e.Touch? && e.lead == l {
      ApplyKeepsPunctual(s.leads[l], e.action);
    } else if e.Create? && e.row.id == l {
      NewRowIsBlank(a.lead, a.source, a.input, a.now, Key<EnrollmentId>.Captured(a.source, a.externalId), a.ev,
                    IsSuppressed(cfg, s, a.input.contact));
    }
  }

  lemma NewRowIsBlank(id: Id, source: string, input: Profile, now: int, key: DedupeKey, ev: Id, suppressed: bool)
    ensures NewRow(id, source, input, now, key, ev, suppressed).enrollments == []
  {
  }

  /**
   In every run where each step job of a lead runs at the time it was built for, however often and in
   whatever order jobs are delivered, and nothing of the lead is resumed, every step ran exactly at
   enrollment plus offset.
   */
  lemma {:induction false} PunctualRunsAreOnTheDot(cfg: Config, actions: seq<Action>, l: Id)
    requires SequencesSorted(cfg) && PunctualRun(cfg, actions, l) && l in Run(cfg, INIT, actions).leads
    ensures RowPunctual(Run(cfg, INIT, actions).leads[l])
  {
    if actions == [] {
    } else {
      var last := |actions| - 1;
      var s := Run(cfg, INIT, actions[..last]);
      PunctualPrefix(cfg, actions, l);
      if l in s.leads { PunctualRunsAreOnTheDot(cfg, actions[..last], l); }
      LastJobIsPunctual(cfg, actions, l);
      NextKeepsPunctual(cfg, s, actions[last], l);
    }
  }
}
