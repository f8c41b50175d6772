/** What reaches a provider as a follow-up: only messages of steps that ran, so none ahead of its schedule. */
module Delivery {
  import opened Base
  import opened Keys
  import opened Leads
  import opened Moves
  import opened Plans
  import opened Machine
  import opened Schedule
  import opened Store
  import opened Contacts
  import opened Expectations
  import Sending
  import Steps

  /** The enrollment ran this step, at most a minute before its planned time. */
  predicate Ran(row: Row, ordinal: nat, step: int) {
    && ordinal < |row.enrollments|
    && var e := row.enrollments[ordinal];
       exists i :: 0 <= i < |e.ran| && i < |e.sequence.steps| && RanAt(e, i, step)
  }

  predicate RanAt(e: Enrollment, i: nat, step: int)
    requires i < |e.ran| && i < |e.sequence.steps|
  {
    && e.ran[i].order == step == e.sequence.steps[i].order
    && e.ran[i].at + EARLY_TOLERANCE_MS >= Schedule.Planned(e, i)
  }

  predicate RanBy(cfg: Config, actions: seq<Action>, j: nat, id: EnrollmentId, step: int)
    requires j <= |actions|
  {
    var s := Run(cfg, INIT, actions[..j]);
    id.lead in s.leads && Ran(s.leads[id.lead], id.ordinal, step)
  }

  /** At some moment of the run the enrollment had run the step. */
  predicate EverRan(cfg: Config, actions: seq<Action>, id: EnrollmentId, step: int) {
    exists j: nat :: j <= |actions| && RanBy(cfg, actions, j, id, step)
  }

  lemma EverRanStays(cfg: Config, actions: seq<Action>, id: EnrollmentId, step: int)
    requires actions != []
    ensures EverRan(cfg, actions[..|actions| - 1], id, step) ==> EverRan(cfg, actions, id, step)
  {
    hide Machine.Next;
    var prefix := actions[..|actions| - 1];
    if EverRan(cfg, prefix, id, step) {
      var j: nat :| j <= |prefix| && RanBy(cfg, prefix, j, id, step);
      assert prefix[..j] == actions[..j];
      assert RanBy(cfg, actions, j, id, step);
    }
  }

  /** Some message was built, is on its way, or was accepted under this key. */
  predicate Known(s: State, k: DedupeKey) {
    || (exists job :: job in s.planned && job.key == k)
    || (exists t :: t in s.attempts && s.attempts[t].job.key == k)
    || k in s.history.accepted
  }

  lemma PlansAreNoFollowUps(cfg: Config, s: State, l: Id)
    requires l in s.leads
    ensures forall job :: job in PlannedFor(cfg, s, l) ==> !job.key.FollowUp?
  {
    var row := s.leads[l];
    forall job | job in PlannedFor(cfg, s, l) ensures !job.key.FollowUp? {
      PlanMessagesHolds(s.index.Keys, row, cfg.plan.tiers(row.tier.value).messages, cfg.plan.providers, job);
    }
  }

  /** The step job `a` sets out to queue a message under `k`. */
  predicate Queues(s: State, a: Action, k: DedupeKey) {
    a.RunStepJob? && exists job :: job in QueuedBy(s, a.stepJob, a.at) && job.key == k
  }

  /** Follow-ups are only built by step jobs. */
  lemma BuiltFollowUps(cfg: Config, s: State, a: Action, e: Effect, s': State, job: MessageJob)
    requires OnlyRows(s, s') && job in Around(cfg, s, a, e, s').planned && job.key.FollowUp?
    ensures job in s.planned || Queues(s, a, job.key)
  {
    if a.PlanContacts? && a.job.lead in s.leads { PlansAreNoFollowUps(cfg, s, a.job.lead); }
  }

  /** Attempts are for messages that were built. */
  lemma AttemptedFollowUps(cfg: Config, s: State, a: Action, e: Effect, s': State, t: Id)
    requires OnlyRows(s, s') && t in Around(cfg, s, a, e, s').attempts
    requires Around(cfg, s, a, e, s').attempts[t].job.key.FollowUp?
    ensures Known(s, Around(cfg, s, a, e, s').attempts[t].job.key)
  {
    if t !in s.attempts { assert a.CheckSend? && a.message in s.planned; }
  }

  /** Only messages of attempts are accepted. */
  lemma AcceptedFollowUps(cfg: Config, s: State, a: Action, e: Effect, s': State, k: DedupeKey)
    requires OnlyRows(s, s') && k in Around(cfg, s, a, e, s').history.accepted
    ensures Known(s, k)
  {
  }

  lemma AroundKnows(cfg: Config, s: State, a: Action, e: Effect, s': State, k: DedupeKey)
    requires OnlyRows(s, s') && k.FollowUp? && Known(Around(cfg, s, a, e, s'), k)
    ensures Known(s, k) || Queues(s, a, k)
  {
    hide Machine.Around;
    var t := Around(cfg, s, a, e, s');
    if job :| job in t.planned && job.key == k {
      BuiltFollowUps(cfg, s, a, e, s', job);
    } else if x :| x in t.attempts && t.attempts[x].job.key == k {
      AttemptedFollowUps(cfg, s, a, e, s', x);
    } else {
      AcceptedFollowUps(cfg, s, a, e, s', k);
    }
  }

  lemma NextKnows(cfg: Config, s: State, a: Action, k: DedupeKey)
    requires k.FollowUp? && Known(Next(cfg, s, a), k)
    ensures Known(s, k) || Queues(s, a, k)
  {
    var e := EffectOf(cfg, s, a);
    PerformsOnlyRows(s, e);
    AroundKnows(cfg, s, a, e, Perform(s, e), k);
  }

  /** The message a step job queues is of a step that ran. */
  lemma QueuedHasRun(row: Row, ordinal: nat, step: int, at: int)
    requires RowOnSchedule(row) && ordinal < |row.enrollments| && RunStep(row, ordinal, step, at).1.Queued?
    ensures
      var (row', outcome) := RunStep(row, ordinal, step, at);
      outcome.message.key.FollowUp? && outcome.message.key.enrollment == EnrollmentId(row.id, ordinal)
      && Ran(row', ordinal, outcome.message.key.step)
  {
    RetryRepeats(row, ordinal, step, at);
    ApplyKeepsSchedule(row, OnStep(ordinal, step, at));
    var (row', outcome) := RunStep(row, ordinal, step, at);
    var e, e' := row.enrollments[ordinal], row'.enrollments[ordinal];
    var i: nat :| i < |e'.ran| && i < |e.sequence.steps| && e'.ran[i].order == step
                  && IsMessageOf(outcome.message, EnrollmentId(row.id, ordinal), e.sequence.steps[i]);
    assert OnSchedule(e') && e'.sequence == e.sequence;
    assert RanAt(e', i, step);
  }

  lemma StepJobsRun(cfg: Config, actions: seq<Action>, k: DedupeKey)
    requires SequencesSorted(cfg) && actions != []
    requires Queues(Run(cfg, INIT, actions[..|actions| - 1]), actions[|actions| - 1], k)
    ensures k.FollowUp? && RanBy(cfg, actions, |actions|, k.enrollment, k.step)
  {
    hide Machine.Next;
    var s, a := Run(cfg, INIT, actions[..|actions| - 1]), actions[|actions| - 1];
    RunKeepsInv(cfg, actions[..|actions| - 1]);
    Steps.RowsKnowTheirIds(cfg, actions[..|actions| - 1], a.stepJob.enrollment.lead);
    Steps.StepTakes(cfg, s, a.stepJob, a.at);
    QueuedHasRun(s.leads[a.stepJob.enrollment.lead], a.stepJob.enrollment.ordinal, a.stepJob.step, a.at);
    Store.SameId(s.leads[a.stepJob.enrollment.lead], OnStep(a.stepJob.enrollment.ordinal, a.stepJob.step, a.at));
    assert actions[..|actions|] == actions;
  }

  lemma {:induction false} KnownFollowUpsRan(cfg: Config, actions: seq<Action>, k: DedupeKey)
    requires SequencesSorted(cfg) && k.FollowUp? && Known(Run(cfg, INIT, actions), k)
    ensures EverRan(cfg, actions, k.enrollment, k.step)
  {
    hide Machine.Next;
    if actions == [] {
    } else {
      var last := |actions| - 1;
      var s := Run(cfg, INIT, actions[..last]);
      NextKnows(cfg, s, actions[last], k);
      if Known(s, k) {
        KnownFollowUpsRan(cfg, actions[..last], k);
        EverRanStays(cfg, actions, k.enrollment, k.step);
      } else {
        StepJobsRun(cfg, actions, k);
      }
    }
  }

  lemma RanStays(e: Enrollment, e': Enrollment, i: nat, step: int)
    requires OnSchedule(e) && OnSchedule(e') && Follows(e, e')
    requires i < |e.ran| && i < |e.sequence.steps| && RanAt(e, i, step)
    ensures i < |e'.ran| && i < |e'.sequence.steps| && RanAt(e', i, step)
  {
    assert e'.ran[i] == e.ran[i];
  }

  /**
   In every run, a follow-up the provider accepted is of a step that its enrollment ran, in order and
   at most a minute before its planned time; as long as the lead exists the enrollment shows it.
   */
  lemma AcceptedFollowUpsRan(cfg: Config, actions: seq<Action>, id: EnrollmentId, step: int)
    requires SequencesSorted(cfg) && Run(cfg, INIT, actions).history.accepted[FollowUp(id, step)] > 0
    ensures EverRan(cfg, actions, id, step)
    ensures id.lead in Run(cfg, INIT, actions).leads ==> Ran(Run(cfg, INIT, actions).leads[id.lead], id.ordinal, step)
  {
    hide Machine.Next;
    KnownFollowUpsRan(cfg, actions, FollowUp(id, step));
    var j: nat :| j <= |actions| && RanBy(cfg, actions, j, id, step);
    if id.lead in Run(cfg, INIT, actions).leads { RanUntilNow(cfg, actions, j, id, step); }
  }

  lemma RanUntilNow(cfg: Config, actions: seq<Action>, j: nat, id: EnrollmentId, step: int)
    requires SequencesSorted(cfg) && j <= |actions| && RanBy(cfg, actions, j, id, step)
    requires id.lead in Run(cfg, INIT, actions).leads
    ensures Ran(Run(cfg, INIT, actions).leads[id.lead], id.ordinal, step)
  {
    hide Machine.Next;
    assert actions[..j] + actions[j..] == actions;
    ProgressIsForever(cfg, actions[..j], actions[j..], id.lead, id.ordinal);
    var e := Run(cfg, INIT, actions[..j]).leads[id.lead].enrollments[id.ordinal];
    var i :| 0 <= i < |e.ran| && i < |e.sequence.steps| && RanAt(e, i, step);
    RanStays(e, Run(cfg, INIT, actions).leads[id.lead].enrollments[id.ordinal], i, step);
  }

  // ----- The message of a step that runs goes out -----

  /** The job is for the current step of an active enrollment, the step exists and is due, the lead contactable. */
  predicate StepRuns(leads: map<Id, Row>, job: StepJob, at: int) {
    && RunsNow(leads, job.enrollment)
    && leads[job.enrollment.lead].status in {Status.Qualified, Status.Contacted}
    && var e := leads[job.enrollment.lead].enrollments[job.enrollment.ordinal];
       && e.currentStep == job.step && HasStep(e.sequence.steps, job.step)
       && (e.nextRunAt.None? || e.nextRunAt.value <= at + MINUTE)
  }

  /** A step that still has to run has no message recorded. */
  lemma StepToRunIsUnrecorded(cfg: Config, actions: seq<Action>, id: EnrollmentId, step: int)
    requires SequencesSorted(cfg)
    ensures
      var s := Run(cfg, INIT, actions);
      RunsNow(s.leads, id) && s.leads[id.lead].enrollments[id.ordinal].currentStep == step
      && HasStep(s.leads[id.lead].enrollments[id.ordinal].sequence.steps, step)
      ==> Key<EnrollmentId>.FollowUp(id, step) !in s.index
  {
    hide Machine.Next, Run;
    var s, key := Run(cfg, INIT, actions), Key<EnrollmentId>.FollowUp(id, step);
    if RunsNow(s.leads, id) && s.leads[id.lead].enrollments[id.ordinal].currentStep == step && key in s.index
       && HasStep(s.leads[id.lead].enrollments[id.ordinal].sequence.steps, step)
    {
      Sending.SendsAreConserved(cfg, actions);
      assert Sending.ConservedFor(s, key);
      AcceptedFollowUpsRan(cfg, actions, id, step);
      SchedulesAreKept(cfg, actions, id.lead);
      StepToRunDidNotRun(s.leads[id.lead], id.ordinal, step);
    }
  }

  lemma StepToRunDidNotRun(row: Row, ordinal: nat, step: int)
    requires RowOnSchedule(row) && ordinal < |row.enrollments|
    requires row.enrollments[ordinal].currentStep == step && HasStep(row.enrollments[ordinal].sequence.steps, step)
    ensures !Ran(row, ordinal, step)
  {
    var e := row.enrollments[ordinal];
    assert OnSchedule(e);
    CurrentStepFinds(e);
    FindStepHolds(e.sequence.steps, step);
  }

  /**
   In every run, the message a due step queues, read at once, goes out: on the step's channel, with its
   template, to the lead's address there, provided the lead has that address and agreed to be contacted.
   */
  lemma StepMessageGoesOut(cfg: Config, actions: seq<Action>, job: StepJob, at: int) returns (m: MessageJob)
    requires SequencesSorted(cfg)
    ensures
      var s := Run(cfg, INIT, actions);
      var s' := Next(cfg, s, RunStepJob(job, at));
      StepRuns(s.leads, job, at) ==>
        var row := s.leads[job.enrollment.lead];
        && m in s'.planned
        && (exists step :: step in row.enrollments[job.enrollment.ordinal].sequence.steps && step.order == job.step
                           && IsMessageOf(m, job.enrollment, step))
        && (CheckOf(s', m).Proceed? <==> Reachable(row, m.channel))
        && (Reachable(row, m.channel) ==> CheckOf(s', m) == Proceed(row.tier, AddressOn(row, m.channel)))
  {
    hide Machine.Next, Run;
    var s, id := Run(cfg, INIT, actions), job.enrollment;
    if StepRuns(s.leads, job, at) {
      var row := s.leads[id.lead];
      FindStepHolds(row.enrollments[id.ordinal].sequence.steps, job.step);
      m := RunStep(row, id.ordinal, job.step, at).1.message;
      StepToRunIsUnrecorded(cfg, actions, id, job.step);
      Steps.RowsKnowTheirIds(cfg, actions, id.lead);
      Steps.StepTakes(cfg, s, job, at);
      CheckIsExact(Next(cfg, s, RunStepJob(job, at)), m);
    } else {
      m := MessageJob("", RepAlertMessage, Email, "", None, RepAlert(""), None);
    }
  }
}
