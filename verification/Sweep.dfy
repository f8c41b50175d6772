/** What the reconcile sweep finds: the stored next jobs of the enrollments due within a horizon. */
module Sweep {
  import opened Base
  import opened Leads
  import opened Schedule

  function JobsIn(jobs: seq<StepJob>): set<StepJob> {
    set job | job in jobs
  }

  lemma JobsInAppend(a: seq<StepJob>, b: seq<StepJob>)
    ensures JobsIn(a + b) == JobsIn(a) + JobsIn(b)
  {
  }

  /** The jobs among the first `n` enrollments of a lead. */
  function DueJobs(row: Row, n: nat, now: int, horizonMs: int): seq<StepJob>
    requires n <= |row.enrollments|
  {
    if n == 0 then []
    else
      DueJobs(row, n - 1, now, horizonMs)
      + match ReconcileJob(row, n - 1, now, horizonMs) case None => [] case Some(job) => [job]
  }

  function OwnDue(row: Row, now: int, horizonMs: int): set<StepJob> {
    JobsIn(DueJobs(row, |row.enrollments|, now, horizonMs))
  }

  /** The jobs of these leads. */
  function DueIn(leads: map<Id, Row>, ids: set<Id>, now: int, horizonMs: int): set<StepJob>
    requires ids <= leads.Keys
  {
    set l, job | l in ids && job in OwnDue(leads[l], now, horizonMs) :: job
  }

  function AllDue(leads: map<Id, Row>, now: int, horizonMs: int): set<StepJob> {
    DueIn(leads, leads.Keys, now, horizonMs)
  }

  lemma {:induction false} DueJobsHolds(row: Row, n: nat, now: int, horizonMs: int, job: StepJob)
    requires n <= |row.enrollments|
    ensures job in DueJobs(row, n, now, horizonMs) <==>
      exists i: nat :: i < n && ReconcileJob(row, i, now, horizonMs) == Some(job)
    ensures job in DueJobs(row, n, now, horizonMs) ==> job.enrollment.lead == row.id && job.enrollment.ordinal < n
  {
    if n == 0 {
    } else {
      DueJobsHolds(row, n - 1, now, horizonMs, job);
      if ReconcileJob(row, n - 1, now, horizonMs) == Some(job) {
        assert n - 1 < n && job in DueJobs(row, n, now, horizonMs);
      }
    }
  }

  lemma {:induction false} DueJobsDistinct(row: Row, n: nat, now: int, horizonMs: int)
    requires n <= |row.enrollments|
    ensures |JobsIn(DueJobs(row, n, now, horizonMs))| == |DueJobs(row, n, now, horizonMs)|
  {
    if n == 0 {
      assert JobsIn([]) == {};
    } else {
      DueJobsDistinct(row, n - 1, now, horizonMs);
      var before := DueJobs(row, n - 1, now, horizonMs);
      match ReconcileJob(row, n - 1, now, horizonMs)
      case None => assert DueJobs(row, n, now, horizonMs) == before;
      case Some(job) =>
        DueJobsHolds(row, n - 1, now, horizonMs, job);
        JobsInAppend(before, [job]);
        assert JobsIn([job]) == {job};
    }
  }

  /** The job is the stored next one of the lead's active `i`-th enrollment, due within the horizon. */
  predicate IsDue(row: Row, i: nat, now: int, horizonMs: int, job: StepJob) {
    && i < |row.enrollments| && row.enrollments[i].status.Active?
    && job.enrollment == EnrollmentId(row.id, i) && job.step == row.enrollments[i].currentStep
    && row.enrollments[i].nextRunAt == Some(job.runAt) && job.runAt <= now + horizonMs
  }

  /** The sweep finds exactly the due next jobs, lead by lead and enrollment by enrollment. */
  lemma AllDueHolds(leads: map<Id, Row>, now: int, horizonMs: int, job: StepJob)
    ensures job in AllDue(leads, now, horizonMs) <==>
      exists l, i: nat :: l in leads && IsDue(leads[l], i, now, horizonMs, job)
  {
    forall l | l in leads
      ensures job in OwnDue(leads[l], now, horizonMs) <==> exists i: nat :: IsDue(leads[l], i, now, horizonMs, job)
    {
      DueJobsHolds(leads[l], |leads[l].enrollments|, now, horizonMs, job);
      forall i: nat | i < |leads[l].enrollments|
        ensures ReconcileJob(leads[l], i, now, horizonMs) == Some(job) <==> IsDue(leads[l], i, now, horizonMs, job)
      {
      }
    }
  }

  /** A lead not seen yet adds exactly its own jobs. */
  lemma DueAddsUp(leads: map<Id, Row>, seen: set<Id>, l: Id, now: int, horizonMs: int)
    requires seen <= leads.Keys && l in leads && l !in seen
    requires forall m :: m in leads ==> leads[m].id == m
    ensures
      var own := DueJobs(leads[l], |leads[l].enrollments|, now, horizonMs);
      && DueIn(leads, seen + {l}, now, horizonMs) == DueIn(leads, seen, now, horizonMs) + JobsIn(own)
      && |DueIn(leads, seen + {l}, now, horizonMs)| == |DueIn(leads, seen, now, horizonMs)| + |own|
  {
    var before, own := DueIn(leads, seen, now, horizonMs), OwnDue(leads[l], now, horizonMs);
    DueJobsDistinct(leads[l], |leads[l].enrollments|, now, horizonMs);
    assert DueIn(leads, seen + {l}, now, horizonMs) == before + own;
    forall job | job in before ensures job !in own {
      var m :| m in seen && job in OwnDue(leads[m], now, horizonMs);
      DueJobsHolds(leads[m], |leads[m].enrollments|, now, horizonMs, job);
      DueJobsHolds(leads[l], |leads[l].enrollments|, now, horizonMs, job);
    }
    assert before !! own;
  }
}
