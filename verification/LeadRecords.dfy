/**
 One lead's records as the handlers change them inside a transaction, statement by statement.
 `Leads` says what each transaction makes of the lead; every method here is proved to do that.
 */
module LeadRecords {
  import opened Base
  import opened Contacts
  import opened Keys
  import opened Leads

  /** How many enrollments a stop would end. */
  function CountLive(es: seq<Enrollment>): nat {
    if es == [] then 0 else CountLive(es[..|es| - 1]) + if Live(es[|es| - 1]) then 1 else 0
  }

  predicate Ended(lead: Id, es: seq<Enrollment>, reason: StopReason, i: nat, e: Event) {
    i < |es| && Live(es[i]) && e == Note(StoppedBody(EnrollmentId(lead, i), reason))
  }

  lemma {:induction false} NotesNameTheEnded(lead: Id, es: seq<Enrollment>, reason: StopReason, e: Event)
    ensures e in StopNotes(lead, es, reason) <==> exists i: nat :: Ended(lead, es, reason, i, e)
  {
    if es == [] {
    } else {
      var last := |es| - 1;
      NotesNameTheEnded(lead, es[..last], reason, e);
      if i: nat :| Ended(lead, es[..last], reason, i, e) { assert Ended(lead, es, reason, i, e); }
      if i: nat :| Ended(lead, es, reason, i, e) && i < last { assert Ended(lead, es[..last], reason, i, e); }
      if Live(es[last]) { assert Ended(lead, es, reason, last, Note(StoppedBody(EnrollmentId(lead, last), reason))); }
    }
  }

  /** Stopping leaves nothing to send or resume, and records each enrollment it ended exactly once. */
  lemma {:induction false} StopEndsEverything(lead: Id, es: seq<Enrollment>, reason: StopReason)
    ensures forall e :: e in StopEach(es) ==> !Live(e)
    ensures |StopNotes(lead, es, reason)| == CountLive(es)
    ensures forall e :: e in StopNotes(lead, es, reason) <==> exists i: nat :: Ended(lead, es, reason, i, e)
    ensures forall i, j :: 0 <= i < j < |StopNotes(lead, es, reason)| ==>
              StopNotes(lead, es, reason)[i] != StopNotes(lead, es, reason)[j]
  {
    forall e ensures e in StopNotes(lead, es, reason) <==> exists i: nat :: Ended(lead, es, reason, i, e) {
      NotesNameTheEnded(lead, es, reason, e);
    }
    if es == [] {
    } else {
      var last := |es| - 1;
      StopEndsEverything(lead, es[..last], reason);
      var notes := StopNotes(lead, es[..last], reason);
      forall k | 0 <= k < |notes| ensures notes[k] != Note(StoppedBody(EnrollmentId(lead, last), reason)) {
        assert notes[k] in notes;
      }
    }
  }

  datatype Reason = WrongStatus | NoAddress | NoConsent

  /** `ineligibleReason`: the first reason not to contact the lead on this channel, or none. */
  method IneligibleReason(lead: Row, channel: Channel) returns (reason: Option<Reason>)
    ensures reason.None? <==> Eligible(lead, channel)
    ensures
      var address := if channel.Email? then lead.profile.contact.email else lead.profile.contact.phone;
      var agreed := if channel.Email? then lead.profile.consentEmail else lead.profile.consentMessaging;
      var contactable := lead.status.Qualified? || lead.status.Contacted?;
      && (reason == Some(WrongStatus) <==> !contactable)
      && (reason == Some(NoAddress) <==> contactable && !Given(address))
      && (reason == Some(NoConsent) <==> contactable && Given(address) && !agreed)
      && (reason.None? <==> contactable && Given(address) && agreed)
  {
    if !lead.status.Qualified? && !lead.status.Contacted? { return Some(WrongStatus); }
    var address := if channel == Email then lead.profile.contact.email else lead.profile.contact.phone;
    if address.None? || address.value == "" { return Some(NoAddress); }
    var consent := if channel == Email then lead.profile.consentEmail else lead.profile.consentMessaging;
    if !consent { return Some(NoConsent); }
    return None;
  }

  /** What a reply did: it opted the lead out, or stopped its sequences and maybe engaged it. */
  datatype ReplyOutcome = OptedOut | Replied(engaged: bool, stopped: nat)

  datatype CrmOutcome = Unchanged | Updated(before: Status, after: Status, stopped: nat)

  datatype PauseOutcome = Paused | Resumed(job: StepJob) | NotFound | Conflict(current: EnrollmentStatus)

  class LeadRecord {
    const id: Id
    const source: string
    const createdAt: int
    var profile: Profile
    var status: Status
    var score: Option<int>
    var tier: Option<Tier>
    var enrollments: seq<Enrollment>
    var timeline: seq<Event>

    constructor (row: Row)
      ensures View() == row
    {
      id, source, createdAt := row.id, row.source, row.createdAt;
      profile, status, score, tier := row.profile, row.status, row.score, row.tier;
      enrollments, timeline := row.enrollments, row.timeline;
    }

    /** The row as a value, what a commit stores. */
    function View(): Row
      reads this
    {
      Row(id, source, profile, status, score, tier, createdAt, enrollments, timeline)
    }

    method Record(e: Event)
      modifies `timeline
      ensures timeline == old(timeline) + [e]
    {
      timeline := timeline + [e];
    }

    /** Stops every active or paused enrollment, recording why; returns how many. */
    method StopEnrollments(reason: StopReason) returns (stopped: nat)
      modifies `enrollments, `timeline
      ensures View() == Leads.StopEnrollments(old(View()), reason)
      ensures stopped == CountLive(old(enrollments))
    {
      stopped := 0;
      var i := 0;
      while i < |enrollments|
        invariant 0 <= i <= |enrollments| == |old(enrollments)|
        invariant forall k :: 0 <= k < |enrollments| ==>
          enrollments[k] == if k < i then StopOne(old(enrollments)[k]) else old(enrollments)[k]
        invariant stopped == CountLive(old(enrollments)[..i])
        invariant timeline == old(timeline) + StopNotes(id, old(enrollments)[..i], reason)
      {
        assert old(enrollments)[..i + 1][..i] == old(enrollments)[..i];
        var e := enrollments[i];
        if e.status.Active? || e.status.Paused? {
          enrollments := enrollments[i := e.(status := Stopped, nextRunAt := None)];
          Record(Note(StoppedBody(EnrollmentId(id, i), reason)));
          stopped := stopped + 1;
        }
        i := i + 1;
      }
      assert old(enrollments)[..i] == old(enrollments);
    }

    /** Idempotent: false when the lead had opted out before. */
    method OptOutInTx(source: OptOutSource) returns (changed: bool)
      modifies this
      ensures View() == Leads.OptOut(old(View()), source)
      ensures changed <==> !old(status).DoNotContact?
      ensures status.DoNotContact? && (!changed ==> View() == old(View()))
      ensures changed ==>
        && profile == old(profile).(consentEmail := false, consentMessaging := false)
        && (forall e :: e in enrollments ==> !Live(e))
        && old(timeline) + [Note(OptedOutBody(source, old(status)))] <= timeline
    {
      if status.DoNotContact? { return false; }
      var previous := status;
      status := DoNotContact;
      profile := profile.(consentEmail := false, consentMessaging := false);
      Record(Note(OptedOutBody(source, previous)));
      var _ := StopEnrollments(AfterOptOut);
      return true;
    }

    /** A lead nobody matched: created, captured and, when its address is suppressed, opted out at once. */
    static method Fill(id: Id, source: string, input: Profile, now: int, key: DedupeKey, ev: Id, suppressed: bool)
      returns (row: Row)
      ensures row == NewRow(id, source, input, now, key, ev, suppressed)
      ensures row.status == if suppressed then DoNotContact else New
      ensures row.profile == if suppressed then input.(consentEmail := false, consentMessaging := false) else input
      ensures row.enrollments == [] && row.score.None? && row.tier.None?
      ensures Keyed(ev, key, CapturedBody(false)) in row.timeline
      ensures suppressed <==> Note(OptedOutBody(BySuppression, New)) in row.timeline
    {
      var lead := new LeadRecord(Row(id, source, input, New, None, None, now, [], []));
      lead.Record(Keyed(ev, key, CapturedBody(false)));
      assert lead.timeline == [Keyed(ev, key, CapturedBody(false))];
      if suppressed {
        var _ := lead.OptOutInTx(BySuppression);
      }
      return lead.View();
    }

    /** A submission that matched this lead. */
    method MergeSubmission(input: Profile, key: DedupeKey, ev: Id, suppressed: bool)
      modifies this
      ensures View() == Leads.Capture(old(View()), input, key, ev, suppressed)
      // Whatever was known stays; an address can only be filled in.
      ensures old(profile).contact.email.Some? ==> profile.contact.email == old(profile).contact.email
      ensures old(profile).contact.phone.Some? ==> profile.contact.phone == old(profile).contact.phone
      ensures score == old(score) && tier == old(tier)
      // A suppressed person ends opted out, without consent and with nothing left to send.
      ensures suppressed ==> status.DoNotContact?
      ensures suppressed && !old(status).DoNotContact? ==> !profile.consentEmail && !profile.consentMessaging
      ensures suppressed && !old(status).DoNotContact? ==> forall e :: e in enrollments ==> !Live(e)
      ensures !suppressed ==> status == old(status) && enrollments == old(enrollments)
      ensures old(timeline) + [Keyed(ev, key, CapturedBody(true))] <= timeline
    {
      profile := MergeProfile(profile, input);
      Record(Keyed(ev, key, CapturedBody(true)));
      if suppressed {
        var _ := OptOutInTx(BySuppression);
      }
    }

    method RecordScore(score: int, tier: Tier, key: DedupeKey, ev: Id)
      modifies this
      ensures View() == Leads.Score(old(View()), score, tier, key, ev)
      // The status only moves between new, qualified and disqualified.
      ensures status != old(status) ==>
        && (old(status).New? || old(status).Qualified? || old(status).Disqualified?)
        && (status.Qualified? || status.Disqualified?)
      ensures old(status).New? || old(status).Qualified? || old(status).Disqualified? ==>
          (status.Disqualified? <==> tier.Unfit?)
      ensures this.score == Some(score) && this.tier == Some(tier)
      ensures profile == old(profile) && enrollments == old(enrollments)
      ensures timeline == old(timeline) + [Keyed(ev, key, ScoredBody(score, tier))]
    {
      if status.New? || status.Qualified? || status.Disqualified? {
        status := if tier.Unfit? then Disqualified else Qualified;
      }
      this.score, this.tier := Some(score), Some(tier);
      Record(Keyed(ev, key, ScoredBody(score, tier)));
    }

    /** The job is the one the lead's active enrollment stores as next. */
    predicate StoredJob(job: StepJob)
      reads this
    {
      && job.enrollment.lead == id && job.enrollment.ordinal < |enrollments|
      && var e := enrollments[job.enrollment.ordinal];
         e.status.Active? && e.currentStep == job.step && e.nextRunAt == Some(job.runAt)
    }

    method EnrollLead(sequence: Option<Sequence>, now: int) returns (job: Option<StepJob>)
      modifies `enrollments, `timeline
      ensures (View(), job) == Leads.Enroll(old(View()), sequence, now)
      ensures job.None? <==> sequence.None? || !sequence.value.active || sequence.value.steps == []
      ensures job.None? ==> enrollments == old(enrollments) && timeline == old(timeline)
      ensures job.Some? ==>
          |enrollments| == |old(enrollments)| + 1 && enrollments[..|old(enrollments)|] == old(enrollments)
      ensures job.Some? ==> StoredJob(job.value)
      ensures job.Some? ==>
        && job.value.runAt == now + sequence.value.steps[0].offsetMinutes * MINUTE
        && job.value.step == sequence.value.steps[0].order && job.value.enrollment.ordinal == |old(enrollments)|
        && var e := enrollments[|old(enrollments)|];
           e.sequence == sequence.value && e.createdAt == now && e.ran == [] && e.completedAt.None?
    {
      if sequence.None? || !sequence.value.active || |sequence.value.steps| == 0 { return None; }
      var first := sequence.value.steps[0];
      var nextRunAt := now + first.offsetMinutes * MINUTE;
      var enrollment := EnrollmentId(id, |enrollments|);
      enrollments := enrollments + [Enrollment(sequence.value, first.order, Active, Some(nextRunAt), now, [], None)];
      Record(Note(EnrolledBody(enrollment)));
      return Some(StepJob(enrollment, first.order, nextRunAt));
    }

    /** The transaction after a send: only the first first contact moves the lead on and enrolls it. */
    method RecordSend(job: MessageJob, to: Option<string>, ev: Id, sequence: Option<Sequence>, now: int)
      returns (enrolled: Option<StepJob>)
      modifies this
      ensures (View(), enrolled) == Leads.RecordSent(old(View()), job, to, ev, sequence, now)
      // Only a first contact to a qualified lead moves it on, and only then may it be enrolled.
      ensures status == if job.kind.FirstContactMessage? && old(status).Qualified? then Contacted else old(status)
      ensures enrolled.Some? <==>
        && job.kind.FirstContactMessage? && old(status).Qualified?
        && sequence.Some? && sequence.value.active && sequence.value.steps != []
      ensures enrolled.Some? ==>
        && StoredJob(enrolled.value) && enrolled.value.enrollment.ordinal == |old(enrollments)|
        && enrolled.value.runAt == now + sequence.value.steps[0].offsetMinutes * MINUTE
      ensures enrolled.None? ==> enrollments == old(enrollments)
      ensures |timeline| > 0 &&
          timeline[|timeline| - 1] == Keyed(ev, job.key, MessageSentBody(job.kind, job.channel, to))
      ensures profile == old(profile) && score == old(score) && tier == old(tier)
    {
      enrolled := None;
      if job.kind.FirstContactMessage? && status.Qualified? {
        status := Contacted;
        enrolled := EnrollLead(sequence, now);
      }
      Record(Keyed(ev, job.key, MessageSentBody(job.kind, job.channel, to)));
    }

    method RecordReply(optingOut: bool, key: DedupeKey, ev: Id) returns (outcome: ReplyOutcome)
      modifies this
      ensures View() == Leads.Reply(old(View()), optingOut, key, ev)
      // An opt-out opts out; any other reply engages a new, qualified, contacted or unresponsive lead.
      ensures optingOut ==> outcome.OptedOut? && status.DoNotContact?
      ensures !optingOut ==>
        var engages := old(status) in {Status.New, Status.Qualified, Status.Contacted, Status.Unresponsive};
        && outcome == Replied(engages, CountLive(old(enrollments)))
        && status == if engages then Engaged else old(status)
      ensures
        var engaged := outcome.Replied? && outcome.engaged;
        old(timeline) + [Keyed(ev, key, ReplyBody(optingOut, engaged))] <= timeline
      // Nothing is left to send; a lead that had opted out before has nothing to stop.
      ensures !(optingOut && old(status).DoNotContact?) ==> forall e :: e in enrollments ==> !Live(e)
    {
      var engaged := !optingOut && (status.New? || status.Qualified? || status.Contacted? || status.Unresponsive?);
      Record(Keyed(ev, key, ReplyBody(optingOut, engaged)));
      if optingOut {
        var _ := OptOutInTx(ByReply);
        return OptedOut;
      }
      var stopped := StopEnrollments(ReplySeen);
      if engaged { status := Engaged; }
      return Replied(engaged, stopped);
    }

    method ChangeStatus(target: Status, key: DedupeKey, ev: Id) returns (outcome: CrmOutcome)
      modifies this
      ensures View() == Leads.CrmChange(old(View()), target, key, ev)
      ensures outcome.Unchanged? <==> old(status) == target
      ensures outcome.Updated? ==>
        && outcome.before == old(status) && outcome.after == target && status == target
        && old(timeline) + [Keyed(ev, key, StatusBody(old(status), target))] <= timeline
        && if target.Qualified? || target.Contacted? then outcome.stopped == 0 && enrollments == old(enrollments)
           else outcome.stopped == CountLive(old(enrollments)) && forall e :: e in enrollments ==> !Live(e)
      ensures outcome.Unchanged? ==> View() == old(View())
    {
      if status == target { return Unchanged; }
      var before := status;
      status := target;
      Record(Keyed(ev, key, StatusBody(before, target)));
      var stopped := 0;
      if !Contactable(target) { stopped := StopEnrollments(CrmRule); }
      return Updated(before, target, stopped);
    }

    /** The `followup.step` transaction. */
    method RunFollowUpStep(ordinal: nat, jobStep: int, at: int) returns (outcome: StepOutcome)
      requires ordinal < |enrollments|
      modifies this
      ensures (View(), outcome) == Leads.RunStep(old(View()), ordinal, jobStep, at)
      // Which branch is taken.
      ensures
        var e := old(enrollments)[ordinal];
        var known := HasStep(e.sequence.steps, jobStep);
        var contactable := old(status).Qualified? || old(status).Contacted?;
        var due := e.currentStep == jobStep && (e.nextRunAt.None? || e.nextRunAt.value <= at + MINUTE);
        && (outcome.NotActive? <==> !e.status.Active?)
        && (outcome.Stale? <==>
              e.status.Active? && (jobStep > e.currentStep || (jobStep < e.currentStep && !known)))
        && (outcome.NotDue? <==> e.status.Active? && e.currentStep == jobStep && !due)
        && (outcome.LeadLeft? <==> e.status.Active? && due && !contactable)
        && (outcome.SequenceCompleted? <==> e.status.Active? && due && contactable && !known)
        && (outcome.Queued? <==> e.status.Active? && known && (jobStep < e.currentStep || (due && contactable)))
      // Stale, early and inactive jobs change nothing; neither does a retry of a step already passed.
      ensures outcome.NotActive? || outcome.Stale? || outcome.NotDue? ==> View() == old(View())
      ensures outcome.Queued? && jobStep != old(enrollments)[ordinal].currentStep ==> View() == old(View())
      // What is queued is this step's message and the job stored now.
      ensures outcome.Queued? ==>
        && (exists step :: step in old(enrollments)[ordinal].sequence.steps && step.order == jobStep
                           && IsMessageOf(outcome.message, EnrollmentId(id, ordinal), step))
        && (old(enrollments)[ordinal].nextRunAt.Some? ==> StoredJob(outcome.next))
      // A step that runs is due, by more than a minute early never.
      ensures View() != old(View()) && old(enrollments)[ordinal].nextRunAt.Some? ==>
        at + EARLY_TOLERANCE_MS >= old(enrollments)[ordinal].nextRunAt.value
      ensures outcome.SequenceCompleted? ==>
        && |enrollments| == |old(enrollments)| && enrollments[ordinal].status.Completed?
        && enrollments[ordinal].nextRunAt.None?
        && status == (if old(status).Contacted? then Unresponsive else old(status))
        && timeline == old(timeline) + [Note(CompletedBody(EnrollmentId(id, ordinal)))]
      ensures outcome.LeadLeft? ==> status == old(status) && forall e :: e in enrollments ==> !Live(e)
    {
      FindStepHolds(enrollments[ordinal].sequence.steps, jobStep);
      var e := enrollments[ordinal];
      var enrollment := EnrollmentId(id, ordinal);
      if !e.status.Active? { return NotActive; }
      var step := FindStep(e.sequence.steps, jobStep);
      // Already past this step: a retry after a failed enqueue.
      if e.currentStep > jobStep {
        if step.None? { return Stale; }
        return Queued(MessageFor(View(), ordinal, step.value),
                      StepJob(enrollment, e.currentStep, e.nextRunAt.GetOr(at)));
      }
      if e.currentStep != jobStep { return Stale; }
      if e.nextRunAt.Some? && e.nextRunAt.value > at + EARLY_TOLERANCE_MS { return NotDue; }
      if !Contactable(status) {
        var _ := StopEnrollments(NotContactable);
        return LeadLeft;
      }
      if step.None? {
        enrollments := enrollments[ordinal :=
            e.(status := EnrollmentStatus.Completed, nextRunAt := None, completedAt := Some(at))];
        if status.Contacted? { status := Unresponsive; }
        Record(Note(CompletedBody(enrollment)));
        return SequenceCompleted;
      }
      var next := FindAfter(e.sequence.steps, step.value.order);
      var gapMinutes := if next.Some? then next.value.offsetMinutes - step.value.offsetMinutes
          else e.sequence.finalWaitMinutes;
      var nextRunAt := Max(e.createdAt + (step.value.offsetMinutes + gapMinutes) * MINUTE, at + gapMinutes * MINUTE);
      var nextStep := if next.Some? then next.value.order else step.value.order + 1;
      outcome := Queued(MessageFor(View(), ordinal, step.value), StepJob(enrollment, nextStep, nextRunAt));
      enrollments := enrollments[ordinal := e.(currentStep := nextStep, nextRunAt := Some(nextRunAt),
                                              ran := e.ran + [Advance(step.value.order, at)])];
    }

    method PauseEnrollment(ordinal: nat) returns (outcome: PauseOutcome)
      modifies this
      ensures View() == Leads.Pause(old(View()), ordinal)
      ensures outcome == if ordinal >= |old(enrollments)| then NotFound
                         else if old(enrollments)[ordinal].status.Active? then PauseOutcome.Paused
                         else Conflict(old(enrollments)[ordinal].status)
      ensures outcome.Paused? ==>
        && enrollments == old(enrollments)[ordinal := old(enrollments)[ordinal].(status := EnrollmentStatus.Paused)]
        && timeline == old(timeline) + [Note(PausedBody(EnrollmentId(id, ordinal)))]
      ensures !outcome.Paused? ==> View() == old(View())
    {
      if ordinal >= |enrollments| { return NotFound; }
      var e := enrollments[ordinal];
      if !e.status.Active? { return Conflict(e.status); }
      enrollments := enrollments[ordinal := e.(status := EnrollmentStatus.Paused)];
      Record(Note(PausedBody(EnrollmentId(id, ordinal))));
      return PauseOutcome.Paused;
    }

    /** The due step is rescheduled for now, never earlier than planned; the job is the one now stored. */
    method ResumeEnrollment(ordinal: nat, now: int) returns (outcome: PauseOutcome)
      modifies this
      ensures View() == Leads.Resume(old(View()), ordinal, now)
      ensures ordinal >= |old(enrollments)| <==> outcome.NotFound?
      ensures ordinal < |old(enrollments)| ==>
        (outcome == Conflict(old(enrollments)[ordinal].status) <==> !old(enrollments)[ordinal].status.Paused?)
      ensures outcome.Resumed? <==> ordinal < |old(enrollments)| && old(enrollments)[ordinal].status.Paused?
      ensures outcome.Resumed? ==>
        && ordinal < |enrollments| && enrollments[ordinal].status.Active?
        && outcome.job.enrollment == EnrollmentId(id, ordinal)
        && outcome.job.step == enrollments[ordinal].currentStep
        && Some(outcome.job.runAt) == enrollments[ordinal].nextRunAt
        && outcome.job.runAt >= now && outcome.job.runAt >= old(enrollments)[ordinal].nextRunAt.GetOr(now)
        && (outcome.job.runAt == now || outcome.job.runAt == old(enrollments)[ordinal].nextRunAt.GetOr(0))
        && outcome.job.step == old(enrollments)[ordinal].currentStep
      ensures !outcome.Resumed? ==> View() == old(View())
    {
      if ordinal >= |enrollments| { return NotFound; }
      var e := enrollments[ordinal];
      if !e.status.Paused? { return Conflict(e.status); }
      var nextRunAt := Max(e.nextRunAt.GetOr(0), now);
      enrollments := enrollments[ordinal := e.(status := Active, nextRunAt := Some(nextRunAt))];
      Record(Note(ResumedBody(EnrollmentId(id, ordinal))));
      return Resumed(StepJob(EnrollmentId(id, ordinal), e.currentStep, nextRunAt));
    }
  }
}
