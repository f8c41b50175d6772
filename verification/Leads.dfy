/**
 One lead's row with its event timeline and its enrollments, and what each transaction of the
 pipeline does to it. A transaction touches one lead; `Apply` is its effect on that lead.
 */
module Leads {
  import opened Base
  import opened Contacts
  import opened Keys

  /** A database id (a uuid): never issued twice. */
  type Id = string

  datatype Status = New | Contacted | Engaged | Qualified | Disqualified | Converted | Unresponsive | DoNotContact

  /** `Unfit` is the tier the source calls disqualified. */
  datatype Tier = Hot | Warm | Cold | Unfit

  /** The `ordinal`-th enrollment of a lead; it stands for the enrollment's uuid. */
  datatype EnrollmentId = EnrollmentId(lead: Id, ordinal: nat)

  type DedupeKey = Key<EnrollmentId>

  // ----- What a lead told us -----

  datatype Profile = Profile(
    firstName: Option<string>, lastName: Option<string>, contact: Contact, company: Option<string>,
    timezone: Option<string>, utm: Option<map<string, string>>, fields: map<string, string>,
    consentEmail: bool, consentMessaging: bool)

  /** `mergeData`: keep what is known, first-touch UTM, newest answers, sticky consent. */
  function MergeProfile(lead: Profile, input: Profile): Profile {
    Profile(
      lead.firstName.OrElse(input.firstName),
      lead.lastName.OrElse(input.lastName),
      Merge(lead.contact, input.contact),
      lead.company.OrElse(input.company),
      lead.timezone.OrElse(input.timezone),
      lead.utm.OrElse(input.utm),
      lead.fields + input.fields,
      lead.consentEmail || input.consentEmail,
      lead.consentMessaging || input.consentMessaging)
  }

  /** Submitting the same form again adds nothing; submissions may be merged first or one by one. */
  lemma MergeProfileLaws(p: Profile, a: Profile, b: Profile)
    ensures MergeProfile(MergeProfile(p, a), a) == MergeProfile(p, a)
    ensures MergeProfile(p, MergeProfile(a, b)) == MergeProfile(MergeProfile(p, a), b)
    ensures MergeProfile(p, p) == p
  {
    assert p.fields + a.fields + a.fields == p.fields + a.fields;
    assert p.fields + (a.fields + b.fields) == p.fields + a.fields + b.fields;
    assert p.fields + p.fields == p.fields;
  }

  // ----- Sequences and enrollments -----

  datatype Step = Step(order: int, offsetMinutes: int, channel: Channel, template: string)

  datatype Sequence = Sequence(name: string, active: bool, finalWaitMinutes: int, steps: seq<Step>)

  datatype EnrollmentStatus = Active | Paused | Stopped | Completed

  /** A step the enrollment went past, and when. */
  datatype Advance = Advance(order: int, at: int)

  /**
   An enrollment row. `ran` and `completedAt` only record its history: the program neither stores
   nor reads them.
   */
  datatype Enrollment = Enrollment(
    sequence: Sequence, currentStep: int, status: EnrollmentStatus, nextRunAt: Option<int>, createdAt: int,
    ran: seq<Advance>, completedAt: Option<int>)

  predicate Live(e: Enrollment) {
    e.status.Active? || e.status.Paused?
  }

  function FindStep(steps: seq<Step>, order: int): Option<Step> {
    if steps == [] then None
    else if steps[0].order == order then Some(steps[0])
    else FindStep(steps[1..], order)
  }

  function FindAfter(steps: seq<Step>, order: int): Option<Step> {
    if steps == [] then None
    else if steps[0].order > order then Some(steps[0])
    else FindAfter(steps[1..], order)
  }

  lemma {:induction false} FindStepHolds(steps: seq<Step>, order: int)
    ensures
      match FindStep(steps, order)
      case None => forall s :: s in steps ==> s.order != order
      case Some(s) => s in steps && s.order == order
  {
    if steps == [] {
    } else {
      FindStepHolds(steps[1..], order);
    }
  }

  predicate HasStep(steps: seq<Step>, order: int) {
    exists s :: s in steps && s.order == order
  }

  // ----- Jobs -----

  datatype Kind = FirstContactMessage | FollowUpMessage | RepAlertMessage

  datatype MessageJob = MessageJob(
    lead: Id, kind: Kind, channel: Channel, template: string, to: Option<string>, key: DedupeKey,
    enrollment: Option<EnrollmentId>)

  /** The follow-up of this step, field by field. */
  predicate IsMessageOf(m: MessageJob, id: EnrollmentId, step: Step) {
    && m.lead == id.lead && m.kind.FollowUpMessage? && m.channel == step.channel && m.template == step.template
    && m.to.None? && m.key == FollowUp(id, step.order) && m.enrollment == Some(id)
  }

  datatype StepJob = StepJob(enrollment: EnrollmentId, step: int, runAt: int)

  datatype StepOutcome =
    | Queued(message: MessageJob, next: StepJob)
    | SequenceCompleted
    | LeadLeft
    | NotActive
    | Stale
    | NotDue

  // ----- Events -----

  datatype StopReason = AfterOptOut | ReplySeen | CrmRule | NotContactable

  datatype OptOutSource = ByReply | ByLink | BySuppression

  datatype Body =
    | CapturedBody(merged: bool)
    | ScoredBody(score: int, tier: Tier)
    | MessageSentBody(kind: Kind, channel: Channel, to: Option<string>)
    | MessageFailedBody(kind: Kind, permanent: bool)
    | ReplyBody(optOut: bool, engaged: bool)
    | OptedOutBody(source: OptOutSource, previous: Status)
    | EnrolledBody(enrollment: EnrollmentId)
    | StoppedBody(enrollment: EnrollmentId, reason: StopReason)
    | CompletedBody(enrollment: EnrollmentId)
    | PausedBody(enrollment: EnrollmentId)
    | ResumedBody(enrollment: EnrollmentId)
    | StatusBody(before: Status, after: Status)

  /** Only events with a dedupe key are ever looked up, so only those show their id. */
  datatype Event =
    | Keyed(id: Id, key: DedupeKey, body: Body)
    | Note(body: Body)

  datatype Row = Row(
    id: Id, source: string, profile: Profile, status: Status, score: Option<int>, tier: Option<Tier>,
    createdAt: int, enrollments: seq<Enrollment>, timeline: seq<Event>)

  function Append(row: Row, e: Event): Row {
    row.(timeline := row.timeline + [e])
  }

  // ----- Eligibility -----

  predicate Contactable(s: Status) {
    s.Qualified? || s.Contacted?
  }

  function ChannelAddress(p: Profile, c: Channel): Option<string> {
    if c.Email? then p.contact.email else p.contact.phone
  }

  /** `ineligibleReason` is null. */
  predicate Eligible(row: Row, c: Channel) {
    && Contactable(row.status)
    && Given(ChannelAddress(row.profile, c))
    && (if c.Email? then row.profile.consentEmail else row.profile.consentMessaging)
  }

  // ----- Transactions on one lead -----

  function StopOne(e: Enrollment): Enrollment {
    if Live(e) then e.(status := Stopped, nextRunAt := None) else e
  }

  function StopEach(es: seq<Enrollment>): seq<Enrollment> {
    seq(|es|, i requires 0 <= i < |es| => StopOne(es[i]))
  }

  /** One `sequence_stopped` per enrollment stopped, oldest enrollment first. */
  function StopNotes(lead: Id, es: seq<Enrollment>, reason: StopReason): seq<Event> {
    if es == [] then []
    else
      var last := |es| - 1;
      StopNotes(lead, es[..last], reason)
      + if Live(es[last]) then [Note(StoppedBody(EnrollmentId(lead, last), reason))] else []
  }

  function StopEnrollments(row: Row, reason: StopReason): Row {
    row.(enrollments := StopEach(row.enrollments),
         timeline := row.timeline + StopNotes(row.id, row.enrollments, reason))
  }

  function OptOut(row: Row, source: OptOutSource): Row {
    if row.status.DoNotContact? then row
    else
      var out := row.(status := DoNotContact,
          profile := row.profile.(consentEmail := false, consentMessaging := false));
      StopEnrollments(Append(out, Note(OptedOutBody(source, row.status))), AfterOptOut)
  }

  /** A reply makes these leads engaged. */
  predicate Engageable(s: Status) {
    s.New? || s.Qualified? || s.Contacted? || s.Unresponsive?
  }

  /** Scoring may only move a lead between these statuses. */
  predicate PreContact(s: Status) {
    s.New? || s.Qualified? || s.Disqualified?
  }

  datatype RowAction =
    | OnCapture(input: Profile, key: DedupeKey, ev: Id, suppressed: bool)
    | OnScore(score: int, tier: Tier, key: DedupeKey, ev: Id)
    /** A sent message is recorded; `sequence` is the one configured for the tier read before sending. */
    | OnSent(job: MessageJob, to: Option<string>, ev: Id, sequence: Option<Sequence>, now: int)
    | OnSendFailed(job: MessageJob, permanent: bool, ev: Id)
    | OnReply(optingOut: bool, key: DedupeKey, ev: Id)
    | OnUnsubscribe
    | OnCrmChange(target: Status, key: DedupeKey, ev: Id)
    | OnStep(ordinal: nat, step: int, at: int)
    | OnPause(ordinal: nat)
    | OnResume(ordinal: nat, now: int)

  function Capture(row: Row, input: Profile, key: DedupeKey, ev: Id, suppressed: bool): Row {
    var merged := Append(row.(profile := MergeProfile(row.profile, input)), Keyed(ev, key, CapturedBody(true)));
    if suppressed then OptOut(merged, BySuppression) else merged
  }

  /** The row of a submission nobody matched. */
  function NewRow(id: Id, source: string, input: Profile, now: int, key: DedupeKey, ev: Id, suppressed: bool): Row {
    var row := Row(id, source, input, New, None, None, now, [], [Keyed(ev, key, CapturedBody(false))]);
    if suppressed then OptOut(row, BySuppression) else row
  }

  function Score(row: Row, score: int, tier: Tier, key: DedupeKey, ev: Id): Row {
    var status := if !PreContact(row.status) then row.status else if tier.Unfit? then Disqualified else Qualified;
    Append(row.(score := Some(score), tier := Some(tier), status := status), Keyed(ev, key, ScoredBody(score, tier)))
  }

  /** `enrollLead`: nothing without an active sequence that has a first step. */
  function Enroll(row: Row, sequence: Option<Sequence>, now: int): (Row, Option<StepJob>) {
    if sequence.None? || !sequence.value.active || sequence.value.steps == [] then (row, None)
    else
      var first := sequence.value.steps[0];
      var nextRunAt := now + first.offsetMinutes * MINUTE;
      var id := EnrollmentId(row.id, |row.enrollments|);
      var e := Enrollment(sequence.value, first.order, Active, Some(nextRunAt), now, [], None);
      (Append(row.(enrollments := row.enrollments + [e]), Note(EnrolledBody(id))),
       Some(StepJob(id, first.order, nextRunAt)))
  }

  /** The commit of a sent message: the first first contact moves the lead on and enrolls it. */
  function RecordSent(row: Row, job: MessageJob, to: Option<string>, ev: Id, sequence: Option<Sequence>, now: int)
    : (Row, Option<StepJob>)
  {
    var (moved, enrolled) :=
      if job.kind.FirstContactMessage? && row.status.Qualified?
      then Enroll(row.(status := Contacted), sequence, now) else (row, None);
    (Append(moved, Keyed(ev, job.key, MessageSentBody(job.kind, job.channel, to))), enrolled)
  }

  function Reply(row: Row, optingOut: bool, key: DedupeKey, ev: Id): Row {
    var engaged := !optingOut && Engageable(row.status);
    var recorded := Append(row, Keyed(ev, key, ReplyBody(optingOut, engaged)));
    if optingOut then OptOut(recorded, ByReply)
    else
      var stopped := StopEnrollments(recorded, ReplySeen);
      if engaged then stopped.(status := Engaged) else stopped
  }

  function CrmChange(row: Row, target: Status, key: DedupeKey, ev: Id): Row {
    if row.status == target then row
    else
      var changed := Append(row.(status := target), Keyed(ev, key, StatusBody(row.status, target)));
      if Contactable(target) then changed else StopEnrollments(changed, CrmRule)
  }

  const EARLY_TOLERANCE_MS: int := 60000

  function MessageFor(row: Row, ordinal: nat, step: Step): MessageJob {
    var id := EnrollmentId(row.id, ordinal);
    MessageJob(row.id, FollowUpMessage, step.channel, step.template, None, FollowUp(id, step.order), Some(id))
  }

  /** Where an enrollment goes when it runs `step` at `at`. */
  function AdvancePast(e: Enrollment, step: Step, at: int): Enrollment {
    var next := FindAfter(e.sequence.steps, step.order);
    var gap := if next.Some? then next.value.offsetMinutes - step.offsetMinutes else e.sequence.finalWaitMinutes;
    var nextRunAt := Max(e.createdAt + (step.offsetMinutes + gap) * MINUTE, at + gap * MINUTE);
    e.(currentStep := if next.Some? then next.value.order else step.order + 1,
       nextRunAt := Some(nextRunAt),
       ran := e.ran + [Advance(step.order, at)])
  }

  function SetEnrollment(row: Row, ordinal: nat, e: Enrollment): Row
    requires ordinal < |row.enrollments|
  {
    row.(enrollments := row.enrollments[ordinal := e])
  }

  function Complete(row: Row, ordinal: nat, at: int): Row
    requires ordinal < |row.enrollments|
  {
    var e := row.enrollments[ordinal];
    var done := SetEnrollment(row, ordinal,
        e.(status := EnrollmentStatus.Completed, nextRunAt := None, completedAt := Some(at)));
    Append(done.(status := if row.status.Contacted? then Unresponsive else row.status),
           Note(CompletedBody(EnrollmentId(row.id, ordinal))))
  }

  /** The `followup.step` transaction. */
  function RunStep(row: Row, ordinal: nat, jobStep: int, at: int): (Row, StepOutcome)
    requires ordinal < |row.enrollments|
  {
    var e := row.enrollments[ordinal];
    var id := EnrollmentId(row.id, ordinal);
    var step := FindStep(e.sequence.steps, jobStep);
    if !e.status.Active? then (row, NotActive)
    else if e.currentStep > jobStep then
      if step.None? then (row, Stale)
      else (row, Queued(MessageFor(row, ordinal, step.value), StepJob(id, e.currentStep, e.nextRunAt.GetOr(at))))
    else if e.currentStep != jobStep then (row, Stale)
    else if e.nextRunAt.Some? && e.nextRunAt.value > at + EARLY_TOLERANCE_MS then (row, NotDue)
    else if !Contactable(row.status) then (StopEnrollments(row, NotContactable), LeadLeft)
    else if step.None? then (Complete(row, ordinal, at), SequenceCompleted)
    else
      var advanced := AdvancePast(e, step.value, at);
      (SetEnrollment(row, ordinal, advanced),
       Queued(MessageFor(row, ordinal, step.value), StepJob(id, advanced.currentStep, advanced.nextRunAt.value)))
  }

  function Pause(row: Row, ordinal: nat): Row {
    if ordinal >= |row.enrollments| || !row.enrollments[ordinal].status.Active? then row
    else
      Append(SetEnrollment(row, ordinal, row.enrollments[ordinal].(status := Paused)),
             Note(PausedBody(EnrollmentId(row.id, ordinal))))
  }

  /** The due step is rescheduled for now, never earlier than planned. */
  function Resume(row: Row, ordinal: nat, now: int): Row {
    if ordinal >= |row.enrollments| || !row.enrollments[ordinal].status.Paused? then row
    else
      var e := row.enrollments[ordinal];
      Append(SetEnrollment(row, ordinal, e.(status := Active, nextRunAt := Some(Max(e.nextRunAt.GetOr(0), now)))),
             Note(ResumedBody(EnrollmentId(row.id, ordinal))))
  }

  function Apply(row: Row, a: RowAction): Row {
    match a
    case OnCapture(input, key, ev, suppressed) => Capture(row, input, key, ev, suppressed)
    case OnScore(score, tier, key, ev) => Score(row, score, tier, key, ev)
    case OnSent(job, to, ev, sequence, now) => RecordSent(row, job, to, ev, sequence, now).0
    case OnSendFailed(job, permanent, ev) =>
        Append(row, Keyed(ev, Failed(job.key), MessageFailedBody(job.kind, permanent)))
    case OnReply(optingOut, key, ev) => Reply(row, optingOut, key, ev)
    case OnUnsubscribe => OptOut(row, ByLink)
    case OnCrmChange(target, key, ev) => CrmChange(row, target, key, ev)
    case OnStep(ordinal, step, at) => if ordinal < |row.enrollments| then RunStep(row, ordinal, step, at).0 else row
    case OnPause(ordinal) => Pause(row, ordinal)
    case OnResume(ordinal, now) => Resume(row, ordinal, now)
  }
}
