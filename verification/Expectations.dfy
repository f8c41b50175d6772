/**
 What a send, a plan and a reply are for, said in terms of the rows alone, and that the functions of
 `Machine` and `Plans` compute exactly that.
 */
module Expectations {
  import opened Base
  import opened Contacts
  import opened Keys
  import opened Leads
  import opened Machine
  import opened Plans

  // ----- Matching a submission -----

  predicate SharesAddress(row: Row, input: Contact) {
    || (Given(input.email) && row.profile.contact.email == input.email)
    || (Given(input.phone) && row.profile.contact.phone == input.phone)
  }

  /** A submission belongs to the oldest lead with its email or its phone, or to none when none has them. */
  predicate OldestWithAddress(leads: map<Id, Row>, input: Contact, found: Option<Id>) {
    && (found.None? ==> forall l :: l in leads ==> !SharesAddress(leads[l], input))
    && (found.Some? ==>
          && found.value in leads && SharesAddress(leads[found.value], input)
          && forall l :: l in leads && SharesAddress(leads[l], input) ==>
               leads[l].createdAt >= leads[found.value].createdAt)
  }

  lemma MatchIsExact(s: State, input: Contact, found: Option<Id>)
    ensures IsMatch(s, input, found) <==> OldestWithAddress(s.leads, input, found)
  {
    forall l | l in s.leads ensures Shares(s.leads[l].profile.contact, input) <==> SharesAddress(s.leads[l], input) {
    }
  }

  // ----- Sending -----

  function AddressOn(row: Row, c: Channel): Option<string> {
    match c
    case Email => row.profile.contact.email
    case Whatsapp => row.profile.contact.phone
    case Sms => row.profile.contact.phone
  }

  /** The lead was qualified or contacted, has an address for the channel and agreed to it. */
  predicate Reachable(row: Row, c: Channel) {
    && row.status in {Status.Qualified, Status.Contacted}
    && Given(AddressOn(row, c))
    && (c == Email ==> row.profile.consentEmail)
    && (c != Email ==> row.profile.consentMessaging)
  }

  predicate RunsNow(leads: map<Id, Row>, id: EnrollmentId) {
    && id.lead in leads && id.ordinal < |leads[id.lead].enrollments|
    && leads[id.lead].enrollments[id.ordinal].status == EnrollmentStatus.Active
  }

  /** The message was not recorded, its lead exists, and it is an alert or the lead may be contacted by it. */
  predicate MaySend(leads: map<Id, Row>, index: map<DedupeKey, Entry>, job: MessageJob) {
    && job.key !in index && job.lead in leads
    && match job.kind
       case RepAlertMessage => true
       case FirstContactMessage => Reachable(leads[job.lead], job.channel)
       case FollowUpMessage =>
         Reachable(leads[job.lead], job.channel) && job.enrollment.Some? && RunsNow(leads, job.enrollment.value)
  }

  /** Alerts go to the address they name, everything else to the lead's own. */
  function Recipient(leads: map<Id, Row>, job: MessageJob): Option<string>
    requires job.lead in leads
  {
    if job.kind == RepAlertMessage then job.to else AddressOn(leads[job.lead], job.channel)
  }

  /** The reads of a send let it go ahead exactly when it may, to the right address. */
  lemma CheckIsExact(s: State, job: MessageJob)
    ensures CheckOf(s, job).Duplicate? <==> job.key in s.index
    ensures CheckOf(s, job).Proceed? <==> MaySend(s.leads, s.index, job)
    ensures CheckOf(s, job).Proceed? ==>
      CheckOf(s, job) == Proceed(s.leads[job.lead].tier, Recipient(s.leads, job))
  {
  }

  /** A recorded send starts a sequence: the first contact of a qualified lead, if there are steps to run. */
  predicate StartsSequence(row: Row, job: MessageJob, sequence: Option<Sequence>) {
    && job.kind == FirstContactMessage && row.status == Status.Qualified
    && sequence.Some? && sequence.value.active && |sequence.value.steps| > 0
  }

  /** What a recorded send makes of its lead, and the step job that comes of it. */
  predicate AfterSend(before: Row, after: Row, job: MessageJob, sequence: Option<Sequence>, now: int,
      enrolled: Option<StepJob>) {
    && after.profile == before.profile
    && after.status == (if job.kind == FirstContactMessage && before.status == Status.Qualified then Contacted
                        else before.status)
    && if StartsSequence(before, job, sequence) then
         var first := sequence.value.steps[0];
         && |after.enrollments| == |before.enrollments| + 1
         && after.enrollments[..|before.enrollments|] == before.enrollments
         && enrolled == Some(StepJob(EnrollmentId(before.id, |before.enrollments|), first.order,
                                     now + first.offsetMinutes * MINUTE))
       else enrolled.None? && after.enrollments == before.enrollments
  }

  /** The commit of a send makes exactly that of the lead. */
  lemma SendIsExact(row: Row, job: MessageJob, to: Option<string>, ev: Id, sequence: Option<Sequence>, now: int)
    ensures
      var (row', enrolled) := RecordSent(row, job, to, ev, sequence, now);
      AfterSend(row, row', job, sequence, now, enrolled) && (enrolled.Some? <==> StartsSequence(row, job, sequence))
  {
  }

  // ----- Erasing -----

  /**
   An erasure lists this hash: it is of the subject of a request, or of a lead that is erased on request
   or had opted out.
   */
  predicate Lists(cfg: Config, leads: map<Id, Row>, ids: set<Id>, reason: ErasureReason, extra: Contact, h: string) {
    || (reason == Request && h in Hashes(cfg, extra))
    || exists l :: l in ids && l in leads && (reason == Request || leads[l].status == DoNotContact)
                   && h in Hashes(cfg, leads[l].profile.contact)
  }

  /** The CRM contacts of these leads. */
  function ContactsIn(leads: map<Id, Row>, crmIds: map<Id, string>, ids: set<Id>): set<string> {
    set l | l in ids && l in leads && l in crmIds :: crmIds[l]
  }

  // ----- Planning -----

  /** A lead's plan is the one of its tier; it has one while it may be contacted and is not disqualified. */
  predicate HasPlan(row: Row) {
    row.status in {Status.Qualified, Status.Contacted} && row.tier in {Some(Hot), Some(Warm), Some(Cold)}
  }

  /** The job is a first contact that the tier's plan has and that can be sent. */
  predicate IsPlannedContact(taken: set<DedupeKey>, row: Row, config: PlanConfig, job: MessageJob)
    requires row.tier.Some?
  {
    && job.kind == FirstContactMessage && job.lead == row.id && job.to.None? && job.enrollment.None?
    && Planned(job.channel, job.template) in config.tiers(row.tier.value).messages
    && job.channel in config.providers && Reachable(row, job.channel)
    && job.key == FirstContact(row.id, job.channel) && job.key !in taken
  }

  /** The job is the alert of the tier's plan, to the sales address. */
  predicate IsPlannedAlert(taken: set<DedupeKey>, row: Row, config: PlanConfig, job: MessageJob)
    requires row.tier.Some?
  {
    && job.kind == RepAlertMessage && job.lead == row.id && job.channel == Email && job.enrollment.None?
    && config.tiers(row.tier.value).alertTemplate == Some(job.template)
    && Given(config.alertTo) && job.to == config.alertTo
    && job.key == RepAlert(row.id) && job.key !in taken
  }

  predicate InPlan(taken: set<DedupeKey>, row: Row, config: PlanConfig, job: MessageJob) {
    HasPlan(row) && (IsPlannedContact(taken, row, config, job) || IsPlannedAlert(taken, row, config, job))
  }

  lemma TierHasPlan(row: Row)
    ensures Plannable(row) <==> HasPlan(row)
  {
    if row.tier.Some? { assert row.tier == Some(row.tier.value); }
  }

  /** A plan holds exactly the first contacts and the alert that are due. */
  lemma PlanIsExact(taken: set<DedupeKey>, row: Row, config: PlanConfig, job: MessageJob)
    ensures job in Plan(taken, row, config) <==> InPlan(taken, row, config, job)
  {
    TierHasPlan(row);
    if Plannable(row) {
      var plan := config.tiers(row.tier.value);
      PlanMessagesHolds(taken, row, plan.messages, config.providers, job);
      assert job in PlanMessages(taken, row, plan.messages, config.providers)
        <==> IsPlannedContact(taken, row, config, job) by {
        if IsPlannedContact(taken, row, config, job) {
          var m := Planned(job.channel, job.template);
          assert m in plan.messages && job == FirstContactJob(row.id, m);
        }
      }
      if IsPlannedAlert(taken, row, config, job) { assert job == AlertJob(row.id, job.template, config.alertTo); }
    }
  }

  /**
   The sales alert is planned exactly when the tier has a template for it, the sales address is there
   and no alert was recorded.
   */
  lemma AlertIsPlanned(taken: set<DedupeKey>, row: Row, config: PlanConfig)
    ensures (exists job :: job in Plan(taken, row, config) && job.key == RepAlert(row.id)) <==>
      && HasPlan(row) && config.tiers(row.tier.value).alertTemplate.Some? && Given(config.alertTo)
      && Key<EnrollmentId>.RepAlert(row.id) !in taken
    ensures forall job :: job in Plan(taken, row, config) && job.key == RepAlert(row.id) ==>
      job == MessageJob(row.id, RepAlertMessage, Email, config.tiers(row.tier.value).alertTemplate.value,
                        config.alertTo, RepAlert(row.id), None)
    ensures !HasPlan(row) ==> Plan(taken, row, config) == []
  {
    TierHasPlan(row);
    forall job | job in Plan(taken, row, config)
      ensures InPlan(taken, row, config, job)
    {
      PlanIsExact(taken, row, config, job);
    }
    if HasPlan(row) && config.tiers(row.tier.value).alertTemplate.Some? && Given(config.alertTo)
       && Key<EnrollmentId>.RepAlert(row.id) !in taken
    {
      var template := config.tiers(row.tier.value).alertTemplate.value;
      var alert := MessageJob(row.id, RepAlertMessage, Email, template, config.alertTo, RepAlert(row.id), None);
      PlanIsExact(taken, row, config, alert);
      assert IsPlannedAlert(taken, row, config, alert);
    }
  }
}
