/**
 The handlers over the database. `Pipeline` holds the tables; each handler does what it does to them
 statement by statement and is proved to take the corresponding steps of `Machine`. `trace` records
 the steps taken, so every result about runs holds of a pipeline after any sequence of calls.
 */
module Handlers {
  import opened Base
  import opened Contacts
  import opened Keys
  import opened Leads
  import opened Timelines
  import opened Machine
  import opened LeadRecords
  import opened Steps
  import opened Schedule
  import opened Sweep
  import opened Plans
  import opened Punctuality
  import opened Expectations
  import HandOff
  import Sending
  import Store

  // ----- Outcomes -----

  datatype InboundOutcome =
    | Unmatched
    | Duplicate
    | Handled(reply: ReplyOutcome)

  datatype CrmChangeOutcome =
    | Ignored
    | NoContact
    | AlreadyHandled
    | Changed(change: CrmOutcome)

  datatype SendOutcome =
    | Sent(event: Id, enrolled: Option<StepJob>)
    | NothingSent
    | AlreadySent
    /** Thrown: `permanent` spares the remaining tries. */
    | Failure(permanent: bool)

  /** What the queue does with a message job after a run. */
  datatype MessageFate = Finished(outcome: SendOutcome) | Retried | GivenUp

  datatype ErasureResult = ErasureResult(erased: nat, crmDeleted: nat, suppressed: nat)

  /** The erasure log: proof that a request was fulfilled. */
  datatype ErasureEntry = ErasureEntry(reason: ErasureReason, leadCount: nat, crmDeleted: nat,
      subjectHashes: set<string>)

  /** How a send ends once its reads went through, with `calls` queue calls left. */
  function AfterRead(cfg: Config, row: Row, t: Attempt, accepts: bool, permanent: bool, ev: Id, now: int, calls: nat)
    : SendOutcome
  {
    if !ProviderTakes(t, accepts) then Failure(permanent || !Given(t.to))
    else
      var enrolled := RecordSent(row, t.job, t.to, ev, SequenceOf(cfg, t.tier), now).1;
      if enrolled.Some? && calls == 0 then Failure(false) else Sent(ev, enrolled)
  }

  /** How an uninterrupted send ends. */
  function OutcomeOf(cfg: Config, s: State, job: MessageJob, accepts: bool, permanent: bool, ev: Id, now: int,
      calls: nat)
    : SendOutcome
  {
    match CheckOf(s, job)
    case Duplicate => AlreadySent
    case Skipped => NothingSent
    case Proceed(tier, to) =>
      AfterRead(cfg, s.leads[job.lead], Attempt(job, tier, to, false), accepts, permanent, ev, now, calls)
  }

  datatype CaptureResult = CaptureResult(lead: Id, event: Id, duplicate: bool)

  datatype QualifyResult = QualifyResult(lead: Id, event: Id, score: int, tier: Tier, duplicate: bool)

  function PlanOf(r: QualifyResult): Handoff {
    PlanJob(r.lead, r.event, r.score, r.tier)
  }

  /** The CRM contacts of these leads. */
  function ContactsOf(crmIds: map<Id, string>, ids: seq<Id>): set<string>
    requires forall l :: l in ids ==> l in crmIds
  {
    set l | l in ids :: crmIds[l]
  }

  lemma ContactsOfNext(crmIds: map<Id, string>, ids: seq<Id>, l: Id)
    requires l in crmIds && forall m :: m in ids ==> m in crmIds
    ensures ContactsOf(crmIds, ids + [l]) == ContactsOf(crmIds, ids) + {crmIds[l]}
  {
    assert l in ids + [l];
    forall m | m in ids ensures m in ids + [l] {
    }
  }

  lemma ContactsAreIn(contacts: seq<Id>, leads: map<Id, Row>, crmIds: map<Id, string>, ids: set<Id>)
    requires forall l :: l in contacts <==> l in ids * leads.Keys * crmIds.Keys
    ensures ContactsOf(crmIds, contacts) == ContactsIn(leads, crmIds, ids)
  {
  }

  function Elements(s: seq<Id>): set<Id> {
    set l | l in s
  }

  /** How a CRM change of this lead ends. */
  function CrmOutcomeOf(index: map<DedupeKey, Entry>, lead: Row, eventId: string, target: Status): CrmChangeOutcome {
    if lead.status == target then Changed(Unchanged)
    else if Key<EnrollmentId>.Crm(eventId) in index then AlreadyHandled
    else Changed(Updated(lead.status, target, if Contactable(target) then 0 else CountLive(lead.enrollments)))
  }

  /** The event stored under the key is this one. */
  predicate Recorded(index: map<DedupeKey, Entry>, key: DedupeKey, lead: Id, event: Id) {
    key in index && index[key].lead == lead && index[key].event.Keyed? && index[key].event.id == event
  }

  /** The result is what the stored scored event says. */
  predicate ScoreStored(index: map<DedupeKey, Entry>, capturedEvent: Id, r: QualifyResult) {
    var key := Key<EnrollmentId>.Scored(capturedEvent);
    Recorded(index, key, r.lead, r.event) && index[key].event.body == ScoredBody(r.score, r.tier)
  }

  /** The status of the enrollment, if it exists. */
  function StatusOf(leads: map<Id, Row>, id: EnrollmentId): Option<EnrollmentStatus> {
    if id.lead in leads && id.ordinal < |leads[id.lead].enrollments|
    then Some(leads[id.lead].enrollments[id.ordinal].status) else None
  }

  /** The alert that a lead started engaging. */
  function ReplyAlert(lead: Id, event: Id, template: string, to: Option<string>): MessageJob {
    MessageJob(lead, RepAlertMessage, Email, template, to, RepReply(event), None)
  }

  /** The reply event behind a rep alert: the one stored under the key, if it engaged the lead. */
  function AlertOf(index: map<DedupeKey, Entry>, key: DedupeKey): Option<Id> {
    if key in index && index[key].event.Keyed? && index[key].event.body.ReplyBody? && index[key].event.body.engaged
    then Some(index[key].event.id) else None
  }

  lemma StepMessageIsFollowUp(row: Row, ordinal: nat, step: int, at: int)
    requires ordinal < |row.enrollments| && RunStep(row, ordinal, step, at).1.Queued?
    ensures
      var message := RunStep(row, ordinal, step, at).1.message;
      message.kind.FollowUpMessage? && message.key.FollowUp?
  {
  }

  /** The leads and the index after a refused call: a permanent or last failure is recorded, once per message. */
  function Refused(leads: map<Id, Row>, index: map<DedupeKey, Entry>, job: MessageJob, hopeless: bool,
      finalTry: bool, ev: Id): (map<Id, Row>, map<DedupeKey, Entry>)
  {
    if !(hopeless || finalTry) || job.lead !in leads || Failed(job.key) in index then (leads, index)
    else
      var entry := Keyed(ev, Failed(job.key), MessageFailedBody(job.kind, hopeless));
      (leads[job.lead := Append(leads[job.lead], entry)], index[entry.key := Entry(job.lead, entry)])
  }

  /** The queue gained this job, under its key, which was free. */
  predicate Adds(before: map<DedupeKey, MessageJob>, after: map<DedupeKey, MessageJob>, job: MessageJob) {
    job.key !in before && after == before[job.key := job]
  }

  /** The queue keeps what it holds, and what is new was wanted. */
  predicate Grows(before: map<DedupeKey, MessageJob>, after: map<DedupeKey, MessageJob>, wanted: seq<MessageJob>) {
    && (forall k :: k in before ==> k in after && after[k] == before[k])
    && (forall k :: k in after && k !in before ==> after[k] in wanted)
  }

  lemma GrowsByOne(before: map<DedupeKey, MessageJob>, middle: map<DedupeKey, MessageJob>,
      after: map<DedupeKey, MessageJob>, job: MessageJob, wanted: seq<MessageJob>)
    requires Grows(before, middle, wanted) && Adds(middle, after, job) && job in wanted
    ensures Grows(before, after, wanted)
  {
  }

  class Pipeline {
    const cfg: Config
    /** Whether a queue call that fails may have landed all the same. */
    const landed: bool
    var leads: map<Id, Row>
    var index: map<DedupeKey, Entry>
    var suppressed: set<string>
    var issued: set<Id>
    var attempts: map<Id, Attempt>
    var pending: set<Handoff>
    var enqueued: set<Handoff>
    /** The messages some planner set out to enqueue, whether or not that worked. */
    ghost var planned: set<MessageJob>
    /** The queues of messages and steps: a job is added unless one with its id is there. */
    var messages: map<DedupeKey, MessageJob>
    var steps: set<StepJob>
    /** The CRM: which leads have a contact there, and the contacts it holds. */
    var crmIds: map<Id, string>
    var crmContacts: set<string>
    var erasures: seq<ErasureEntry>
    /** Queue and CRM calls that still succeed; later ones fail and end their handler. */
    var calls: nat
    ghost var history: History
    ghost var trace: seq<Action>

    constructor (cfg: Config, calls: nat, landed: bool)
      requires Store.SequencesSorted(cfg)
      ensures Valid() && this.cfg == cfg && trace == [] && steps == {} && messages == map[]
    {
      this.cfg, this.calls, this.landed := cfg, calls, landed;
      messages, steps := map[], {};
      crmIds, crmContacts, erasures := map[], {}, [];
      leads, index, suppressed, issued := map[], map[], {}, {};
      attempts, pending, enqueued := map[], {}, {};
      planned, history := {}, INIT.history;
      trace := [];
    }

    ghost function View(): State
      reads `leads, `index, `suppressed, `issued, `attempts, `pending, `enqueued, `planned, `history
    {
      State(leads, index, suppressed, issued, attempts, pending, enqueued, planned, history)
    }

    /** The tables are what the steps taken so far made of them, and the queues hold what they built. */
    ghost predicate Valid()
      reads `leads, `index, `suppressed, `issued, `attempts, `pending, `enqueued, `planned, `history
      reads `trace, `steps, `messages
    {
      View() == Run(cfg, INIT, trace) && Store.SequencesSorted(cfg) && StepsBuilt() && MessagesBuilt()
    }

    /** Every step job that is queued or was delivered was at some time the stored next one. */
    ghost predicate StepsBuilt()
      reads `steps, `trace
    {
      AllWereNext(cfg, trace, steps) && DeliveredWereNext(cfg, trace)
    }

    /** Every queued message was built by the planner, by a step job or as an alert. */
    ghost predicate MessagesBuilt()
      reads `messages, `planned
    {
      forall k :: k in messages ==> Deliverable(planned, messages[k])
    }

    /** Inserts the event and saves the row, or neither when the event's key is taken. */
    method Commit(row: Row, entry: Option<Event>) returns (ok: bool)
      modifies `leads, `index, `issued
      ensures ok <==> !(entry.Some? && entry.value.Keyed? && entry.value.key in old(index))
      ensures View() == if ok then Stored(old(View()), row, entry) else old(View())
    {
      if entry.Some? && entry.value.Keyed? {
        if entry.value.key in index { return false; }
        index := index[entry.value.key := Entry(row.id, entry.value)];
        issued := issued + {entry.value.id};
      }
      leads := leads[row.id := row];
      return true;
    }

    /** Commits a transaction that is a step of its own. */
    method Transact(row: Row, entry: Option<Event>, ghost ra: RowAction, ghost step: Action)
      requires Valid() && IsPlain(step) && EffectOf(cfg, View(), step) == Touch(row.id, ra)
      requires row.id in leads && row == Apply(leads[row.id], ra) && entry == Records(leads[row.id], ra)
      modifies `leads, `index, `issued, `trace
      ensures Valid() && trace == old(trace) + [step]
      ensures View() == Next(cfg, old(View()), step) == Stored(old(View()), row, entry)
    {
      hide Machine.Next;
      RowsKnowTheirIds(cfg, trace, row.id);
      Store.EffectIsFree(cfg, View(), step);
      RecordedIsFree(leads[row.id], ra);
      PlainStep(cfg, View(), step);
      var ok := Commit(row, entry);
      Took(old(View()), step);
    }

    /**
     `handleInbound`; `lead` is the oldest lead with the sender's address, if any, and `template` the
     one for alerts. `returned` is false when queueing the alert failed.
     */
    method HandleInbound(lead: Option<Id>, channel: Channel, externalId: string, optingOut: bool,
                         template: Option<string>, ev: Id)
      returns (outcome: InboundOutcome, alert: Option<Id>, returned: bool)
      requires Valid() && ev !in issued && (lead.Some? ==> lead.value in leads)
      modifies `leads, `index, `issued, `trace, `messages, `calls
      ensures Valid()
      ensures outcome.Duplicate? <==> Key<EnrollmentId>.Reply(channel, externalId) in old(index)
      ensures outcome.Unmatched? <==> !outcome.Duplicate? && lead.None?
      ensures outcome.Duplicate? || outcome.Unmatched? ==> View() == old(View())
      ensures outcome.Handled? ==>
        && lead.Some? && View() == Next(cfg, old(View()), ReceiveReply(lead.value, channel, externalId, optingOut, ev))
        && lead.value in leads && forall e :: e in leads[lead.value].enrollments ==> !Live(e)
      // An opt-out opts out; any other reply engages a new, qualified, contacted or unresponsive lead.
      ensures outcome.Handled? && optingOut ==>
        outcome.reply.OptedOut? && leads[lead.value].status.DoNotContact? && alert.None?
      ensures outcome.Handled? && !optingOut ==>
        var before := old(leads)[lead.value];
        var engages := before.status in {Status.New, Status.Qualified, Status.Contacted, Status.Unresponsive};
        && outcome.reply == Replied(engages, CountLive(before.enrollments))
        && leads[lead.value].status == (if engages then Engaged else before.status)
        && alert == (if engages then Some(ev) else None)
      // A replay alerts again exactly when the stored reply engaged the lead.
      ensures outcome.Unmatched? ==> alert.None?
      ensures outcome.Duplicate? ==>
        var event := index[Key<EnrollmentId>.Reply(channel, externalId)].event;
        alert == if event.Keyed? && event.body.ReplyBody? && event.body.engaged then Some(event.id) else None
      ensures alert.None? || !Given(cfg.plan.alertTo) || template.None? ==> returned && messages == old(messages)
      ensures alert.Some? && Given(cfg.plan.alertTo) && template.Some? ==>
        && Key<EnrollmentId>.Reply(channel, externalId) in index
        && var job := MessageJob(index[Key<EnrollmentId>.Reply(channel, externalId)].lead, RepAlertMessage, Email,
                                 template.value, cfg.plan.alertTo, RepReply(alert.value), None);
           && (returned <==> old(calls) > 0)
           && messages == if (returned || landed) && job.key !in old(messages) then old(messages)[job.key := job]
                          else old(messages)
      ensures outcome.Handled? ==>
        && Key<EnrollmentId>.Reply(channel, externalId) in index
        && index[Key<EnrollmentId>.Reply(channel, externalId)].lead == lead.value
    {
      hide Machine.Next;
      var key := Key<EnrollmentId>.Reply(channel, externalId);
      returned := true;
      if key in index {
        outcome, alert := InboundOutcome.Duplicate, AlertOf(index, key);
      } else if lead.None? {
        outcome, alert := Unmatched, None;
      } else {
        var reply;
        reply, alert := ReplyInTx(lead.value, channel, externalId, optingOut, ev);
        outcome := Handled(reply);
      }
      if alert.Some? && Given(cfg.plan.alertTo) && template.Some? {
        returned := EnqueueMessage(ReplyAlert(index[key].lead, alert.value, template.value, cfg.plan.alertTo));
      }
    }

    method ReplyInTx(lead: Id, channel: Channel, externalId: string, optingOut: bool, ev: Id)
      returns (reply: ReplyOutcome, alert: Option<Id>)
      requires Valid() && ev !in issued && lead in leads && Key<EnrollmentId>.Reply(channel, externalId) !in index
      modifies `leads, `index, `issued, `trace
      ensures Valid() && View() == Next(cfg, old(View()), ReceiveReply(lead, channel, externalId, optingOut, ev))
      ensures lead in leads && forall e :: e in leads[lead].enrollments ==> !Live(e)
      ensures optingOut ==> reply.OptedOut? && leads[lead].status.DoNotContact? && alert.None?
      ensures !optingOut ==>
        var before := old(leads)[lead];
        var engages := before.status in {Status.New, Status.Qualified, Status.Contacted, Status.Unresponsive};
        && reply == Replied(engages, CountLive(before.enrollments))
        && leads[lead].status == (if engages then Engaged else before.status)
        && alert == (if engages then Some(ev) else None)
      ensures
        var key := Key<EnrollmentId>.Reply(channel, externalId);
        key in index && index[key] == Entry(lead, Keyed(ev, key, ReplyBody(optingOut, alert.Some?)))
    {
      hide Machine.Next;
      var key := Key<EnrollmentId>.Reply(channel, externalId);
      Store.OptedOutIsQuiet(cfg, trace, lead);
      var tx := new LeadRecord(leads[lead]);
      var engaged := !optingOut && Engageable(tx.status);
      reply := tx.RecordReply(optingOut, key, ev);
      RowsKnowTheirIds(cfg, trace, lead);
      ReplyEffect(cfg, View(), lead, channel, externalId, optingOut, ev);
      Transact(tx.View(), Some(Keyed(ev, key, ReplyBody(optingOut, engaged))), OnReply(optingOut, key, ev),
               ReceiveReply(lead, channel, externalId, optingOut, ev));
      alert := if engaged then Some(ev) else None;
    }

    /** `createOptOut`: false when the lead is unknown or had opted out. */
    method OptOut(lead: Id) returns (changed: bool)
      requires Valid()
      modifies `leads, `index, `issued, `trace
      ensures Valid() && View() == Next(cfg, old(View()), Unsubscribe(lead))
      ensures changed <==> lead in old(leads) && !old(leads)[lead].status.DoNotContact?
      ensures lead in leads ==> leads[lead].status.DoNotContact?
    {
      if lead !in leads {
        TakeNothing(Unsubscribe(lead));
        return false;
      }
      var tx := new LeadRecord(leads[lead]);
      changed := tx.OptOutInTx(ByLink);
      RowsKnowTheirIds(cfg, trace, lead);
      UnsubscribeEffect(cfg, View(), lead);
      Transact(tx.View(), None, OnUnsubscribe, Unsubscribe(lead));
    }

    /** `handle` of the CRM webhook; `lead` is the oldest lead with the contact's id, if any. */
    method HandleCrmChange(lead: Option<Id>, eventId: string, property: string, value: string, ev: Id)
      returns (outcome: CrmChangeOutcome)
      requires Valid() && ev !in issued && (lead.Some? ==> lead.value in leads)
      modifies `leads, `index, `issued, `trace
      ensures Valid()
      ensures outcome.Ignored? <==> FindRule(cfg.inbound, property, value).None?
      ensures outcome.NoContact? <==> !outcome.Ignored? && lead.None?
      ensures outcome.AlreadyHandled? || outcome.Changed? ==>
        var before, target := old(leads)[lead.value], FindRule(cfg.inbound, property, value).value;
        && (outcome == Changed(Unchanged) <==> before.status == target)
        && (outcome.AlreadyHandled? <==> before.status != target && Key<EnrollmentId>.Crm(eventId) in old(index))
        && (outcome.Changed? && outcome.change.Updated? ==>
              && outcome.change.before == before.status && outcome.change.after == target
              && outcome.change.stopped == (if target in {Status.Qualified, Status.Contacted} then 0
                                            else CountLive(before.enrollments)))
      ensures outcome.AlreadyHandled? || outcome.Changed? ==>
        View() == Next(cfg, old(View()), CrmUpdate(lead.value, eventId, property, value, ev))
      ensures !(outcome.Changed? && outcome.change.Updated?) ==> View() == old(View())
      ensures outcome.Changed? && outcome.change.Updated? ==>
        && Key<EnrollmentId>.Crm(eventId) in index && lead.value in leads
        && leads[lead.value].status == outcome.change.after
    {
      var target := FindRule(cfg.inbound, property, value);
      if target.None? { return Ignored; }
      if lead.None? { return NoContact; }
      outcome := ChangeInTx(lead.value, target.value, eventId, CrmUpdate(lead.value, eventId, property, value, ev));
    }

    method ChangeInTx(lead: Id, target: Status, eventId: string, step: Action) returns (outcome: CrmChangeOutcome)
      requires Valid() && lead in leads && step.CrmUpdate? && step.lead == lead && step.eventId == eventId
      requires step.ev !in issued && FindRule(cfg.inbound, step.property, step.value) == Some(target)
      modifies `leads, `index, `issued, `trace
      ensures Valid() && View() == Next(cfg, old(View()), step)
      ensures outcome == CrmOutcomeOf(old(index), old(leads)[lead], eventId, target)
      ensures !(outcome.Changed? && outcome.change.Updated?) ==> View() == old(View())
      ensures outcome.Changed? && outcome.change.Updated? ==>
        Key<EnrollmentId>.Crm(eventId) in index && lead in leads && leads[lead].status == target
    {
      hide Machine.Next, StepsBuilt, MessagesBuilt;
      var key := Key<EnrollmentId>.Crm(eventId);
      RowsKnowTheirIds(cfg, trace, lead);
      CrmEffect(cfg, View(), lead, eventId, step.property, step.value, step.ev);
      var tx := new LeadRecord(leads[lead]);
      var before := tx.status;
      var change := tx.ChangeStatus(target, key, step.ev);
      if change.Unchanged? || key in index {
        PlainStep(cfg, View(), step);
        TakeNothing(step);
        return if change.Unchanged? then Changed(change) else AlreadyHandled;
      }
      Transact(tx.View(), Some(Keyed(step.ev, key, StatusBody(before, target))), OnCrmChange(target, key, step.ev),
          step);
      return Changed(change);
    }

    /** `pauseEnrollment` */
    method Pause(id: EnrollmentId) returns (outcome: PauseOutcome)
      requires Valid()
      modifies `leads, `index, `issued, `trace
      ensures Valid() && View() == Next(cfg, old(View()), PauseEnrollment(id))
      ensures outcome == match StatusOf(old(leads), id)
                         case None => NotFound
                         case Some(status) => if status.Active? then PauseOutcome.Paused else Conflict(status)
      ensures !outcome.Paused? ==> View() == old(View())
    {
      hide Machine.Next, StepsBuilt, MessagesBuilt;
      if id.lead !in leads {
        PlainStep(cfg, View(), PauseEnrollment(id));
        TakeNothing(PauseEnrollment(id));
        return PauseOutcome.NotFound;
      }
      var tx := new LeadRecord(leads[id.lead]);
      outcome := tx.PauseEnrollment(id.ordinal);
      RowsKnowTheirIds(cfg, trace, id.lead);
      PauseEffect(cfg, View(), id);
      Transact(tx.View(), None, OnPause(id.ordinal), PauseEnrollment(id));
    }

    /** `resumeEnrollment`: resumed exactly when it was paused, and then the job is the one now stored. */
    method Resume(id: EnrollmentId, now: int) returns (outcome: PauseOutcome)
      requires Valid()
      modifies `leads, `index, `issued, `trace
      ensures Valid() && View() == Next(cfg, old(View()), ResumeEnrollment(id, now))
      ensures match StatusOf(old(leads), id)
              case None => outcome.NotFound?
              case Some(status) => if status.Paused? then outcome.Resumed? else outcome == Conflict(status)
      ensures outcome.Resumed? ==>
        && EnrollmentActive(View(), Some(id)) && outcome.job.enrollment == id && outcome.job.runAt >= now
        && IsNext(leads[id.lead], outcome.job)
      ensures !outcome.Resumed? ==> View() == old(View())
    {
      hide Machine.Next, StepsBuilt, MessagesBuilt;
      if id.lead !in leads {
        PlainStep(cfg, View(), ResumeEnrollment(id, now));
        TakeNothing(ResumeEnrollment(id, now));
        return PauseOutcome.NotFound;
      }
      var tx := new LeadRecord(leads[id.lead]);
      outcome := tx.ResumeEnrollment(id.ordinal, now);
      RowsKnowTheirIds(cfg, trace, id.lead);
      ResumeEffect(cfg, View(), id, now);
      Transact(tx.View(), None, OnResume(id.ordinal, now), ResumeEnrollment(id, now));
    }

    /** The admin route: a resumed enrollment's job is queued, and the answer says whether that worked. */
    method ResumeAndQueue(id: EnrollmentId, now: int) returns (outcome: PauseOutcome, queued: bool)
      requires Valid()
      modifies `leads, `index, `issued, `trace, `steps, `calls
      ensures Valid() && View() == Next(cfg, old(View()), ResumeEnrollment(id, now))
      ensures outcome.Resumed? <==> StatusOf(old(leads), id) == Some(EnrollmentStatus.Paused)
      ensures queued <==> outcome.Resumed? && old(calls) > 0
      ensures queued ==> outcome.job in steps && outcome.job.enrollment == id && outcome.job.runAt >= now
    {
      hide Machine.Next;
      outcome := Resume(id, now);
      queued := false;
      if outcome.Resumed? {
        NextNowWasNext(cfg, trace, outcome.job);
        queued := EnqueueStep(outcome.job);
      }
    }

    /** One queue or CRM call. */
    method Call() returns (ok: bool)
      modifies `calls
      ensures ok <==> old(calls) > 0
      ensures calls == if ok then old(calls) - 1 else old(calls)
    {
      ok := calls > 0;
      if ok { calls := calls - 1; }
    }

    method EnqueueMessage(job: MessageJob) returns (ok: bool)
      requires MessagesBuilt() && Deliverable(planned, job)
      modifies `messages, `calls
      ensures MessagesBuilt()
      ensures ok <==> old(calls) > 0
      ensures calls == if ok then old(calls) - 1 else old(calls)
      ensures messages == if (ok || landed) && job.key !in old(messages) then old(messages)[job.key := job]
          else old(messages)
    {
      ok := Call();
      if (ok || landed) && job.key !in messages { messages := messages[job.key := job]; }
    }

    method EnqueueStep(job: StepJob) returns (ok: bool)
      requires Valid() && WasNext(cfg, trace, |trace|, job)
      modifies `steps, `calls
      ensures Valid()
      ensures ok <==> old(calls) > 0
      ensures calls == if ok then old(calls) - 1 else old(calls)
      ensures steps == if ok || landed then old(steps) + {job} else old(steps)
    {
      ok := Call();
      if ok || landed { steps := steps + {job}; }
    }

    method StepTransaction(job: StepJob, at: int) returns (outcome: Option<StepOutcome>)
      requires Valid() && job in steps
      modifies `leads, `index, `issued, `planned, `trace
      ensures Valid() && View() == Next(cfg, old(View()), RunStepJob(job, at))
      ensures
        var id := job.enrollment;
        outcome == if id.lead in old(leads) && id.ordinal < |old(leads)[id.lead].enrollments|
                   then Some(RunStep(old(leads)[id.lead], id.ordinal, job.step, at).1) else None
      ensures outcome.Some? && outcome.value.Queued? ==>
        && outcome.value.message in planned && WasNext(cfg, trace, |trace|, outcome.value.next)
        && (exists step :: step in old(leads)[job.enrollment.lead].enrollments[job.enrollment.ordinal].sequence.steps
                           && step.order == job.step && IsMessageOf(outcome.value.message, job.enrollment, step))
        && job.enrollment.lead in leads && IsNext(leads[job.enrollment.lead], outcome.value.next)
    {
      hide Machine.Next;
      var id := job.enrollment;
      if id.lead !in leads || id.ordinal >= |leads[id.lead].enrollments| {
        NoEnrollmentTakesNothing(cfg, View(), job, at);
        TakeNothing(RunStepJob(job, at));
        return None;
      }
      var row := leads[id.lead];
      RowsKnowTheirIds(cfg, trace, id.lead);
      RowsAreOnSchedule(cfg, trace, id.lead);
      StepTakes(cfg, View(), job, at);
      StepJobIsNext(row, id.ordinal, job.step, at);
      var tx := new LeadRecord(row);
      var result := tx.RunFollowUpStep(id.ordinal, job.step, at);
      StoreStep(tx.View(), QueuedBy(View(), job, at));
      Took(old(View()), RunStepJob(job, at));
      if result.Queued? { NextNowWasNext(cfg, trace, result.next); }
      return Some(result);
    }

    /** Saves the row of a step job and notes the message it sets out to queue. */
    method StoreStep(row: Row, ghost queued: set<MessageJob>)
      requires MessagesBuilt()
      modifies `leads, `index, `issued, `planned
      ensures View() == Stored(old(View()), row, None).(planned := old(planned) + queued)
      ensures MessagesBuilt()
    {
      var _ := Commit(row, None);
      planned := planned + queued;
    }

    /**
     `runFollowUpStep` for a queued job: the transaction, then the step's message and the next step.
     `None` is an enrollment that is gone. Whether the queue calls succeed changes nothing in the
     database.
     */
    method RunFollowUpStep(job: StepJob, at: int) returns (outcome: Option<StepOutcome>, queued: bool)
      requires Valid() && job in steps
      modifies `leads, `index, `issued, `planned, `trace, `messages, `steps, `calls
      ensures Valid() && View() == Next(cfg, old(View()), RunStepJob(job, at))
      ensures
        var id := job.enrollment;
        outcome == if id.lead in old(leads) && id.ordinal < |old(leads)[id.lead].enrollments|
                   then Some(RunStep(old(leads)[id.lead], id.ordinal, job.step, at).1) else None
      ensures queued <==> outcome.Some? && outcome.value.Queued? && old(calls) >= 2
      ensures outcome.Some? && outcome.value.Queued? ==>
        && (exists step :: step in old(leads)[job.enrollment.lead].enrollments[job.enrollment.ordinal].sequence.steps
                           && step.order == job.step && IsMessageOf(outcome.value.message, job.enrollment, step))
        && job.enrollment.lead in leads && IsNext(leads[job.enrollment.lead], outcome.value.next)
        && messages == (if (old(calls) > 0 || landed) && outcome.value.message.key !in old(messages)
                        then old(messages)[outcome.value.message.key := outcome.value.message] else old(messages))
      ensures queued ==> outcome.value.message.key in messages && outcome.value.next in steps
      ensures outcome.None? || !outcome.value.Queued? ==> messages == old(messages) && steps == old(steps)
    {
      hide Machine.Next;
      outcome := StepTransaction(job, at);
      queued := false;
      if outcome.Some? && outcome.value.Queued? {
        StepMessageIsFollowUp(old(leads)[job.enrollment.lead], job.enrollment.ordinal, job.step, at);
        queued := EnqueueMessage(outcome.value.message);
        if queued { queued := EnqueueStep(outcome.value.next); }
      }
    }

    // ----- Capture and scoring -----

    method EnqueueHandoff(job: Handoff) returns (ok: bool)
      requires Valid() && job in pending
      modifies `enqueued, `calls, `trace
      ensures Valid() && View() == old(View()).(enqueued := enqueued)
      ensures enqueued == if ok || landed then old(enqueued) + {job} else old(enqueued)
      ensures ok <==> old(calls) > 0
    {
      hide Machine.Next;
      ok := Call();
      if ok || landed {
        EnqueueTakes(cfg, View(), job);
        enqueued := enqueued + {job};
        Took(old(View()), Enqueue(job));
      }
    }

    /** The transaction of `captureLead`, or the lookup that finds it was done before. */
    method SubmitTransaction(source: string, externalId: string, input: Profile, found: Option<Id>, lead: Id, ev: Id,
        now: int)
      returns (result: CaptureResult)
      requires Valid() && ev !in issued && lead !in issued && lead != ev && IsMatch(View(), input.contact, found)
      modifies `leads, `index, `issued, `pending, `history, `trace
      ensures Valid() && View() == Next(cfg, old(View()), Submit(source, externalId, input, found, lead, ev, now))
      ensures QualifyJob(result.lead, result.event) in pending
      ensures result.duplicate <==> Key<EnrollmentId>.Captured(source, externalId) in old(index)
      ensures Recorded(index, Captured(source, externalId), result.lead, result.event)
      ensures result.duplicate ==> leads == old(leads) && index == old(index)
      ensures !result.duplicate ==> result.lead == found.GetOr(lead)
    {
      hide Machine.Next;
      var key := Key<EnrollmentId>.Captured(source, externalId);
      ghost var step := Submit(source, externalId, input, found, lead, ev, now);
      EntriesAreKeyed(cfg, trace, key);
      if key in index {
        var job := QualifyJob(index[key].lead, index[key].event.id);
        ReplayedSubmitTakes(cfg, View(), step);
        pending := pending + {job};
        Took(old(View()), step);
        return CaptureResult(job.lead, job.event, true);
      }
      var suppress := exists h :: h in Hashes(cfg, input.contact) && h in suppressed;
      if found.Some? {
        result := MergeInto(found.value, input, key, ev, suppress, step);
      } else {
        result := CreateLead(lead, source, input, now, key, ev, suppress, step);
      }
    }

    /** The submission fills the blanks of the lead it matched. */
    method MergeInto(lead: Id, input: Profile, key: DedupeKey, ev: Id, suppress: bool, ghost step: Action)
      returns (result: CaptureResult)
      requires Valid() && step.Submit? && step.found == Some(lead) && step.input == input && step.ev == ev
      requires ev !in issued && IsMatch(View(), input.contact, Some(lead))
      requires key == Captured(step.source, step.externalId) && key !in index
      requires suppress == IsSuppressed(cfg, View(), input.contact)
      modifies `leads, `index, `issued, `pending, `history, `trace
      ensures Valid() && View() == Next(cfg, old(View()), step)
      ensures result == CaptureResult(lead, ev, false)
      ensures QualifyJob(lead, ev) in pending && Recorded(index, key, lead, ev)
    {
      hide Machine.Next, Machine.Run, StepsBuilt, MessagesBuilt, IsSuppressed;
      RowsKnowTheirIds(cfg, trace, lead);
      MergeTakes(cfg, View(), step);
      var tx := new LeadRecord(leads[lead]);
      tx.MergeSubmission(input, key, ev, suppress);
      var _ := Commit(tx.View(), Some(Keyed(ev, key, CapturedBody(true))));
      pending := pending + {QualifyJob(lead, ev)};
      history := history.(captures := history.captures[ev := lead]);
      Took(old(View()), step);
      return CaptureResult(lead, ev, false);
    }

    method CreateLead(lead: Id, source: string, input: Profile, now: int, key: DedupeKey, ev: Id, suppress: bool,
                      ghost step: Action)
      returns (result: CaptureResult)
      requires Valid() && step.Submit? && step.source == source && step.input == input && step.now == now
      requires step.found.None? && step.lead == lead && step.ev == ev
      requires ev !in issued && lead !in issued && lead != ev && IsMatch(View(), input.contact, None)
      requires key == Captured(source, step.externalId) && key !in index
      requires suppress == IsSuppressed(cfg, View(), input.contact)
      modifies `leads, `index, `issued, `pending, `history, `trace
      ensures Valid() && View() == Next(cfg, old(View()), step)
      ensures result == CaptureResult(lead, ev, false)
      ensures QualifyJob(lead, ev) in pending && Recorded(index, key, lead, ev)
    {
      var row := LeadRecord.Fill(lead, source, input, now, key, ev, suppress);
      CreateTakes(cfg, View(), step);
      StoreCreated(row, Keyed(ev, key, CapturedBody(false)));
      Took(old(View()), step);
      return CaptureResult(lead, ev, false);
    }

    method StoreCreated(row: Row, entry: Event)
      requires entry.Keyed? && entry.key !in index
      modifies `leads, `index, `issued, `pending, `history
      ensures View() == Stored(old(View()), row, Some(entry)).(
        issued := old(issued) + {row.id, entry.id},
        pending := old(pending) + {QualifyJob(row.id, entry.id)},
        history := old(history).(captures := old(history).captures[entry.id := row.id]))
    {
      var _ := Commit(row, Some(entry));
      issued := issued + {row.id};
      assert issued == old(issued) + {row.id, entry.id};
      pending := pending + {QualifyJob(row.id, entry.id)};
      history := history.(captures := history.captures[entry.id := row.id]);
    }

    /** `findMatch` */
    method FindMatch(input: Contact) returns (found: Option<Id>)
      ensures OldestWithAddress(leads, input, found)
    {
      found := None;
      var rows := RowsOf(leads.Keys);
      var n := 0;
      while n < |rows|
        invariant 0 <= n <= |rows|
        invariant found.Some? ==> found.value in leads && SharesAddress(leads[found.value], input)
        invariant forall i :: 0 <= i < n && SharesAddress(leads[rows[i]], input) ==>
          found.Some? && leads[rows[i]].createdAt >= leads[found.value].createdAt
      {
        var lead := leads[rows[n]];
        var byEmail := input.email.Some? && input.email.value != "" && lead.profile.contact.email == input.email;
        var byPhone := input.phone.Some? && input.phone.value != "" && lead.profile.contact.phone == input.phone;
        if (byEmail || byPhone) && (found.None? || lead.createdAt < leads[found.value].createdAt) {
          found := Some(rows[n]);
        }
        n := n + 1;
      }
      forall l | l in leads && SharesAddress(leads[l], input)
        ensures found.Some? && leads[l].createdAt >= leads[found.value].createdAt
      {
        assert l in rows;
      }
    }

    /**
     `captureLead`: the submission belongs to the oldest lead with one of its addresses. `None` is a
     failed queue call; a normal return has enqueued the one job of the capture.
     */
    method CaptureLead(source: string, externalId: string, input: Profile, lead: Id, ev: Id, now: int)
      returns (result: Option<CaptureResult>, found: Option<Id>)
      requires Valid() && ev !in issued && lead !in issued && lead != ev
      modifies `leads, `index, `issued, `pending, `enqueued, `calls, `history, `trace
      ensures Valid()
      ensures OldestWithAddress(old(leads), input.contact, found)
      ensures View() ==
          Next(cfg, old(View()), Submit(source, externalId, input, found, lead, ev, now)).(enqueued := enqueued)
      ensures result.Some? <==> old(calls) > 0
      ensures result.Some? && !result.value.duplicate ==> result.value.lead == found.GetOr(lead)
      ensures result.Some? ==>
        && Recorded(index, Captured(source, externalId), result.value.lead, result.value.event)
        && QualifyJob(result.value.lead, result.value.event) in enqueued
        && (result.value.duplicate <==> Key<EnrollmentId>.Captured(source, externalId) in old(index))
    {
      hide Machine.Next;
      found := FindMatch(input.contact);
      MatchIsExact(View(), input.contact, found);
      var captured := SubmitTransaction(source, externalId, input, found, lead, ev, now);
      var ok := EnqueueHandoff(QualifyJob(captured.lead, captured.event));
      result := if ok then Some(captured) else None;
    }

    /** The transaction of `qualifyLead`, or the lookup that finds it was done before; `None` is a deleted lead. */
    method ScoreTransaction(job: Handoff, score: int, tier: Tier, ev: Id) returns (result: Option<QualifyResult>)
      requires Valid() && ev !in issued && job in enqueued && job.QualifyJob?
      modifies `leads, `index, `issued, `pending, `history, `trace
      ensures Valid() && View() == Next(cfg, old(View()), Qualify(job, score, tier, ev))
      ensures result.None? ==> Key<EnrollmentId>.Scored(job.event) !in index && View() == old(View())
      ensures result.Some? ==>
        && ScoreStored(index, job.event, result.value)
        && (!result.value.tier.Unfit? ==> PlanOf(result.value) in pending)
        && (result.value.duplicate <==> Key<EnrollmentId>.Scored(job.event) in old(index))
    {
      hide Machine.Next, StepsBuilt, MessagesBuilt;
      var key := Key<EnrollmentId>.Scored(job.event);
      ghost var step := Qualify(job, score, tier, ev);
      EntriesAreKeyed(cfg, trace, key);
      if key in index {
        var body := index[key].event.body;
        result := Some(QualifyResult(index[key].lead, index[key].event.id, body.score, body.tier, true));
        ReplayedScoreTakes(cfg, View(), step);
        if !body.tier.Unfit? { pending := pending + {PlanOf(result.value)}; }
        Took(old(View()), step);
        return;
      }
      if job.lead !in leads {
        ScoreTakes(cfg, View(), step);
        TakeNothing(step);
        return None;
      }
      var scored := RecordScore(job, score, tier, ev);
      return Some(scored);
    }

    /** The first scoring of a capture stores the score and hands it off, unless it disqualifies the lead. */
    method RecordScore(job: Handoff, score: int, tier: Tier, ev: Id) returns (result: QualifyResult)
      requires Valid() && ev !in issued && job in enqueued && job.QualifyJob? && job.lead in leads
      requires Key<EnrollmentId>.Scored(job.event) !in index
      modifies `leads, `index, `issued, `pending, `history, `trace
      ensures Valid() && View() == Next(cfg, old(View()), Qualify(job, score, tier, ev))
      ensures result == QualifyResult(job.lead, ev, score, tier, false) && ScoreStored(index, job.event, result)
      ensures !tier.Unfit? ==> PlanOf(result) in pending
    {
      hide Machine.Next, Machine.Run, StepsBuilt, MessagesBuilt, Store.SequencesSorted;
      var key := Key<EnrollmentId>.Scored(job.event);
      ScoreTakes(cfg, View(), Qualify(job, score, tier, ev));
      RowsKnowTheirIds(cfg, trace, job.lead);
      var tx := new LeadRecord(leads[job.lead]);
      tx.RecordScore(score, tier, key, ev);
      var _ := Commit(tx.View(), Some(Keyed(ev, key, ScoredBody(score, tier))));
      result := QualifyResult(job.lead, ev, score, tier, false);
      if !tier.Unfit? { pending := pending + {PlanOf(result)}; }
      history := history.(scores := history.scores[ev := ScoreFact(job.lead, job.event, score, tier)]);
      Took(old(View()), Qualify(job, score, tier, ev));
    }

    /** `qualifyLead`; `returned` is false when the queue call failed. */
    method QualifyLead(job: Handoff, score: int, tier: Tier, ev: Id)
        returns (result: Option<QualifyResult>, returned: bool)
      requires Valid() && ev !in issued && job in enqueued && job.QualifyJob?
      modifies `leads, `index, `issued, `pending, `enqueued, `calls, `history, `trace
      ensures Valid()
      ensures View() == Next(cfg, old(View()), Qualify(job, score, tier, ev)).(enqueued := enqueued)
      ensures returned <==> result.None? || result.value.tier.Unfit? || old(calls) > 0
      ensures returned && result.Some? ==>
        && ScoreStored(index, job.event, result.value)
        && (!result.value.tier.Unfit? ==> PlanOf(result.value) in enqueued)
        && (result.value.duplicate <==> Key<EnrollmentId>.Scored(job.event) in old(index))
    {
      hide Machine.Next;
      result := ScoreTransaction(job, score, tier, ev);
      returned := true;
      if result.Some? && !result.value.tier.Unfit? {
        returned := EnqueueHandoff(PlanOf(result.value));
      }
    }

    // ----- Sending a message -----

    /** The reads of `sendMessage`; when they allow it, the attempt goes on with what they saw. */
    method CheckMessage(attempt: Id, job: MessageJob) returns (check: CheckOutcome)
      requires Valid() && attempt !in issued && Deliverable(planned, job)
      modifies `attempts, `issued, `trace
      ensures Valid() && View() == Next(cfg, old(View()), CheckSend(attempt, job))
      ensures check == CheckOf(old(View()), job)
      ensures check.Duplicate? <==> job.key in old(index)
      ensures check.Proceed? <==> MaySend(old(leads), old(index), job)
      ensures check.Proceed? ==>
        check.tier == old(leads)[job.lead].tier && check.to == Recipient(old(leads), job)
      ensures check.Proceed? ==>
        attempts == old(attempts)[attempt := Attempt(job, check.tier, check.to, false)] &&
            issued == old(issued) + {attempt}
      ensures !check.Proceed? ==> View() == old(View())
    {
      hide Machine.Next;
      CheckIsExact(View(), job);
      CheckTakes(cfg, View(), attempt, job);
      check := ReadForSend(job);
      if !check.Proceed? {
        TakeNothing(CheckSend(attempt, job));
        return;
      }
      attempts := attempts[attempt := Attempt(job, check.tier, check.to, false)];
      issued := issued + {attempt};
      Took(old(View()), CheckSend(attempt, job));
    }

    method ReadForSend(job: MessageJob) returns (check: CheckOutcome)
      ensures check == CheckOf(View(), job)
    {
      if job.key in index { return CheckOutcome.Duplicate; }
      if job.lead !in leads { return CheckOutcome.Skipped; }
      var lead := leads[job.lead];
      var to := job.to;
      if !job.kind.RepAlertMessage? {
        var reason := IneligibleReason(lead, job.channel);
        if reason.Some? { return CheckOutcome.Skipped; }
        to := ChannelAddress(lead.profile, job.channel);
      }
      if job.kind.FollowUpMessage? {
        var id := job.enrollment;
        if id.None? || id.value.lead !in leads || id.value.ordinal >= |leads[id.value.lead].enrollments|
           || !leads[id.value.lead].enrollments[id.value.ordinal].status.Active? {
          return CheckOutcome.Skipped;
        }
      }
      return Proceed(lead.tier, to);
    }

    /** The provider call. A refusal is recorded once it is permanent or the last try, then rethrown. */
    method CallProvider(attempt: Id, accepts: bool, permanent: bool, finalTry: bool, ev: Id)
      returns (accepted: bool, hopeless: bool)
      requires Valid() && attempt in attempts && !attempts[attempt].accepted && ev !in issued
      modifies `attempts, `leads, `index, `issued, `history, `trace
      ensures Valid()
      ensures View() == Next(cfg, old(View()), Action.CallProvider(attempt, accepts, permanent, finalTry, ev))
      ensures accepted <==> accepts && Given(old(attempts)[attempt].to)
      ensures accepted ==>
        && View() == old(View()).(attempts := old(attempts)[attempt := old(attempts)[attempt].(accepted := true)],
            history := history)
        && history == old(history).(accepted := old(history.accepted) + multiset{old(attempts)[attempt].job.key})
      ensures !accepted ==> attempts == old(attempts) - {attempt} && history == old(history)
      ensures !accepted ==>
        (leads, index) == Refused(old(leads), old(index), old(attempts)[attempt].job, hopeless, finalTry, ev)
      ensures hopeless <==> permanent || !Given(old(attempts)[attempt].to)
    {
      hide Machine.Next;
      ghost var step := Action.CallProvider(attempt, accepts, permanent, finalTry, ev);
      var t := attempts[attempt];
      hopeless := permanent || !Given(t.to);
      accepted := accepts && Given(t.to);
      if accepted {
        AcceptTakes(cfg, View(), step);
        attempts := attempts[attempt := t.(accepted := true)];
        history := history.(accepted := history.accepted + multiset{t.job.key});
      } else {
        RefuseTakes(cfg, View(), step);
        attempts := attempts - {attempt};
        if hopeless || finalTry { RecordFailure(t.job, hopeless, ev); }
      }
      Took(old(View()), step);
    }

    /** `message_failed`, unless the message failed for good before or its lead is gone. */
    method RecordFailure(job: MessageJob, permanent: bool, ev: Id)
      modifies `leads, `index, `issued
      ensures
        var entry := Keyed(ev, Failed(job.key), MessageFailedBody(job.kind, permanent));
        if job.lead in old(leads) && Failed(job.key) !in old(index) then
          && leads == old(leads)[job.lead := Append(old(leads)[job.lead], entry)]
          && index == old(index)[Failed(job.key) := Entry(job.lead, entry)] && issued == old(issued) + {ev}
        else leads == old(leads) && index == old(index) && issued == old(issued)
    {
      var key := Failed(job.key);
      if key in index || job.lead !in leads { return; }
      var entry := Keyed(ev, key, MessageFailedBody(job.kind, permanent));
      index := index[key := Entry(job.lead, entry)];
      leads := leads[job.lead := Append(leads[job.lead], entry)];
      issued := issued + {ev};
    }

    /** The transaction after the call; `sent` is false when it lost to another run of the same message. */
    method CommitMessage(attempt: Id, ev: Id, now: int) returns (sent: bool, enrolled: Option<StepJob>)
      requires Valid() && attempt in attempts && attempts[attempt].accepted && ev !in issued
      modifies `attempts, `leads, `index, `issued, `history, `trace
      ensures Valid() && View() == Next(cfg, old(View()), CommitSend(attempt, ev, now))
      ensures attempts == old(attempts) - {attempt}
      ensures
        var t := old(attempts)[attempt];
        sent <==> t.job.lead in old(leads) && t.job.key !in old(index)
      ensures
        var t := old(attempts)[attempt];
        if sent then
          && history == old(history) && t.job.key in index
          && index == old(index)[t.job.key :=
               Entry(t.job.lead, Keyed(ev, t.job.key, MessageSentBody(t.job.kind, t.job.channel, t.to)))]
          && enrolled == RecordSent(old(leads)[t.job.lead], t.job, t.to, ev, SequenceOf(cfg, t.tier), now).1
          && (enrolled.Some? ==> WasNext(cfg, trace, |trace|, enrolled.value))
          && leads.Keys == old(leads).Keys && leads - {t.job.lead} == old(leads) - {t.job.lead}
          && AfterSend(old(leads)[t.job.lead], leads[t.job.lead], t.job, SequenceOf(cfg, t.tier), now, enrolled)
          && (enrolled.Some? <==> StartsSequence(old(leads)[t.job.lead], t.job, SequenceOf(cfg, t.tier)))
        else
          && leads == old(leads) && index == old(index) && enrolled.None?
          && history == old(history).(lost := old(history.lost) + multiset{t.job.key})
    {
      hide Machine.Next, RecordSent, AfterSend, StartsSequence, StepsBuilt, MessagesBuilt;
      ghost var step := CommitSend(attempt, ev, now);
      var t := attempts[attempt];
      RowsKnowTheirIds(cfg, trace, t.job.lead);
      RecordTakes(cfg, View(), step);
      attempts := attempts - {attempt};
      sent, enrolled := RecordInTx(t, ev, now);
      if !sent { history := history.(lost := history.lost + multiset{t.job.key}); }
      Took(old(View()), step);
      if sent && enrolled.Some? {
        EnrollingJobIsNext(old(leads)[t.job.lead], t.job, t.to, ev, SequenceOf(cfg, t.tier), now);
        NextNowWasNext(cfg, trace, enrolled.value);
      }
    }

    /** The commit itself: the lead moves on and the send is recorded, or neither. */
    method RecordInTx(t: Attempt, ev: Id, now: int) returns (sent: bool, enrolled: Option<StepJob>)
      requires t.job.lead in leads ==> leads[t.job.lead].id == t.job.lead
      modifies `leads, `index, `issued
      ensures sent <==> t.job.lead in old(leads) && t.job.key !in old(index)
      ensures !sent ==> View() == old(View()) && enrolled.None?
      ensures sent ==>
        var row := old(leads)[t.job.lead];
        var sequence := SequenceOf(cfg, t.tier);
        && View() == Stored(old(View()), RecordSent(row, t.job, t.to, ev, sequence, now).0,
                            Some(Keyed(ev, t.job.key, MessageSentBody(t.job.kind, t.job.channel, t.to))))
        && t.job.lead in leads && leads[t.job.lead] == RecordSent(row, t.job, t.to, ev, sequence, now).0
        && enrolled == RecordSent(row, t.job, t.to, ev, sequence, now).1
        && AfterSend(row, leads[t.job.lead], t.job, sequence, now, enrolled)
        && (enrolled.Some? <==> StartsSequence(row, t.job, sequence))
    {
      hide AfterSend, StartsSequence;
      if t.job.lead !in leads { return false, None; }
      var tx := new LeadRecord(leads[t.job.lead]);
      SendIsExact(leads[t.job.lead], t.job, t.to, ev, SequenceOf(cfg, t.tier), now);
      enrolled := tx.RecordSend(t.job, t.to, ev, SequenceOf(cfg, t.tier), now);
      sent := Commit(tx.View(), Some(Keyed(ev, t.job.key, MessageSentBody(t.job.kind, t.job.channel, t.to))));
      if !sent { enrolled := None; }
    }

    /** The process dies after its reads or its call; what the provider accepted stays unrecorded. */
    method DieInFlight(attempt: Id)
      requires Valid() && attempt in attempts
      modifies `attempts, `history, `trace
      ensures Valid() && View() == Next(cfg, old(View()), Die(attempt))
      ensures attempts == old(attempts) - {attempt}
      ensures
        var t := old(attempts)[attempt];
        history == if t.accepted then old(history).(lost := old(history.lost) + multiset{t.job.key}) else old(history)
    {
      hide Machine.Next;
      DieTakes(cfg, View(), attempt);
      if attempts[attempt].accepted {
        history := history.(lost := history.lost + multiset{attempts[attempt].job.key});
      }
      attempts := attempts - {attempt};
      Took(old(View()), Die(attempt));
    }

    /**
     `sendMessage`, alone with the database: read, call, commit, enqueue. The outcome is exactly what
     the reads, the provider and the queue decide; it sends at most once, and what it sent is recorded.
     */
    method SendMessage(job: MessageJob, attempt: Id, accepts: bool, permanent: bool, finalTry: bool,
                       failEv: Id, ev: Id, now: int)
      returns (outcome: SendOutcome)
      requires Valid() && Deliverable(planned, job)
      requires attempt !in issued && failEv !in issued && ev !in issued && attempt != ev && attempt != failEv
      requires attempt !in attempts
      modifies `attempts, `leads, `index, `issued, `history, `trace, `steps, `calls
      ensures Valid() && attempts == old(attempts) && history.lost == old(history.lost)
      ensures outcome == OutcomeOf(cfg, old(View()), job, accepts, permanent, ev, now, old(calls))
      ensures outcome.AlreadySent? <==> job.key in old(index)
      ensures outcome.NothingSent? <==> job.key !in old(index) && !MaySend(old(leads), old(index), job)
      ensures outcome.AlreadySent? || outcome.NothingSent? ==> View() == old(View())
      ensures
        if MaySend(old(leads), old(index), job) && accepts && Given(Recipient(old(leads), job)) then
          var sequence := SequenceOf(cfg, old(leads)[job.lead].tier);
          && outcome == (if StartsSequence(old(leads)[job.lead], job, sequence) && old(calls) == 0 then Failure(false)
                         else Sent(ev, outcome.enrolled))
          && job.lead in leads
          && (outcome.Sent? ==>
                AfterSend(old(leads)[job.lead], leads[job.lead], job, sequence, now, outcome.enrolled))
          && history.accepted == old(history.accepted) + multiset{job.key}
          && job.key !in old(index) && Recorded(index, job.key, job.lead, ev)
          && index - {job.key} == old(index) - {job.key}
        else
          && history.accepted == old(history.accepted)
          && (MaySend(old(leads), old(index), job) ==>
                var hopeless := permanent || !Given(Recipient(old(leads), job));
                && outcome == Failure(hopeless)
                && (leads, index) == Refused(old(leads), old(index), job, hopeless, finalTry, failEv))
      ensures outcome.Sent? && outcome.enrolled.Some? ==> outcome.enrolled.value in steps
    {
      hide Machine.Next;
      CheckIsExact(View(), job);
      var check := CheckMessage(attempt, job);
      if check.Duplicate? { return AlreadySent; }
      if check.Skipped? { return NothingSent; }
      assert attempts - {attempt} == old(attempts);
      outcome := CallAndCommit(attempt, accepts, permanent, finalTry, failEv, ev, now);
    }

    /** The rest of `sendMessage` after its reads. */
    method CallAndCommit(attempt: Id, accepts: bool, permanent: bool, finalTry: bool, failEv: Id, ev: Id, now: int)
      returns (outcome: SendOutcome)
      requires Valid() && attempt in attempts && !attempts[attempt].accepted
      requires attempts[attempt].job.key !in index && attempts[attempt].job.lead in leads
      requires failEv !in issued && ev !in issued
      modifies `attempts, `leads, `index, `issued, `history, `trace, `steps, `calls
      ensures Valid() && attempts == old(attempts) - {attempt} && history.lost == old(history.lost)
      ensures
        var t := old(attempts)[attempt];
        outcome == AfterRead(cfg, old(leads)[t.job.lead], t, accepts, permanent, ev, now, old(calls))
      ensures
        var t := old(attempts)[attempt];
        if accepts && Given(t.to) then
          && t.job.lead in leads
          && (outcome.Sent? ==>
                AfterSend(old(leads)[t.job.lead], leads[t.job.lead], t.job, SequenceOf(cfg, t.tier), now,
                          outcome.enrolled))
          && outcome == (if StartsSequence(old(leads)[t.job.lead], t.job, SequenceOf(cfg, t.tier)) && old(calls) == 0
                         then Failure(false) else Sent(ev, outcome.enrolled))
          && history.accepted == old(history.accepted) + multiset{t.job.key}
          && Recorded(index, t.job.key, t.job.lead, ev) && index - {t.job.key} == old(index) - {t.job.key}
        else
          && history.accepted == old(history.accepted) && outcome == Failure(permanent || !Given(t.to))
          && (leads, index) == Refused(old(leads), old(index), t.job, permanent || !Given(t.to), finalTry, failEv)
      ensures outcome.Sent? && outcome.enrolled.Some? ==> outcome.enrolled.value in steps
    {
      hide Machine.Next, Valid, Refused, WasNext, RecordSent, AfterSend, StartsSequence;
      ghost var before := attempts[attempt];
      SendIsExact(leads[before.job.lead], before.job, before.to, ev, SequenceOf(cfg, before.tier), now);
      var accepted, hopeless := CallProvider(attempt, accepts, permanent, finalTry, failEv);
      if !accepted { return Failure(hopeless); }
      ghost var called := attempts;
      assert called - {attempt} == old(attempts) - {attempt};
      var sent, enrolled := CommitMessage(attempt, ev, now);
      if enrolled.Some? {
        var queued := EnqueueStep(enrolled.value);
        if !queued { return Failure(false); }
      }
      return Sent(ev, enrolled);
    }

    /** `runSendMessageJob`: a permanent failure, like the last try, gets no other; nothing else ends the tries. */
    method RunSendMessageJob(job: MessageJob, attemptsMade: nat, tries: nat, attempt: Id, accepts: bool,
                             permanent: bool, failEv: Id, ev: Id, now: int)
      returns (fate: MessageFate)
      requires Valid() && Deliverable(planned, job)
      requires attempt !in issued && failEv !in issued && ev !in issued && attempt != ev && attempt != failEv
      requires attempt !in attempts
      modifies `attempts, `leads, `index, `issued, `history, `trace, `steps, `calls
      ensures Valid() && attempts == old(attempts)
      ensures
        var outcome := OutcomeOf(cfg, old(View()), job, accepts, permanent, ev, now, old(calls));
        && (fate.Finished? <==> !outcome.Failure?) && (fate.Finished? ==> fate.outcome == outcome)
        && (fate.GivenUp? <==> outcome.Failure? && (outcome.permanent || attemptsMade + 1 >= tries))
        && (fate.Retried? <==> outcome.Failure? && !outcome.permanent && attemptsMade + 1 < tries)
      ensures fate.Finished? ==>
        && (fate.outcome.AlreadySent? <==> job.key in old(index))
        && (fate.outcome.NothingSent? <==> job.key !in old(index) && !MaySend(old(leads), old(index), job))
      ensures
        history.accepted == old(history.accepted) +
          if MaySend(old(leads), old(index), job) && accepts && Given(Recipient(old(leads), job)) then multiset{job.key}
          else multiset{}
      // What was given up without being sent is on record as failed; a retry leaves no such record.
      ensures fate.GivenUp? && history.accepted == old(history.accepted) ==> Failed(job.key) in index
      ensures fate.Retried? ==> (Failed(job.key) in index <==> Failed(job.key) in old(index))
      ensures Failed(job.key) in old(index) ==>
        Failed(job.key) in index && index[Failed(job.key)] == old(index)[Failed(job.key)]
    {
      hide Machine.Next;
      var finalTry := attemptsMade + 1 >= tries;
      var outcome := SendMessage(job, attempt, accepts, permanent, finalTry, failEv, ev, now);
      assert Failed(job.key) in index - {job.key} <==> Failed(job.key) in index;
      assert Failed(job.key) in old(index) - {job.key} <==> Failed(job.key) in old(index);
      if !outcome.Failure? { return Finished(outcome); }
      return if outcome.permanent || finalTry then GivenUp else Retried;
    }

    // ----- First contact -----

    /**
     `planFirstContact`: queues one job per message the plan wants, up to the first queue call that
     fails. `None` is a deleted lead; `returned` is false when a call failed.
     */
    method PlanFirstContact(job: Handoff) returns (scheduled: Option<seq<MessageJob>>, returned: bool)
      requires Valid() && job in enqueued && job.PlanJob?
      modifies `messages, `calls, `planned, `trace
      ensures Valid() && View() == Next(cfg, old(View()), PlanContacts(job))
      ensures scheduled.None? <==> job.lead !in leads
      ensures scheduled.None? ==> returned
      ensures scheduled.Some? ==>
        var wanted := Plan(index.Keys, leads[job.lead], cfg.plan);
        && scheduled.value == wanted[..if old(calls) < |wanted| then old(calls) else |wanted|]
        && (returned <==> old(calls) >= |wanted|)
        && forall m :: m in scheduled.value ==> m.key in messages
      // What is queued are due first contacts and alerts, and all of them when nothing failed.
      ensures scheduled.Some? ==>
        && (forall m :: m in scheduled.value ==> InPlan(index.Keys, leads[job.lead], cfg.plan, m))
        && (returned ==> forall m :: InPlan(index.Keys, leads[job.lead], cfg.plan, m) ==> m in scheduled.value)
      ensures forall k :: k in messages && k !in old(messages) ==>
        job.lead in leads && InPlan(index.Keys, leads[job.lead], cfg.plan, messages[k])
      ensures forall k :: k in old(messages) ==> k in messages && messages[k] == old(messages)[k]
    {
      hide Machine.Next;
      PlanTakes(cfg, View(), job);
      if job.lead !in leads {
        TakeNothing(PlanContacts(job));
        return None, true;
      }
      RowsKnowTheirIds(cfg, trace, job.lead);
      planned := planned + PlannedFor(cfg, View(), job.lead);
      Took(old(View()), PlanContacts(job));
      forall m ensures m in Plan(index.Keys, leads[job.lead], cfg.plan) <==>
          InPlan(index.Keys, leads[job.lead], cfg.plan, m)
      {
        PlanIsExact(index.Keys, leads[job.lead], cfg.plan, m);
      }
      hide Plan, InPlan;
      var jobs, ok := QueuePlanned(leads[job.lead]);
      return Some(jobs), ok;
    }

    /** The messages of the lead's tier, then its alert. */
    method QueuePlanned(row: Row) returns (jobs: seq<MessageJob>, ok: bool)
      requires MessagesBuilt() && forall m :: m in Plan(index.Keys, row, cfg.plan) ==> m in planned
      modifies `messages, `calls
      ensures MessagesBuilt()
      ensures
        var wanted := Plan(index.Keys, row, cfg.plan);
        && jobs == wanted[..if old(calls) < |wanted| then old(calls) else |wanted|]
        && (ok <==> old(calls) >= |wanted|) && Grows(old(messages), messages, wanted)
      ensures Queued(jobs)
    {
      if !Contactable(row.status) || row.tier.None? || row.tier.value.Unfit? { return [], true; }
      var plan := cfg.plan.tiers(row.tier.value);
      jobs, ok := QueueMessages(row, plan.messages);
      if ok && plan.alertTemplate.Some? && Given(cfg.plan.alertTo) && Key<EnrollmentId>.RepAlert(row.id) !in index {
        var job := AlertJob(row.id, plan.alertTemplate.value, cfg.plan.alertTo);
        ok := EnqueueMessage(job);
        if ok { jobs := jobs + [job]; }
      }
    }

    predicate Queued(jobs: seq<MessageJob>)
      reads `messages
    {
      forall m :: m in jobs ==> m.key in messages
    }

    /** One message of the plan: enqueued when its address and provider are there and it was not sent before. */
    method QueueMessage(row: Row, m: Planned) returns (ok: bool, queued: seq<MessageJob>)
      requires MessagesBuilt()
      requires Wanted(index.Keys, row, m, cfg.plan.providers) ==> FirstContactJob(row.id, m) in planned
      modifies `messages, `calls
      ensures MessagesBuilt()
      ensures
        var wanted := Wanted(index.Keys, row, m, cfg.plan.providers);
        && queued == (if ok && wanted then [FirstContactJob(row.id, m)] else [])
        && (ok <==> wanted ==> old(calls) > 0) && calls == old(calls) - |queued|
        && (messages == old(messages) || (wanted && Adds(old(messages), messages, FirstContactJob(row.id, m))))
      ensures Queued(queued)
    {
      ok, queued := true, [];
      var key := Key<EnrollmentId>.FirstContact(row.id, m.channel);
      var reason := IneligibleReason(row, m.channel);
      if reason.None? && m.channel in cfg.plan.providers && key !in index {
        var job := FirstContactJob(row.id, m);
        ok := EnqueueMessage(job);
        if ok { queued := [job]; }
      }
    }

    /** The planner's loop. */
    method QueueMessages(row: Row, plans: seq<Planned>) returns (jobs: seq<MessageJob>, ok: bool)
      requires MessagesBuilt()
      requires forall m :: m in PlanMessages(index.Keys, row, plans, cfg.plan.providers) ==> m in planned
      modifies `messages, `calls
      ensures MessagesBuilt()
      ensures
        var wanted := PlanMessages(index.Keys, row, plans, cfg.plan.providers);
        && jobs <= wanted && |jobs| == Min(old(calls), |wanted|)
        && (ok <==> old(calls) >= |wanted|) && Grows(old(messages), messages, wanted)
      ensures ok ==> calls == old(calls) - |jobs|
      ensures Queued(jobs)
    {
      jobs, ok := [], true;
      var n := 0;
      ghost var taken := index.Keys;
      assert PlanMessages(taken, row, plans[..n], cfg.plan.providers) == [];
      assert Grows(messages, messages, PlanMessages(taken, row, plans, cfg.plan.providers));
      hide PlanMessages, Wanted, FirstContactJob, Deliverable, MessagesBuilt, Grows, Adds;
      ghost var wanted := PlanMessages(taken, row, plans, cfg.plan.providers);
      while n < |plans|
        invariant 0 <= n <= |plans| && ok && taken == index.Keys
        invariant jobs == PlanMessages(taken, row, plans[..n], cfg.plan.providers)
        invariant jobs <= wanted && calls == old(calls) - |jobs|
        invariant Queued(jobs) && MessagesBuilt() && Grows(old(messages), messages, wanted)
      {
        PlanMessagesStep(taken, row, plans, n, cfg.plan.providers);
        ghost var before := messages;
        var job;
        ok, job := QueueMessage(row, plans[n]);
        if messages != before {
          GrowsByOne(old(messages), before, messages, FirstContactJob(row.id, plans[n]), wanted);
        }
        if !ok { return; }
        jobs := jobs + job;
        n := n + 1;
      }
      assert plans[..n] == plans;
    }

    // ----- The reconcile sweep -----

    /** The rows of a table in the order the database returns them. */
    method RowsOf(ids: set<Id>) returns (rows: seq<Id>)
      ensures |rows| == |ids| && (forall l :: l in rows <==> l in ids)
      ensures forall i, j :: 0 <= i < j < |rows| ==> rows[i] != rows[j]
    {
      rows := [];
      var rest := ids;
      while rest != {}
        invariant rest <= ids && |rows| + |rest| == |ids|
        invariant forall l :: l in rows <==> l in ids && l !in rest
        invariant forall i, j :: 0 <= i < j < |rows| ==> rows[i] != rows[j]
        decreases rest
      {
        var l :| l in rest;
        rows, rest := rows + [l], rest - {l};
      }
    }

    /** The active enrollments of a lead that are due within the horizon. */
    method DueOf(row: Row, now: int, horizonMs: int) returns (due: seq<StepJob>)
      ensures due == DueJobs(row, |row.enrollments|, now, horizonMs)
    {
      due := [];
      var i := 0;
      while i < |row.enrollments|
        invariant 0 <= i <= |row.enrollments|
        invariant due == DueJobs(row, i, now, horizonMs)
      {
        var e := row.enrollments[i];
        if e.status.Active? && e.nextRunAt.Some? && e.nextRunAt.value <= now + horizonMs {
          due := due + [StepJob(EnrollmentId(row.id, i), e.currentStep, e.nextRunAt.value)];
        }
        i := i + 1;
      }
    }

    /**
     `reconcileEnrollments`: the step queue gains exactly the stored next job of every active
     enrollment that is due, or, when the queue calls run out, some of those.
     */
    method ReconcileEnrollments(now: int, horizonMs: int) returns (ok: bool, count: nat)
      requires Valid()
      modifies `steps, `calls
      ensures Valid()
      ensures ok <==> old(calls) >= |AllDue(leads, now, horizonMs)|
      ensures ok ==> count == |AllDue(leads, now, horizonMs)| && steps == old(steps) + AllDue(leads, now, horizonMs)
      ensures old(steps) <= steps <= old(steps) + AllDue(leads, now, horizonMs)
    {
      var due := FindDue(now, horizonMs);
      DueWereNext(now, horizonMs, due);
      ok := EnqueueAll(due);
      count := |due|;
    }

    lemma DueWereNext(now: int, horizonMs: int, due: seq<StepJob>)
      requires Valid() && JobsIn(due) == AllDue(leads, now, horizonMs)
      ensures forall job :: job in due ==> WasNext(cfg, trace, |trace|, job)
    {
      hide Machine.Next;
      forall job | job in due ensures WasNext(cfg, trace, |trace|, job) {
        assert job in JobsIn(due);
        AllDueHolds(leads, now, horizonMs, job);
        var l, i: nat :| l in leads && IsDue(leads[l], i, now, horizonMs, job);
        assert ReconcileJob(leads[l], i, now, horizonMs) == Some(job);
        RowsKnowTheirIds(cfg, trace, l);
        SweptJobIsNext(leads[l], i, now, horizonMs);
        NextNowWasNext(cfg, trace, job);
      }
    }

    lemma OwnIds(l: Id)
      requires Valid() && l in leads
      ensures leads[l].id == l
    {
      hide Machine.Next;
      RowsKnowTheirIds(cfg, trace, l);
    }

    /** The query of the sweep. */
    method FindDue(now: int, horizonMs: int) returns (due: seq<StepJob>)
      requires Valid()
      ensures JobsIn(due) == AllDue(leads, now, horizonMs) && |due| == |AllDue(leads, now, horizonMs)|
    {
      hide Machine.Next, Valid, DueJobs;
      forall l | l in leads ensures leads[l].id == l { OwnIds(l); }
      var rows := RowsOf(leads.Keys);
      due := [];
      var n := 0;
      while n < |rows|
        invariant 0 <= n <= |rows|
        invariant JobsIn(due) == DueIn(leads, Elements(rows[..n]), now, horizonMs) && |due| == |JobsIn(due)|
      {
        var own := DueOf(leads[rows[n]], now, horizonMs);
        assert rows[..n + 1] == rows[..n] + [rows[n]];
        assert Elements(rows[..n + 1]) == Elements(rows[..n]) + {rows[n]};
        DueAddsUp(leads, Elements(rows[..n]), rows[n], now, horizonMs);
        JobsInAppend(due, own);
        due := due + own;
        n := n + 1;
      }
      assert Elements(rows[..n]) == leads.Keys;
    }

    method EnqueueAll(jobs: seq<StepJob>) returns (ok: bool)
      requires Valid() && forall job :: job in jobs ==> WasNext(cfg, trace, |trace|, job)
      modifies `steps, `calls
      ensures Valid()
      ensures ok <==> old(calls) >= |jobs|
      ensures ok ==> calls == old(calls) - |jobs| && steps == old(steps) + JobsIn(jobs)
      ensures old(steps) <= steps <= old(steps) + JobsIn(jobs)
    {
      hide Valid, WasNext;
      ok := true;
      var i := 0;
      while i < |jobs|
        invariant 0 <= i <= |jobs| && calls == old(calls) - i && ok && Valid()
        invariant steps == old(steps) + JobsIn(jobs[..i])
      {
        assert jobs[..i + 1] == jobs[..i] + [jobs[i]];
        JobsInAppend(jobs[..i], [jobs[i]]);
        assert JobsIn([jobs[i]]) == {jobs[i]};
        ok := EnqueueStep(jobs[i]);
        if !ok { return; }
        i := i + 1;
      }
      assert jobs[..i] == jobs;
    }

    // ----- Erasure -----

    /** Deletes the CRM contacts in order, up to the first call that fails. */
    method DeleteContacts(contacts: seq<Id>) returns (ok: bool, deleted: nat)
      requires forall l :: l in contacts ==> l in crmIds
      modifies `crmContacts, `calls
      ensures ok <==> old(calls) >= |contacts|
      ensures deleted == if ok then |contacts| else old(calls)
      ensures
        var gone := contacts[..if !ok && landed then deleted + 1 else deleted];
        crmContacts == old(crmContacts) - ContactsOf(crmIds, gone)
    {
      ok, deleted := true, 0;
      while deleted < |contacts|
        invariant deleted <= |contacts| && ok && calls == old(calls) - deleted
        invariant crmContacts == old(crmContacts) - ContactsOf(crmIds, contacts[..deleted])
      {
        assert contacts[..deleted + 1] == contacts[..deleted] + [contacts[deleted]];
        ContactsOfNext(crmIds, contacts[..deleted], contacts[deleted]);
        ok := Call();
        if ok || landed { crmContacts := crmContacts - {crmIds[contacts[deleted]]}; }
        if !ok { return; }
        deleted := deleted + 1;
      }
      assert contacts[..deleted] == contacts;
    }

    /** The address hashes an erasure puts on the suppression list. */
    method HashesToSuppress(found: seq<Id>, reason: ErasureReason, extra: Contact) returns (hashes: set<string>)
      requires forall l :: l in found ==> l in leads
      ensures hashes == ErasedContacts(cfg, View(), Elements(found), reason, extra)
      ensures forall h :: h in hashes <==>
        || (reason.Request? && h in Hashes(cfg, extra))
        || (exists l :: l in found && (reason.Request? || leads[l].status.DoNotContact?)
                        && h in Hashes(cfg, leads[l].profile.contact))
    {
      hashes := if reason.Request? then Hashes(cfg, extra) else {};
      var n := 0;
      while n < |found|
        invariant 0 <= n <= |found|
        invariant hashes == ErasedContacts(cfg, View(), Elements(found[..n]), reason, extra)
      {
        var lead := leads[found[n]];
        if reason.Request? || lead.status.DoNotContact? { hashes := hashes + Hashes(cfg, lead.profile.contact); }
        assert found[..n + 1] == found[..n] + [found[n]];
        assert Elements(found[..n + 1]) == Elements(found[..n]) + {found[n]};
        n := n + 1;
      }
      assert found[..n] == found;
    }

    /** Deletes the leads' contacts from the CRM. */
    method DeleteFromCrm(ids: set<Id>) returns (ok: bool, deleted: nat)
      modifies `crmContacts, `calls
      ensures crmContacts <= old(crmContacts)
      ensures ok <==> old(calls) >= |ids * leads.Keys * crmIds.Keys|
      ensures deleted == if ok then |ids * leads.Keys * crmIds.Keys| else old(calls)
      ensures ok ==> crmContacts == old(crmContacts) - ContactsIn(leads, crmIds, ids)
    {
      var withCrm := RowsOf(ids * leads.Keys * crmIds.Keys);
      ok, deleted := DeleteContacts(withCrm);
      assert withCrm[..|withCrm|] == withCrm;
      ContactsAreIn(withCrm, leads, crmIds, ids);
    }

    /**
     `eraseLeads`. When the CRM fails nothing is erased here; otherwise the leads are gone here and
     there, their addresses are suppressed as the reason demands, and a request leaves its proof.
     */
    method EraseLeads(ids: set<Id>, reason: ErasureReason, extra: Contact, useCrm: bool)
        returns (result: Option<ErasureResult>)
      requires Valid()
      modifies `leads, `index, `suppressed, `history, `trace, `crmIds, `crmContacts, `erasures, `calls
      ensures Valid()
      ensures result.None? <==> useCrm && old(calls) < |ids * old(leads).Keys * old(crmIds).Keys|
      ensures result.None? ==> View() == old(View()) && crmIds == old(crmIds) && erasures == old(erasures)
      ensures result.Some? ==>
        && View() == Next(cfg, old(View()), Erase(ids, reason, extra))
        && result.value.erased == |ids * old(leads).Keys| && leads == old(leads) - ids
        && result.value.crmDeleted == (if useCrm then |ids * old(leads).Keys * old(crmIds).Keys| else 0)
        && result.value.suppressed == |suppressed - old(suppressed)|
        && crmIds == old(crmIds) - ids
        && crmContacts == old(crmContacts) - if useCrm then ContactsIn(old(leads), old(crmIds), ids) else {}
      ensures result.Some? ==>
        forall h :: h in suppressed <==> h in old(suppressed) || Lists(cfg, old(leads), ids, reason, extra, h)
      // A request always leaves its proof, with all those hashes; retention is logged when it erased something.
      ensures result.Some? ==> Logged(old(erasures), erasures, old(leads), ids, reason, extra, result.value)
    {
      hide Machine.Next, Valid, View, Lists, ContactsIn, Logged;
      var crmDeleted := 0;
      if useCrm {
        var ok;
        ok, crmDeleted := DeleteFromCrm(ids);
        if !ok { return None; }
      }
      var summary := EraseAndLog(ids, reason, extra, crmDeleted);
      return Some(summary);
    }

    /** The transaction of `eraseLeads`. */
    method EraseAndLog(ids: set<Id>, reason: ErasureReason, extra: Contact, crmDeleted: nat)
      returns (r: ErasureResult)
      requires Valid()
      modifies `leads, `index, `suppressed, `history, `trace, `crmIds, `erasures
      ensures Valid() && View() == Next(cfg, old(View()), Erase(ids, reason, extra))
      ensures r == ErasureResult(|ids * old(leads).Keys|, crmDeleted, |suppressed - old(suppressed)|)
      ensures leads == old(leads) - ids && crmIds == old(crmIds) - ids
      ensures forall h :: h in suppressed <==> h in old(suppressed) || Lists(cfg, old(leads), ids, reason, extra, h)
      ensures Logged(old(erasures), erasures, old(leads), ids, reason, extra, r)
    {
      hide Machine.Next, Valid, View, Lists, Logged;
      var erased, hashes, added := EraseRows(ids, reason, extra);
      r := ErasureResult(erased, crmDeleted, added);
      Log(old(leads), ids, reason, extra, r, hashes);
    }

    /**
     The log gains one entry for a request and for anything erased, and nothing otherwise. The entry
     says what was erased; that of a request holds the hash of every address it listed, others none.
     */
    ghost predicate Logged(before: seq<ErasureEntry>, after: seq<ErasureEntry>, leads: map<Id, Row>, ids: set<Id>,
        reason: ErasureReason, extra: Contact, r: ErasureResult) {
      if reason == Request || r.erased > 0 then
        && |after| == |before| + 1 && after[..|before|] == before
        && var entry := after[|before|];
           && entry.reason == reason && entry.leadCount == r.erased && entry.crmDeleted == r.crmDeleted
           && forall h :: h in entry.subjectHashes <==> reason == Request && Lists(cfg, leads, ids, Request, extra, h)
      else after == before
    }

    /** A request leaves its proof; retention is logged when it erased something. */
    method Log(ghost leads: map<Id, Row>, ghost ids: set<Id>, reason: ErasureReason, ghost extra: Contact,
               r: ErasureResult, hashes: set<string>)
      requires forall h :: h in hashes <==> Lists(cfg, leads, ids, reason, extra, h)
      modifies `erasures
      ensures Logged(old(erasures), erasures, leads, ids, reason, extra, r)
    {
      hide Lists;
      if r.erased > 0 || reason.Request? {
        erasures := erasures
          + [ErasureEntry(reason, r.erased, r.crmDeleted, if reason.Request? then hashes else {})];
      }
    }

    /** The leads an erasure finds, and the address hashes it lists. */
    method FindErased(ids: set<Id>, reason: ErasureReason, extra: Contact) returns (count: nat, hashes: set<string>)
      ensures count == |ids * leads.Keys|
      ensures hashes == ErasedContacts(cfg, View(), ids, reason, extra)
      ensures forall h :: h in hashes <==> Lists(cfg, leads, ids, reason, extra, h)
    {
      hide Machine.Next;
      var found := RowsOf(ids * leads.Keys);
      assert Elements(found) == ids * leads.Keys;
      hashes := HashesToSuppress(found, reason, extra);
      ErasedContactsOfFound(cfg, View(), ids, reason, extra);
      count := |found|;
    }

    /** `suppress`: lists the hashes that are not listed yet; returns how many. */
    method Suppress(hashes: set<string>) returns (added: nat)
      modifies `suppressed
      ensures suppressed == old(suppressed) + hashes
      ensures added == |suppressed - old(suppressed)|
    {
      hide Machine.Next;
      added := |hashes - suppressed|;
      suppressed := suppressed + hashes;
      assert suppressed - old(suppressed) == hashes - old(suppressed);
    }

    /** The erasing transaction: re-read the leads, suppress, delete. */
    method EraseRows(ids: set<Id>, reason: ErasureReason, extra: Contact)
      returns (erased: nat, hashes: set<string>, added: nat)
      requires Valid()
      modifies `leads, `index, `suppressed, `history, `trace, `crmIds
      ensures Valid() && View() == Next(cfg, old(View()), Erase(ids, reason, extra))
      ensures erased == |ids * old(leads).Keys| && crmIds == old(crmIds) - ids
      ensures hashes == ErasedContacts(cfg, old(View()), ids, reason, extra)
      ensures forall h :: h in hashes <==> Lists(cfg, old(leads), ids, reason, extra, h)
      ensures leads == old(leads) - ids && suppressed == old(suppressed) + hashes
      ensures added == |suppressed - old(suppressed)|
    {
      hide Machine.Next, Erased, ErasedContacts, View, Lists;
      erased, hashes := FindErased(ids, reason, extra);
      EraseTakes(cfg, View(), ids, reason, extra, hashes);
      added := SuppressAndDelete(ids, hashes);
      Took(old(View()), Erase(ids, reason, extra));
    }

    method SuppressAndDelete(ids: set<Id>, hashes: set<string>) returns (added: nat)
      modifies `leads, `index, `suppressed, `history, `crmIds
      ensures View() == Erased(old(View()), ids, hashes) && crmIds == old(crmIds) - ids
      ensures leads == old(leads) - ids && suppressed == old(suppressed) + hashes
      ensures added == |suppressed - old(suppressed)|
    {
      added := Suppress(hashes);
      history := history.(erased := history.erased + ErasedSends(old(View()), ids));
      leads, index, crmIds := leads - ids, IndexWithout(index, ids), crmIds - ids;
    }

    /** Notes a step that changed nothing. */
    ghost method TakeNothing(a: Action)
      requires Valid() && Next(cfg, View(), a) == View() && (a.RunStepJob? ==> a.stepJob in steps)
      modifies `trace
      ensures Valid() && trace == old(trace) + [a]
    {
      hide Machine.Next;
      RunTakes(cfg, trace, a);
      StepsStayBuilt(cfg, trace, a, steps);
      trace := trace + [a];
    }

    /** Notes the step that just took the tables from `before` to where they are. */
    ghost method Took(before: State, a: Action)
      requires before == Run(cfg, INIT, trace) && View() == Next(cfg, before, a)
      requires Store.SequencesSorted(cfg) && StepsBuilt() && MessagesBuilt() && (a.RunStepJob? ==> a.stepJob in steps)
      modifies `trace
      ensures Valid() && trace == old(trace) + [a]
    {
      hide Machine.Next;
      RunTakes(cfg, trace, a);
      StepsStayBuilt(cfg, trace, a, steps);
      trace := trace + [a];
    }
  }

  /** After any calls in any order: every result about runs holds of the tables. */
  lemma PipelineIsSafe(p: Pipeline)
    requires p.Valid()
    ensures Store.Inv(p.cfg, p.View()) && Sending.Conserved(p.View()) && HandOff.HandOffInv(p.View())
  {
    Store.RunKeepsInv(p.cfg, p.trace);
    Sending.SendsAreConserved(p.cfg, p.trace);
    HandOff.RunKeepsHandOff(p.cfg, p.trace);
  }

  /**
   If a lead's step jobs were each run at the time they were built for and nothing of it was resumed,
   then, after any calls in any order, every step of it ran exactly when planned.
   */
  lemma PipelineIsPunctual(p: Pipeline, l: Id)
    requires p.Valid() && l in p.leads && NeverResumes(p.trace, l) && RunAtTheirTime(p.trace, l)
    ensures RowPunctual(p.leads[l])
  {
    hide Machine.Next;
    assert PunctualRun(p.cfg, p.trace, l);
    PunctualRunsAreOnTheDot(p.cfg, p.trace, l);
  }
}
