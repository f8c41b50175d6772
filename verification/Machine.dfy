/**
 The whole pipeline as a step system over one store. Every database transaction is one step; a
 message send is three (eligibility read, provider call, commit) with a possible death after each;
 jobs may be delivered late, twice or never, so any step may be tried at any time.
 */
module Machine {
  import opened Base
  import opened Contacts
  import opened Keys
  import opened Leads
  import opened Timelines
  import opened Plans

  datatype Rule = Rule(property: string, value: string, status: Status)

  /** `hash` is the one-way hash of the suppression list; nothing is assumed of it. */
  datatype Config = Config(
    inbound: seq<Rule>, sequenceFor: Tier -> Option<Sequence>, plan: PlanConfig, hash: string -> string)

  /** An entry of the unique index on dedupe keys. */
  datatype Entry = Entry(lead: Id, event: Event)

  /** A send between its eligibility read and its end; `tier` and `to` are what the read saw. */
  datatype Attempt = Attempt(job: MessageJob, tier: Option<Tier>, to: Option<string>, accepted: bool)

  /** The jobs that hand a lead from one stage to the next; the job id is the event. */
  datatype Handoff =
    | QualifyJob(lead: Id, event: Id)
    | PlanJob(lead: Id, event: Id, score: int, tier: Tier)

  datatype ScoreFact = ScoreFact(lead: Id, capturedEvent: Id, score: int, tier: Tier)

  /**
   What happened outside the database or was deleted from it; the program doesn't store it. Sends
   the provider accepted, those that died or lost the commit after that, recorded ones erased with
   their lead, and every captured and scored event ever.
   */
  datatype History = History(
    accepted: multiset<DedupeKey>, lost: multiset<DedupeKey>, erased: multiset<DedupeKey>,
    captures: map<Id, Id>, scores: map<Id, ScoreFact>)

  /**
   The store. `issued` are the ids handed out so far. `pending` are the jobs some handler has set
   out to enqueue after its commit, `enqueued` those that reached the queue at least once; `planned`
   are the messages some planner or step job has set out to enqueue.
   */
  datatype State = State(
    leads: map<Id, Row>, index: map<DedupeKey, Entry>, suppressed: set<string>, issued: set<Id>,
    attempts: map<Id, Attempt>, pending: set<Handoff>, enqueued: set<Handoff>,
    planned: set<MessageJob>, history: History)

  const INIT := State(map[], map[], {}, {}, map[], {}, {}, {},
      History(multiset{}, multiset{}, multiset{}, map[], map[]))

  datatype ErasureReason = Request | Retention

  datatype Action =
    /** A form submission; `found` is the lead it matches, `lead` and `ev` are new ids. */
    | Submit(source: string, externalId: string, input: Profile, found: Option<Id>, lead: Id, ev: Id, now: int)
    | Enqueue(job: Handoff)
    | Qualify(job: Handoff, score: int, tier: Tier, ev: Id)
    | PlanContacts(job: Handoff)
    /** A delivered message job is read; see `Deliverable`. */
    | CheckSend(attempt: Id, message: MessageJob)
    | CallProvider(attempt: Id, accepts: bool, permanent: bool, finalTry: bool, ev: Id)
    | CommitSend(attempt: Id, ev: Id, now: int)
    | Die(attempt: Id)
    | ReceiveReply(lead: Id, channel: Channel, externalId: string, optingOut: bool, ev: Id)
    | Unsubscribe(lead: Id)
    | CrmUpdate(lead: Id, eventId: string, property: string, value: string, ev: Id)
    | RunStepJob(stepJob: StepJob, at: int)
    | PauseEnrollment(enrollment: EnrollmentId)
    | ResumeEnrollment(enrollment: EnrollmentId, now: int)
    | Erase(leads: set<Id>, reason: ErasureReason, extra: Contact)

  // ----- Reads -----

  function FindRule(rules: seq<Rule>, property: string, value: string): Option<Status> {
    if rules == [] then None
    else if rules[0].property == property && rules[0].value == value then Some(rules[0].status)
    else FindRule(rules[1..], property, value)
  }

  function Hashes(cfg: Config, c: Contact): set<string> {
    set k | k in KeysOf(c) :: cfg.hash(k)
  }

  predicate IsSuppressed(cfg: Config, s: State, c: Contact) {
    exists h :: h in Hashes(cfg, c) && h in s.suppressed
  }

  /** `findMatch`: the oldest lead that shares an address, or nobody does. */
  predicate IsMatch(s: State, input: Contact, found: Option<Id>) {
    match found
    case None => forall l :: l in s.leads ==> !Shares(s.leads[l].profile.contact, input)
    case Some(m) =>
      && m in s.leads && Shares(s.leads[m].profile.contact, input)
      && forall l :: l in s.leads && Shares(s.leads[l].profile.contact, input) ==>
          s.leads[m].createdAt <= s.leads[l].createdAt
  }

  datatype CheckOutcome = Duplicate | Skipped | Proceed(tier: Option<Tier>, to: Option<string>)

  predicate EnrollmentActive(s: State, id: Option<EnrollmentId>) {
    && id.Some? && id.value.lead in s.leads
    && id.value.ordinal < |s.leads[id.value.lead].enrollments|
    && s.leads[id.value.lead].enrollments[id.value.ordinal].status.Active?
  }

  /** The reads of a send, before anything goes out. */
  function CheckOf(s: State, job: MessageJob): CheckOutcome {
    if job.key in s.index then Duplicate
    else if job.lead !in s.leads then Skipped
    else
      var row := s.leads[job.lead];
      if job.kind.RepAlertMessage? then Proceed(row.tier, job.to)
      else if !Eligible(row, job.channel) then Skipped
      else if job.kind.FollowUpMessage? && !EnrollmentActive(s, job.enrollment) then Skipped
      else Proceed(row.tier, ChannelAddress(row.profile, job.channel))
  }

  /**
   A message job somebody built: first contacts come from the planner, follow-ups from step jobs, and
   rep alerts go out under the keys of alerts.
   */
  predicate Deliverable(planned: set<MessageJob>, job: MessageJob) {
    if job.kind.RepAlertMessage? then job.key.RepAlert? || job.key.RepReply?
    else IsMessageKey(job.key) && job in planned
  }

  // ----- Effects -----

  datatype Effect =
    | Nothing
    | Touch(lead: Id, action: RowAction)
    | Create(row: Row, entry: Event)
    | Delete(leads: set<Id>)

  predicate NewId(s: State, id: Id) {
    id !in s.issued
  }

  /** The key a row action would record under, and the id of its event. */
  function KeyOf(a: RowAction): Option<(DedupeKey, Id)> {
    match a
    case OnCapture(_, key, ev, _) => Some((key, ev))
    case OnScore(_, _, key, ev) => Some((key, ev))
    case OnSent(job, _, ev, _, _) => Some((job.key, ev))
    case OnSendFailed(job, _, ev) => Some((Failed(job.key), ev))
    case OnReply(_, key, ev) => Some((key, ev))
    case OnCrmChange(_, key, ev) => Some((key, ev))
    case _ => None
  }

  /** A transaction on an existing lead commits unless its dedupe key is taken, and then it rolls back. */
  function TouchUnlessTaken(s: State, lead: Id, a: RowAction): Effect {
    if lead !in s.leads then Nothing
    else if KeyOf(a).Some? && (KeyOf(a).value.0 in s.index || !NewId(s, KeyOf(a).value.1)) then Nothing
    else Touch(lead, a)
  }

  /** The provider accepts a message only if there is somebody to send it to. */
  predicate ProviderTakes(t: Attempt, accepts: bool) {
    accepts && Given(t.to)
  }

  function SequenceOf(cfg: Config, tier: Option<Tier>): Option<Sequence> {
    if tier.None? then None else cfg.sequenceFor(tier.value)
  }

  function EffectOf(cfg: Config, s: State, a: Action): Effect {
    match a
    case Submit(source, externalId, input, found, lead, ev, now) =>
      var key := Key<EnrollmentId>.Captured(source, externalId);
      var suppressed := IsSuppressed(cfg, s, input.contact);
      if key in s.index || !NewId(s, ev) || !IsMatch(s, input.contact, found) then Nothing
      else if found.Some? then Touch(found.value, OnCapture(input, key, ev, suppressed))
      else if !NewId(s, lead) || lead == ev then Nothing
      else Create(NewRow(lead, source, input, now, key, ev, suppressed), Keyed(ev, key, CapturedBody(false)))
    case Qualify(job, score, tier, ev) =>
      if job !in s.enqueued || !job.QualifyJob? then Nothing
      else TouchUnlessTaken(s, job.lead, OnScore(score, tier, Key<EnrollmentId>.Scored(job.event), ev))
    case CallProvider(attempt, accepts, permanent, finalTry, ev) =>
      if attempt !in s.attempts || s.attempts[attempt].accepted then Nothing
      else
        var t := s.attempts[attempt];
        // Without a recipient the failure is permanent.
        var hopeless := permanent || !Given(t.to);
        if ProviderTakes(t, accepts) || !(hopeless || finalTry) then Nothing
        else TouchUnlessTaken(s, t.job.lead, OnSendFailed(t.job, hopeless, ev))
    case CommitSend(attempt, ev, now) =>
      if attempt !in s.attempts || !s.attempts[attempt].accepted then Nothing
      else
        var t := s.attempts[attempt];
        TouchUnlessTaken(s, t.job.lead, OnSent(t.job, t.to, ev, SequenceOf(cfg, t.tier), now))
    case ReceiveReply(lead, channel, externalId, optingOut, ev) =>
      TouchUnlessTaken(s, lead, OnReply(optingOut, Key<EnrollmentId>.Reply(channel, externalId), ev))
    case Unsubscribe(lead) => TouchUnlessTaken(s, lead, OnUnsubscribe)
    case CrmUpdate(lead, eventId, property, value, ev) =>
      var target := FindRule(cfg.inbound, property, value);
      if target.None? || lead !in s.leads || s.leads[lead].status == target.value then Nothing
      else TouchUnlessTaken(s, lead, OnCrmChange(target.value, Key<EnrollmentId>.Crm(eventId), ev))
    case RunStepJob(job, at) => TouchUnlessTaken(s, job.enrollment.lead, OnStep(job.enrollment.ordinal, job.step, at))
    case PauseEnrollment(id) => TouchUnlessTaken(s, id.lead, OnPause(id.ordinal))
    case ResumeEnrollment(id, now) => TouchUnlessTaken(s, id.lead, OnResume(id.ordinal, now))
    case Erase(ids, _, _) => Delete(ids)
    case _ => Nothing
  }

  function WithEntry(index: map<DedupeKey, Entry>, lead: Id, e: Option<Event>): map<DedupeKey, Entry> {
    if e.Some? && e.value.Keyed? then index[e.value.key := Entry(lead, e.value)] else index
  }

  function IdsOf(e: Option<Event>): set<Id> {
    if e.Some? && e.value.Keyed? then {e.value.id} else {}
  }

  /** Deleting leads cascades to their events, and so to their index entries. */
  function IndexWithout(index: map<DedupeKey, Entry>, ids: set<Id>): map<DedupeKey, Entry> {
    map k | k in index && index[k].lead !in ids :: index[k]
  }

  function Perform(s: State, e: Effect): State {
    match e
    case Nothing => s
    case Touch(l, a) =>
      if l !in s.leads then s
      else
        var recorded := Records(s.leads[l], a);
        s.(leads := s.leads[l := Apply(s.leads[l], a)],
           index := WithEntry(s.index, l, recorded),
           issued := s.issued + IdsOf(recorded))
    case Create(row, entry) =>
      s.(leads := s.leads[row.id := row],
         index := WithEntry(s.index, row.id, Some(entry)),
         issued := s.issued + {row.id} + IdsOf(Some(entry)))
    case Delete(ids) =>
      s.(leads := s.leads - ids, index := IndexWithout(s.index, ids))
  }

  // ----- Everything around the transaction -----

  function ErasedContacts(cfg: Config, s: State, ids: set<Id>, reason: ErasureReason, extra: Contact): set<string> {
    match reason
    case Request => Hashes(cfg, extra) + set l, h | l in ids && l in s.leads &&
        h in Hashes(cfg, s.leads[l].profile.contact) :: h
    case Retention =>
      set l, h | l in ids && l in s.leads && s.leads[l].status.DoNotContact? &&
          h in Hashes(cfg, s.leads[l].profile.contact) :: h
  }

  function ErasedSends(s: State, ids: set<Id>): multiset<DedupeKey> {
    multiset(set k | k in s.index && s.index[k].lead in ids && IsMessageKey(k))
  }

  /** The hand-off after a capture: of the new event, or again of the one recorded first. */
  function CaptureHandoff(s: State, a: Action, e: Effect): set<Handoff>
    requires a.Submit?
  {
    var key := Key<EnrollmentId>.Captured(a.source, a.externalId);
    if key in s.index then
      if s.index[key].event.Keyed? then {QualifyJob(s.index[key].lead, s.index[key].event.id)} else {}
    else
      match e
      case Touch(l, _) => {QualifyJob(l, a.ev)}
      case Create(row, _) => {QualifyJob(row.id, a.ev)}
      case _ => {}
  }

  /** The hand-off after scoring; a replay uses the payload stored by the first run. */
  function ScoreHandoff(s: State, a: Action, e: Effect): set<Handoff>
    requires a.Qualify?
  {
    var key := Key<EnrollmentId>.Scored(a.job.event);
    if a.job in s.enqueued && a.job.QualifyJob? && key in s.index then
      var entry := s.index[key];
      if entry.event.Keyed? && entry.event.body.ScoredBody? && !entry.event.body.tier.Unfit?
      then {PlanJob(entry.lead, entry.event.id, entry.event.body.score, entry.event.body.tier)} else {}
    else if e.Touch? && !a.tier.Unfit? then {PlanJob(a.job.lead, a.ev, a.score, a.tier)}
    else {}
  }

  /** What the planner sets out to enqueue for a lead. */
  function PlannedFor(cfg: Config, s: State, lead: Id): set<MessageJob>
    requires lead in s.leads
  {
    set job | job in Plan(s.index.Keys, s.leads[lead], cfg.plan)
  }

  /** The message a step job sets out to enqueue, fresh or again. */
  function QueuedBy(s: State, job: StepJob, at: int): set<MessageJob> {
    var id := job.enrollment;
    if id.lead in s.leads && id.ordinal < |s.leads[id.lead].enrollments| then
      match RunStep(s.leads[id.lead], id.ordinal, job.step, at).1
      case Queued(message, _) => {message}
      case _ => {}
    else {}
  }

  function Around(cfg: Config, s: State, a: Action, e: Effect, s': State): State {
    var h := s.history;
    match a
    case Submit(_, _, _, _, _, ev, _) =>
      s'.(pending := s.pending + CaptureHandoff(s, a, e),
          history := match e
                     case Touch(l, _) => h.(captures := h.captures[ev := l])
                     case Create(row, _) => h.(captures := h.captures[ev := row.id])
                     case _ => h)
    case Enqueue(job) => if job in s.pending then s'.(enqueued := s.enqueued + {job}) else s'
    case Qualify(job, score, tier, ev) =>
      s'.(pending := s.pending + ScoreHandoff(s, a, e),
          history := if e.Touch? then h.(scores := h.scores[ev := ScoreFact(job.lead, job.event, score, tier)]) else h)
    case PlanContacts(job) =>
      if job in s.enqueued && job.PlanJob? && job.lead in s.leads
      then s'.(planned := s.planned + PlannedFor(cfg, s, job.lead)) else s'
    case RunStepJob(job, at) => s'.(planned := s.planned + QueuedBy(s, job, at))
    case CheckSend(attempt, job) =>
      var check := CheckOf(s, job);
      if NewId(s, attempt) && Deliverable(s.planned, job) && check.Proceed?
      then s'.(attempts := s.attempts[attempt := Attempt(job, check.tier, check.to, false)],
               issued := s.issued + {attempt})
      else s'
    case CallProvider(attempt, accepts, permanent, finalTry, ev) =>
      if attempt !in s.attempts || s.attempts[attempt].accepted then s'
      else if ProviderTakes(s.attempts[attempt], accepts) then
        s'.(attempts := s.attempts[attempt := s.attempts[attempt].(accepted := true)],
            history := h.(accepted := h.accepted + multiset{s.attempts[attempt].job.key}))
      else s'.(attempts := s.attempts - {attempt})
    case CommitSend(attempt, ev, now) =>
      if attempt !in s.attempts || !s.attempts[attempt].accepted || !NewId(s, ev) then s'
      else
        s'.(attempts := s.attempts - {attempt},
            history := if e.Touch? then h else h.(lost := h.lost + multiset{s.attempts[attempt].job.key}))
    case Die(attempt) =>
      if attempt !in s.attempts then s'
      else
        s'.(attempts := s.attempts - {attempt},
            history := if s.attempts[attempt].accepted then h.(lost := h.lost + multiset{s.attempts[attempt].job.key})
                else h)
    case Erase(ids, reason, extra) =>
      s'.(suppressed := s.suppressed + ErasedContacts(cfg, s, ids, reason, extra),
          history := h.(erased := h.erased + ErasedSends(s, ids)))
    case _ => s'
  }

  function Next(cfg: Config, s: State, a: Action): State {
    var e := EffectOf(cfg, s, a);
    Around(cfg, s, a, e, Perform(s, e))
  }

  function Run(cfg: Config, s: State, actions: seq<Action>): State {
    if actions == [] then s else Next(cfg, Run(cfg, s, actions[..|actions| - 1]), actions[|actions| - 1])
  }

  /** What a step does to the leads and the index is what its effect does. */
  lemma NextPerforms(cfg: Config, s: State, a: Action)
    ensures Next(cfg, s, a).leads == Perform(s, EffectOf(cfg, s, a)).leads
    ensures Next(cfg, s, a).index == Perform(s, EffectOf(cfg, s, a)).index
    ensures Next(cfg, s, a).issued >= Perform(s, EffectOf(cfg, s, a)).issued >= s.issued
  {
  }

  /** A transaction changes the leads, the index and the ids handed out, nothing else. */
  predicate OnlyRows(s: State, s': State) {
    s' == s.(leads := s'.leads, index := s'.index, issued := s'.issued)
  }

  lemma PerformsOnlyRows(s: State, e: Effect)
    ensures OnlyRows(s, Perform(s, e))
  {
  }

  lemma {:induction false} RunConcat(cfg: Config, s: State, before: seq<Action>, after: seq<Action>)
    ensures Run(cfg, s, before + after) == Run(cfg, Run(cfg, s, before), after)
  {
    if after == [] {
      assert before + after == before;
    } else {
      var last := |after| - 1;
      RunConcat(cfg, s, before, after[..last]);
      assert (before + after)[..|before + after| - 1] == before + after[..last];
    }
  }
}
