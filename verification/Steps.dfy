/** Each step of the machine, written out for the handlers: when it happens and what it leaves behind. */
module Steps {
  import opened Base
  import opened Contacts
  import opened Keys
  import opened Leads
  import opened Timelines
  import opened Machine
  import Store
  import HandOff

  /** A row and the keyed event recorded with it, as a commit stores them. */
  function Stored(s: State, row: Row, entry: Option<Event>): State {
    s.(leads := s.leads[row.id := row], index := WithEntry(s.index, row.id, entry), issued := s.issued + IdsOf(entry))
  }

  /** Steps that are one transaction and nothing around it. */
  predicate IsPlain(a: Action) {
    a.ReceiveReply? || a.Unsubscribe? || a.CrmUpdate? || a.PauseEnrollment? || a.ResumeEnrollment?
  }

  lemma PlainStep(cfg: Config, s: State, a: Action)
    requires IsPlain(a)
    ensures
      match EffectOf(cfg, s, a)
      case Touch(l, ra) =>
        l in s.leads &&
            (s.leads[l].id == l ==> Next(cfg, s, a) == Stored(s, Apply(s.leads[l], ra), Records(s.leads[l], ra)))
      case _ => Next(cfg, s, a) == s
  {
    Store.EffectIsFree(cfg, s, a);
    if EffectOf(cfg, s, a).Touch? {
      Store.SameId(s.leads[EffectOf(cfg, s, a).lead], EffectOf(cfg, s, a).action);
    }
  }

  lemma RunTakes(cfg: Config, actions: seq<Action>, a: Action)
    ensures Run(cfg, INIT, actions + [a]) == Next(cfg, Run(cfg, INIT, actions), a)
  {
    assert (actions + [a])[..|actions + [a]| - 1] == actions;
  }

  lemma RowsKnowTheirIds(cfg: Config, actions: seq<Action>, l: Id)
    ensures l in Run(cfg, INIT, actions).leads ==> Run(cfg, INIT, actions).leads[l].id == l
  {
    HandOff.RunKeepsHandOff(cfg, actions);
    if l in Run(cfg, INIT, actions).leads {
      assert Store.RowIndexed(Run(cfg, INIT, actions).index, l, Run(cfg, INIT, actions).leads[l]);
    }
  }

  lemma EntriesAreKeyed(cfg: Config, actions: seq<Action>, key: DedupeKey)
    ensures
      var index := Run(cfg, INIT, actions).index;
      key in index ==> index[key].event.Keyed? && (key.Scored? ==> index[key].event.body.ScoredBody?)
  {
    HandOff.RunKeepsHandOff(cfg, actions);
    var s := Run(cfg, INIT, actions);
    if key in s.index { assert Store.EntryStored(s.leads, key, s.index[key]) && HandOff.EntriesAreFacts(s); }
  }

  lemma RecordedIsFree(row: Row, ra: RowAction)
    ensures Records(row, ra).Some? ==>
      KeyOf(ra) == Some((Records(row, ra).value.key, Records(row, ra).value.id)) && Records(row, ra).value.Keyed?
  {
    Store.RecordsKey(row, ra);
  }

  lemma ReplyEffect(cfg: Config, s: State, lead: Id, channel: Channel, externalId: string, optingOut: bool, ev: Id)
    requires lead in s.leads && ev !in s.issued && Key<EnrollmentId>.Reply(channel, externalId) !in s.index
    ensures EffectOf(cfg, s, ReceiveReply(lead, channel, externalId, optingOut, ev))
         == Touch(lead, OnReply(optingOut, Reply(channel, externalId), ev))
  {
  }

  lemma UnsubscribeEffect(cfg: Config, s: State, lead: Id)
    requires lead in s.leads
    ensures EffectOf(cfg, s, Unsubscribe(lead)) == Touch(lead, OnUnsubscribe)
  {
  }

  lemma StepTakes(cfg: Config, s: State, job: StepJob, at: int)
    requires job.enrollment.lead in s.leads && s.leads[job.enrollment.lead].id == job.enrollment.lead
    requires job.enrollment.ordinal < |s.leads[job.enrollment.lead].enrollments|
    ensures
      var row := s.leads[job.enrollment.lead];
      Next(cfg, s, RunStepJob(job, at)) ==
        var row' := RunStep(row, job.enrollment.ordinal, job.step, at).0;
        Stored(s, row', None).(planned := s.planned + QueuedBy(s, job, at))
  {
    Store.SameId(s.leads[job.enrollment.lead], OnStep(job.enrollment.ordinal, job.step, at));
  }

  /** A job of an enrollment that is gone. */
  lemma NoEnrollmentTakesNothing(cfg: Config, s: State, job: StepJob, at: int)
    requires job.enrollment.lead in s.leads ==> job.enrollment.ordinal >= |s.leads[job.enrollment.lead].enrollments|
    ensures Next(cfg, s, RunStepJob(job, at)) == s
  {
    if job.enrollment.lead in s.leads {
      assert s.leads[job.enrollment.lead := s.leads[job.enrollment.lead]] == s.leads;
    }
  }

  lemma PauseEffect(cfg: Config, s: State, id: EnrollmentId)
    requires id.lead in s.leads
    ensures EffectOf(cfg, s, PauseEnrollment(id)) == Touch(id.lead, OnPause(id.ordinal))
  {
  }

  lemma ResumeEffect(cfg: Config, s: State, id: EnrollmentId, now: int)
    requires id.lead in s.leads
    ensures EffectOf(cfg, s, ResumeEnrollment(id, now)) == Touch(id.lead, OnResume(id.ordinal, now))
  {
  }

  lemma CrmEffect(cfg: Config, s: State, lead: Id, eventId: string, property: string, value: string, ev: Id)
    requires lead in s.leads && ev !in s.issued && FindRule(cfg.inbound, property, value).Some?
    ensures
      var a := CrmUpdate(lead, eventId, property, value, ev);
      var target := FindRule(cfg.inbound, property, value).value;
      EffectOf(cfg, s, a) ==
        if s.leads[lead].status == target || Key<EnrollmentId>.Crm(eventId) in s.index then Nothing
        else Touch(lead, OnCrmChange(target, Crm(eventId), ev))
  {
  }

  lemma EnqueueTakes(cfg: Config, s: State, job: Handoff)
    requires job in s.pending
    ensures Next(cfg, s, Enqueue(job)) == s.(enqueued := s.enqueued + {job})
  {
  }

  lemma MergeTakes(cfg: Config, s: State, a: Action)
    requires a.Submit? && a.ev !in s.issued && a.found.Some? && IsMatch(s, a.input.contact, a.found)
    requires Key<EnrollmentId>.Captured(a.source, a.externalId) !in s.index
    requires s.leads[a.found.value].id == a.found.value
    ensures
      var key := Key<EnrollmentId>.Captured(a.source, a.externalId);
      var row := Capture(s.leads[a.found.value], a.input, key, a.ev, IsSuppressed(cfg, s, a.input.contact));
      Next(cfg, s, a) == Stored(s, row, Some(Keyed(a.ev, key, CapturedBody(true)))).(
        pending := s.pending + {QualifyJob(a.found.value, a.ev)},
        history := s.history.(captures := s.history.captures[a.ev := a.found.value]))
  {
    Store.SameId(s.leads[a.found.value], EffectOf(cfg, s, a).action);
  }

  lemma CreateTakes(cfg: Config, s: State, a: Action)
    requires a.Submit? && a.ev !in s.issued && a.lead !in s.issued && a.lead != a.ev
    requires a.found.None? && IsMatch(s, a.input.contact, a.found)
    requires Key<EnrollmentId>.Captured(a.source, a.externalId) !in s.index
    ensures
      var key := Key<EnrollmentId>.Captured(a.source, a.externalId);
      var row := NewRow(a.lead, a.source, a.input, a.now, key, a.ev, IsSuppressed(cfg, s, a.input.contact));
      Next(cfg, s, a) == Stored(s, row, Some(Keyed(a.ev, key, CapturedBody(false)))).(
        issued := s.issued + {a.lead, a.ev},
        pending := s.pending + {QualifyJob(a.lead, a.ev)},
        history := s.history.(captures := s.history.captures[a.ev := a.lead]))
  {
    assert {a.lead} + {a.ev} == {a.lead, a.ev};
    assert s.issued + {a.lead} + {a.ev} == s.issued + {a.lead, a.ev};
  }

  lemma ReplayedSubmitTakes(cfg: Config, s: State, a: Action)
    requires a.Submit? && Key<EnrollmentId>.Captured(a.source, a.externalId) in s.index
    requires s.index[Key<EnrollmentId>.Captured(a.source, a.externalId)].event.Keyed?
    ensures
      var entry := s.index[Key<EnrollmentId>.Captured(a.source, a.externalId)];
      Next(cfg, s, a) == s.(pending := s.pending + {QualifyJob(entry.lead, entry.event.id)})
  {
  }

  lemma ScoreTakes(cfg: Config, s: State, a: Action)
    requires a.Qualify? && a.job in s.enqueued && a.job.QualifyJob? && a.ev !in s.issued
    requires Key<EnrollmentId>.Scored(a.job.event) !in s.index
    ensures a.job.lead !in s.leads ==> Next(cfg, s, a) == s
    ensures a.job.lead in s.leads && s.leads[a.job.lead].id == a.job.lead ==>
      var key := Key<EnrollmentId>.Scored(a.job.event);
      Next(cfg, s, a) == Stored(s, Score(s.leads[a.job.lead], a.score, a.tier, key, a.ev),
                                Some(Keyed(a.ev, key, ScoredBody(a.score, a.tier)))).(
        pending := s.pending + if a.tier.Unfit? then {} else {PlanJob(a.job.lead, a.ev, a.score, a.tier)},
        history := s.history.(scores := s.history.scores[a.ev := ScoreFact(a.job.lead, a.job.event, a.score, a.tier)]))
  {
  }

  lemma ReplayedScoreTakes(cfg: Config, s: State, a: Action)
    requires a.Qualify? && a.job in s.enqueued && a.job.QualifyJob?
    requires Key<EnrollmentId>.Scored(a.job.event) in s.index
    requires s.index[Key<EnrollmentId>.Scored(a.job.event)].event.Keyed?
    requires s.index[Key<EnrollmentId>.Scored(a.job.event)].event.body.ScoredBody?
    ensures
      var entry := s.index[Key<EnrollmentId>.Scored(a.job.event)];
      var body := entry.event.body;
      Next(cfg, s, a) == s.(pending := s.pending +
        if body.tier.Unfit? then {} else {PlanJob(entry.lead, entry.event.id, body.score, body.tier)})
  {
  }

  lemma PlanTakes(cfg: Config, s: State, job: Handoff)
    requires job in s.enqueued && job.PlanJob?
    ensures Next(cfg, s, PlanContacts(job)) ==
      if job.lead in s.leads then s.(planned := s.planned + PlannedFor(cfg, s, job.lead)) else s
  {
  }

  lemma CheckTakes(cfg: Config, s: State, attempt: Id, job: MessageJob)
    requires attempt !in s.issued && Deliverable(s.planned, job)
    ensures
      var check := CheckOf(s, job);
      Next(cfg, s, CheckSend(attempt, job)) ==
        if check.Proceed?
        then s.(attempts := s.attempts[attempt := Attempt(job, check.tier, check.to, false)],
                issued := s.issued + {attempt})
        else s
  {
  }

  lemma AcceptTakes(cfg: Config, s: State, a: Action)
    requires a.CallProvider? && a.attempt in s.attempts && !s.attempts[a.attempt].accepted
    requires ProviderTakes(s.attempts[a.attempt], a.accepts)
    ensures
      var t := s.attempts[a.attempt];
      Next(cfg, s, a) == s.(attempts := s.attempts[a.attempt := t.(accepted := true)],
                            history := s.history.(accepted := s.history.accepted + multiset{t.job.key}))
  {
  }

  /** The provider refused: the failure is recorded when it is permanent or the last try. */
  lemma RefuseTakes(cfg: Config, s: State, a: Action)
    requires a.CallProvider? && a.attempt in s.attempts && !s.attempts[a.attempt].accepted && a.ev !in s.issued
    requires !ProviderTakes(s.attempts[a.attempt], a.accepts)
    ensures
      var t := s.attempts[a.attempt];
      var hopeless := a.permanent || !Given(t.to);
      var key := Failed(t.job.key);
      Next(cfg, s, a) ==
        (if (hopeless || a.finalTry) && t.job.lead in s.leads && key !in s.index then
           var entry := Keyed(a.ev, key, MessageFailedBody(t.job.kind, hopeless));
           s.(leads := s.leads[t.job.lead := Append(s.leads[t.job.lead], entry)],
              index := s.index[key := Entry(t.job.lead, entry)], issued := s.issued + {a.ev})
         else s).(attempts := s.attempts - {a.attempt})
  {
  }

  lemma RecordTakes(cfg: Config, s: State, a: Action)
    requires a.CommitSend? && a.attempt in s.attempts && s.attempts[a.attempt].accepted && a.ev !in s.issued
    ensures
      var t := s.attempts[a.attempt];
      Next(cfg, s, a) ==
        if t.job.lead in s.leads && t.job.key !in s.index && s.leads[t.job.lead].id == t.job.lead then
          Stored(s, RecordSent(s.leads[t.job.lead], t.job, t.to, a.ev, SequenceOf(cfg, t.tier), a.now).0,
                 Some(Keyed(a.ev, t.job.key, MessageSentBody(t.job.kind, t.job.channel, t.to))))
            .(attempts := s.attempts - {a.attempt})
        else if t.job.lead in s.leads && t.job.key !in s.index then Next(cfg, s, a)
        else s.(attempts := s.attempts - {a.attempt},
                history := s.history.(lost := s.history.lost + multiset{t.job.key}))
  {
    var t := s.attempts[a.attempt];
    if t.job.lead in s.leads {
      Store.SameId(s.leads[t.job.lead], OnSent(t.job, t.to, a.ev, SequenceOf(cfg, t.tier), a.now));
    }
  }

  /** The leads and all that hangs on them gone, their hashes listed. */
  function Erased(s: State, ids: set<Id>, hashes: set<string>): State {
    s.(leads := s.leads - ids, index := IndexWithout(s.index, ids), suppressed := s.suppressed + hashes,
       history := s.history.(erased := s.history.erased + ErasedSends(s, ids)))
  }

  lemma EraseTakes(cfg: Config, s: State, ids: set<Id>, reason: ErasureReason, extra: Contact, hashes: set<string>)
    requires hashes == ErasedContacts(cfg, s, ids, reason, extra)
    ensures Next(cfg, s, Erase(ids, reason, extra)) == Erased(s, ids, hashes)
  {
  }

  /** The process dies between two calls; what the provider accepted is lost. */
  lemma DieTakes(cfg: Config, s: State, attempt: Id)
    requires attempt in s.attempts
    ensures Next(cfg, s, Die(attempt)) ==
      var t := s.attempts[attempt];
      s.(attempts := s.attempts - {attempt},
         history := if t.accepted then s.history.(lost := s.history.lost + multiset{t.job.key}) else s.history)
  {
  }

  /** Only existing leads have addresses to suppress. */
  lemma ErasedContactsOfFound(cfg: Config, s: State, ids: set<Id>, reason: ErasureReason, extra: Contact)
    ensures ErasedContacts(cfg, s, ids * s.leads.Keys, reason, extra) == ErasedContacts(cfg, s, ids, reason, extra)
  {
  }
}
