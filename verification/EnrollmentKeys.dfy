/**
 What a lead's enrollment takes: a sequence for the tier, and the free key of a planned channel.
 */
module EnrollmentKeys {
  import opened Base
  import opened Contacts
  import opened Keys
  import opened Leads
  import opened Moves
  import opened Timelines
  import opened Machine
  import opened Plans
  import opened Store
  import opened Sending
  import Punctuality

  predicate CanEnroll(sequence: Option<Sequence>) {
    sequence.Some? && sequence.value.active && sequence.value.steps != []
  }

  // ----- Nobody is enrolled -----

  lemma {:induction false} NobodyIsEnrolled(cfg: Config, actions: seq<Action>, l: Id)
    requires forall t: Tier :: !CanEnroll(cfg.sequenceFor(t))
    requires l in Run(cfg, INIT, actions).leads
    ensures Run(cfg, INIT, actions).leads[l].enrollments == []
  {
    if actions == [] {
    } else {
      var s, a := Run(cfg, INIT, actions[..|actions| - 1]), actions[|actions| - 1];
      RowCases(cfg, s, a);
      assert RowCase(cfg, s, a, l);
      var e := EffectOf(cfg, s, a);
      if l in s.leads { NobodyIsEnrolled(cfg, actions[..|actions| - 1], l); }
      if e.Touch? && e.lead == l {
        NoSequenceToEnroll(cfg, s, a);
        ApplyMoves(s.leads[l], e.action);
      } else if e.Create? && e.row.id == l {
        NewRowGood(a.lead, a.source, a.input, a.now, Key<EnrollmentId>.Captured(a.source, a.externalId), a.ev,
                   IsSuppressed(cfg, s, a.input.contact));
      }
    }
  }

  lemma NoSequenceToEnroll(cfg: Config, s: State, a: Action)
    requires forall t: Tier :: !CanEnroll(cfg.sequenceFor(t))
    ensures EffectOf(cfg, s, a).Touch? && EffectOf(cfg, s, a).action.OnSent? ==>
        !CanEnroll(EffectOf(cfg, s, a).action.sequence)
  {
  }

  // ----- Enrolling uses up the lead's key for a plannable channel -----

  predicate PlannedOk(cfg: Config, job: MessageJob) {
    job.kind.FirstContactMessage? ==> CanPlan(cfg.plan, job.channel) && job.key == FirstContact(job.lead, job.channel)
  }

  /** First contacts come from plans, from the planner to the provider. */
  predicate FirstContactsPlanned(cfg: Config, s: State) {
    && (forall job :: job in s.planned ==> PlannedOk(cfg, job))
    && (forall t :: t in s.attempts ==> PlannedOk(cfg, s.attempts[t].job))
  }

  /** The lead is enrolled at most once, and then its key for `channel`, the one plannable, is recorded for good. */
  predicate KeyUsed(cfg: Config, s: State, l: Id, channel: Channel)
    requires l in s.leads
  {
    && |s.leads[l].enrollments| <= 1
    && (s.leads[l].enrollments != [] ==>
          var key := Key<EnrollmentId>.FirstContact(l, channel);
          CanPlan(cfg.plan, channel) && key in s.index && s.index[key].lead == l)
  }

  lemma PlannedForOk(cfg: Config, s: State, l: Id)
    requires l in s.leads
    ensures forall job :: job in PlannedFor(cfg, s, l) ==> PlannedOk(cfg, job)
  {
    forall job | job in PlannedFor(cfg, s, l) && job.kind.FirstContactMessage? ensures PlannedOk(cfg, job) {
      PlannedOnPlanChannels(s.index.Keys, s.leads[l], cfg.plan, job);
    }
  }

  lemma AroundKeepsPlanned(cfg: Config, s: State, a: Action, e: Effect, s': State)
    requires FirstContactsPlanned(cfg, s) && OnlyRows(s, s')
    ensures FirstContactsPlanned(cfg, Around(cfg, s, a, e, s'))
  {
    if a.PlanContacts? && a.job.lead in s.leads { PlannedForOk(cfg, s, a.job.lead); }
  }

  lemma NextKeepsPlanned(cfg: Config, s: State, a: Action)
    requires FirstContactsPlanned(cfg, s)
    ensures FirstContactsPlanned(cfg, Next(cfg, s, a))
  {
    var e := EffectOf(cfg, s, a);
    PerformsOnlyRows(s, e);
    AroundKeepsPlanned(cfg, s, a, e, Perform(s, e));
  }

  /** A transaction that enrolls records a planned first contact under a free key. */
  lemma EnrollingRecordsKey(cfg: Config, s: State, a: Action)
    requires FirstContactsPlanned(cfg, s)
    ensures
      var e := EffectOf(cfg, s, a);
      e.Touch? && e.lead in s.leads && Enrolls(s.leads[e.lead], e.action) ==>
        && PlannedOk(cfg, e.action.job) && e.action.job.lead == e.lead && e.action.job.key !in s.index
  {
  }

  lemma TouchUsesKey(cfg: Config, s: State, l: Id, ra: RowAction, channel: Channel)
    requires l in s.leads && KeyUsed(cfg, s, l, channel) && forall c :: CanPlan(cfg.plan, c) ==> c == channel
    requires Enrolls(s.leads[l], ra) ==> PlannedOk(cfg, ra.job) && ra.job.lead == l && ra.job.key !in s.index
    ensures |Apply(s.leads[l], ra).enrollments| <= 1
    ensures Apply(s.leads[l], ra).enrollments != [] && s.leads[l].enrollments == [] ==>
      CanPlan(cfg.plan, channel) && Records(s.leads[l], ra).Some? && Records(s.leads[l], ra).value.Keyed?
      && Records(s.leads[l], ra).value.key == FirstContact(l, channel)
  {
    ApplyMoves(s.leads[l], ra);
  }

  lemma TouchedKeyIsUsed(cfg: Config, s: State, s': State, l: Id, ra: RowAction, channel: Channel)
    requires l in s.leads && KeyUsed(cfg, s, l, channel) && forall c :: CanPlan(cfg.plan, c) ==> c == channel
    requires Enrolls(s.leads[l], ra) ==> PlannedOk(cfg, ra.job) && ra.job.lead == l && ra.job.key !in s.index
    requires l in s'.leads && s'.leads[l] == Apply(s.leads[l], ra)
    requires s'.index == WithEntry(s.index, l, Records(s.leads[l], ra))
    requires s.leads[l].enrollments != [] ==>
      Stands(s', FirstContact(l, channel), s.index[Key<EnrollmentId>.FirstContact(l, channel)])
    ensures KeyUsed(cfg, s', l, channel)
  {
    TouchUsesKey(cfg, s, l, ra, channel);
  }

  lemma TouchedIndex(cfg: Config, s: State, a: Action)
    ensures
      var e := EffectOf(cfg, s, a);
      e.Touch? && e.lead in s.leads ==>
        Next(cfg, s, a).index == WithEntry(s.index, e.lead, Records(s.leads[e.lead], e.action))
  {
    hide Machine.Next;
    hide Machine.EffectOf;
    NextPerforms(cfg, s, a);
  }

  lemma NextUsesKey(cfg: Config, s: State, a: Action, l: Id, channel: Channel)
    requires FirstContactsPlanned(cfg, s) && Indexed(s) && l in Next(cfg, s, a).leads
    requires forall c :: CanPlan(cfg.plan, c) ==> c == channel
    requires l in s.leads ==> KeyUsed(cfg, s, l, channel)
    ensures KeyUsed(cfg, Next(cfg, s, a), l, channel)
  {
    hide Machine.Next;
    hide Machine.EffectOf;
    hide Machine.Perform;
    RowCases(cfg, s, a);
    TouchedIndex(cfg, s, a);
    assert RowCase(cfg, s, a, l);
    var e := EffectOf(cfg, s, a);
    if l in s.leads && s.leads[l].enrollments != [] { KeyStands(cfg, s, a, l, channel); }
    if e.Touch? && e.lead == l {
      EnrollingRecordsKey(cfg, s, a);
      TouchedKeyIsUsed(cfg, s, Next(cfg, s, a), l, e.action, channel);
    } else if e.Create? && e.row.id == l {
      CreatedIsBlank(cfg, s, a);
    }
  }

  lemma KeyStands(cfg: Config, s: State, a: Action, l: Id, channel: Channel)
    requires Indexed(s) && l in s.leads && KeyUsed(cfg, s, l, channel) && s.leads[l].enrollments != []
    ensures Stands(Next(cfg, s, a), FirstContact(l, channel), s.index[Key<EnrollmentId>.FirstContact(l, channel)])
  {
    NextKeepsStanding(cfg, s, a, FirstContact(l, channel), s.index[Key<EnrollmentId>.FirstContact(l, channel)]);
  }

  lemma CreatedIsBlank(cfg: Config, s: State, a: Action)
    ensures EffectOf(cfg, s, a).Create? ==> EffectOf(cfg, s, a).row.enrollments == []
  {
    if a.Submit? {
      Punctuality.NewRowIsBlank(a.lead, a.source, a.input, a.now, Key<EnrollmentId>.Captured(a.source, a.externalId),
                                a.ev, IsSuppressed(cfg, s, a.input.contact));
    }
  }

  lemma {:induction false} RunKeepsPlanned(cfg: Config, actions: seq<Action>)
    ensures FirstContactsPlanned(cfg, Run(cfg, INIT, actions))
  {
    hide Machine.Next;
    if actions == [] {
    } else {
      var last := |actions| - 1;
      RunKeepsPlanned(cfg, actions[..last]);
      NextKeepsPlanned(cfg, Run(cfg, INIT, actions[..last]), actions[last]);
    }
  }

  /** With one plannable channel at most, a lead is enrolled at most once, whatever the CRM rules. */
  lemma {:induction false} OneChannelEnrollsOnce(cfg: Config, actions: seq<Action>, l: Id, channel: Channel)
    requires forall c :: CanPlan(cfg.plan, c) ==> c == channel
    requires l in Run(cfg, INIT, actions).leads
    ensures KeyUsed(cfg, Run(cfg, INIT, actions), l, channel)
  {
    hide Machine.Next;
    if actions == [] {
    } else {
      var last := |actions| - 1;
      var s := Run(cfg, INIT, actions[..last]);
      if l in s.leads { OneChannelEnrollsOnce(cfg, actions[..last], l, channel); }
      RunKeepsPlanned(cfg, actions[..last]);
      RunKeepsIndexed(cfg, actions[..last]);
      NextUsesKey(cfg, s, actions[last], l, channel);
    }
  }
}
