/**
 The exact conditions for two promises that depend on the configuration: that a lead is enrolled at
 most once, and that nobody is contacted after leaving.
 */
module Exactness {
  import opened Base
  import opened Keys
  import opened Leads
  import opened Machine
  import opened Coupling
  import opened Plans
  import opened Store
  import opened EnrollmentKeys
  import opened LeadRuns

  // ----- A run that enrolls a lead twice -----

  const FORM: string := "a"
  const CAPTURED: Id := "a"
  const CHANGED: Id := Name(13)

  /** Captured, planned on `m`'s channel, contacted, enrolled, and sent back by a rule. */
  function FirstRound(m: Planned, tm: Tier, tier: Tier, rule: Rule): seq<Action> {
    [Form(FORM, None, CAPTURED)] + Round(LabelsFrom(5), m, tm, tier)
    + [CrmUpdate(LEAD, "1", rule.property, rule.value, CHANGED)]
  }

  function KeysOfFirstRound(m: Planned): set<DedupeKey> {
    {Captured("website", FORM)} + KeysOfLabels(LabelsFrom(5)) + {FirstContact(LEAD, m.channel)} + {Crm("1")}
  }

  function IdsOfFirstRound(): set<Id> {
    {LEAD, CAPTURED} + IdsOfLabels(LabelsFrom(5)) + {CHANGED}
  }

  lemma FirstNames()
    ensures Usable(LabelsFrom(5), {Captured("website", FORM)}, {LEAD, CAPTURED})
    ensures CHANGED !in {LEAD, CAPTURED} + IdsOfLabels(LabelsFrom(5)) && CAPTURED != LEAD
  {
    LongNamesAreUsable({Captured("website", FORM)}, {LEAD, CAPTURED}, 5);
    assert |CHANGED| == 13;
  }

  lemma SecondNames(m: Planned)
    ensures Usable(LabelsFrom(14), KeysOfFirstRound(m), IdsOfFirstRound())
  {
    LongNamesAreUsable({Captured("website", FORM)}, {LEAD, CAPTURED}, 5);
    assert |CHANGED| == 13;
    LongNamesAreUsable(KeysOfFirstRound(m), IdsOfFirstRound(), 14);
  }

  lemma AfterFirstRound(cfg: Config, m: Planned, tm: Tier, tier: Tier, rule: Rule)
    requires m in cfg.plan.tiers(tm).messages && m.channel in cfg.plan.providers && !tm.Unfit? && !tier.Unfit?
    requires CanEnroll(cfg.sequenceFor(tier))
    requires FindRule(cfg.inbound, rule.property, rule.value) == Some(rule.status) && !rule.status.Contacted?
    ensures OneLead(Run(cfg, INIT, FirstRound(m, tm, tier, rule)), rule.status, Some(tier), 1, KeysOfFirstRound(m),
        IdsOfFirstRound())
  {
    hide Machine.Next;
    var keys: set<DedupeKey>, ids := {Captured("website", FORM)}, {LEAD, CAPTURED};
    FirstNames();
    AfterFirstForm(cfg, FORM, CAPTURED);
    var start := [Form(FORM, None, CAPTURED)];
    AfterRound(cfg, start, LabelsFrom(5), m, tm, tier, New, None, 0, keys, ids);
    AfterRule(cfg, start + Round(LabelsFrom(5), m, tm, tier), rule, CHANGED, Contacted, Some(tier), 1,
              keys + KeysOfLabels(LabelsFrom(5)) + {FirstContact(LEAD, m.channel)}, ids + IdsOfLabels(LabelsFrom(5)));
  }

  function TwoRounds(m: Planned, tm: Tier, n: Planned, tn: Tier, tier: Tier, rule: Rule): seq<Action> {
    FirstRound(m, tm, tier, rule) + Round(LabelsFrom(14), n, tn, tier)
  }

  /**
   Planned on one channel, contacted and enrolled; sent back by a rule; planned on another channel,
   contacted and enrolled again. Both channels are in the plans of some tiers and have a provider.
   */
  lemma RuleEnrollsTwice(cfg: Config, m: Planned, tm: Tier, n: Planned, tn: Tier, tier: Tier, rule: Rule)
    requires m.channel != n.channel && !tm.Unfit? && !tn.Unfit? && !tier.Unfit?
    requires m in cfg.plan.tiers(tm).messages && n in cfg.plan.tiers(tn).messages
    requires m.channel in cfg.plan.providers && n.channel in cfg.plan.providers
    requires CanEnroll(cfg.sequenceFor(tier))
    requires FindRule(cfg.inbound, rule.property, rule.value) == Some(rule.status)
    requires !rule.status.Contacted? && !Leaving(rule.status)
    ensures
      var s := Run(cfg, INIT, TwoRounds(m, tm, n, tn, tier, rule));
      LEAD in s.leads && |s.leads[LEAD].enrollments| == 2
  {
    hide Machine.Next;
    hide FirstRound, Usable, IdsOfFirstRound;
    AfterFirstRound(cfg, m, tm, tier, rule);
    SecondNames(m);
    AfterRound(cfg, FirstRound(m, tm, tier, rule), LabelsFrom(14), n, tn, tier, rule.status, Some(tier), 1,
               KeysOfFirstRound(m), IdsOfFirstRound());
  }

  // ----- The exact conditions -----

  predicate EnrolledAtMostOnce(cfg: Config, actions: seq<Action>) {
    forall l :: l in Run(cfg, INIT, actions).leads ==> |Run(cfg, INIT, actions).leads[l].enrollments| <= 1
  }

  /** No two channels are both plannable. */
  predicate OneChannelAtMost(plan: PlanConfig) {
    forall c, d :: CanPlan(plan, c) && CanPlan(plan, d) ==> c == d
  }

  /**
   Every lead is enrolled at most once in every run if and only if no effective CRM rule sends leads
   back to before their first contact, or no tier has a sequence to enroll in, or first contacts are
   never planned on two channels. The configuration has no sequence for unfit leads.
   */
  lemma EnrolledOnceExactly(cfg: Config)
    requires SequencesSorted(cfg) && cfg.sequenceFor(Unfit).None?
    ensures (forall actions :: EnrolledAtMostOnce(cfg, actions))
       <==> || NoWayBack(Targets(cfg))
            || (forall t: Tier :: !CanEnroll(cfg.sequenceFor(t)))
            || OneChannelAtMost(cfg.plan)
  {
    if NoWayBack(Targets(cfg)) {
      forall actions ensures EnrolledAtMostOnce(cfg, actions) {
        RunKeepsInv(cfg, actions);
      }
    } else if forall t: Tier :: !CanEnroll(cfg.sequenceFor(t)) {
      forall actions ensures EnrolledAtMostOnce(cfg, actions) {
        forall l | l in Run(cfg, INIT, actions).leads ensures |Run(cfg, INIT, actions).leads[l].enrollments| <= 1 {
          NobodyIsEnrolled(cfg, actions, l);
        }
      }
    } else if OneChannelAtMost(cfg.plan) {
      var channel := if c :| CanPlan(cfg.plan, c) then c else Email;
      forall actions ensures EnrolledAtMostOnce(cfg, actions) {
        forall l | l in Run(cfg, INIT, actions).leads ensures |Run(cfg, INIT, actions).leads[l].enrollments| <= 1 {
          OneChannelEnrollsOnce(cfg, actions, l, channel);
        }
      }
    } else {
      var actions := SomebodyIsEnrolledTwice(cfg);
      assert !EnrolledAtMostOnce(cfg, actions);
    }
  }

  lemma SomebodyIsEnrolledTwice(cfg: Config) returns (actions: seq<Action>)
    requires cfg.sequenceFor(Unfit).None? && !NoWayBack(Targets(cfg)) && !OneChannelAtMost(cfg.plan)
    requires exists t: Tier :: CanEnroll(cfg.sequenceFor(t))
    ensures !EnrolledAtMostOnce(cfg, actions)
  {
    var status :| status in Targets(cfg) && !status.Contacted? && !Leaving(status);
    var rule :| rule in cfg.inbound && FindRule(cfg.inbound, rule.property, rule.value) == Some(rule.status)
                && rule.status == status;
    var tier: Tier :| CanEnroll(cfg.sequenceFor(tier));
    var c, d :| CanPlan(cfg.plan, c) && CanPlan(cfg.plan, d) && c != d;
    var tm: Tier :| !tm.Unfit? && PlansChannel(cfg.plan.tiers(tm), c);
    var m :| m in cfg.plan.tiers(tm).messages && m.channel == c;
    var tn: Tier :| !tn.Unfit? && PlansChannel(cfg.plan.tiers(tn), d);
    var n :| n in cfg.plan.tiers(tn).messages && n.channel == d;
    RuleEnrollsTwice(cfg, m, tm, n, tn, tier, rule);
    actions := TwoRounds(m, tm, n, tn, tier, rule);
  }

  // ----- Contact after leaving -----

  /** An attempt for this job that reads at the end of `after`, its lead having left by `before`, does not go ahead. */
  predicate NotContacted(cfg: Config, before: seq<Action>, after: seq<Action>, job: MessageJob) {
    var s, s' := Run(cfg, INIT, before), Run(cfg, INIT, before + after);
    && job.lead in s.leads && Leaving(s.leads[job.lead].status)
    && !job.kind.RepAlertMessage? && Deliverable(s'.planned, job)
    ==> !CheckOf(s', job).Proceed?
  }

  /** Where nothing can be planned, nothing is sent but rep alerts. */
  lemma NothingPlannedNothingSent(cfg: Config, actions: seq<Action>, job: MessageJob)
    requires forall c :: !CanPlan(cfg.plan, c)
    requires !job.kind.RepAlertMessage? && Deliverable(Run(cfg, INIT, actions).planned, job)
    ensures !CheckOf(Run(cfg, INIT, actions), job).Proceed?
  {
    hide Machine.Next;
    var s := Run(cfg, INIT, actions);
    RunKeepsPlanned(cfg, actions);
    if job.kind.FollowUpMessage? && EnrollmentActive(s, job.enrollment) {
      OneChannelEnrollsOnce(cfg, actions, job.enrollment.value.lead, Email);
    }
  }

  const REPLIED: Id := Name(20)

  /** Captured and planned on `m`'s channel, then replied. */
  function PlannedThenReplied(m: Planned, tm: Tier): seq<Action> {
    [Form(FORM, None, CAPTURED)] + PlanRound(LabelsFrom(5), tm) + [ReceiveReply(LEAD, Email, "1", false, REPLIED)]
  }

  function KeysOfReplied(): set<DedupeKey> {
    var x := LabelsFrom(5);
    {Captured("website", FORM)} + {Captured("website", x.n1), Scored(x.cap1)} + {Reply(Email, "1")}
  }

  function IdsOfReplied(): set<Id> {
    var x := LabelsFrom(5);
    {LEAD, CAPTURED} + {x.cap1, x.sc1} + {REPLIED}
  }

  lemma RepliedIsNew()
    ensures REPLIED !in {LEAD, CAPTURED} + {LabelsFrom(5).cap1, LabelsFrom(5).sc1}
  {
    var x := LabelsFrom(5);
    assert |REPLIED| == 20 && |x.cap1| == 6 && |x.sc1| == 7 && |LEAD| == 4 && |CAPTURED| == 1;
  }

  lemma AfterReplied(cfg: Config, m: Planned, tm: Tier)
    requires m in cfg.plan.tiers(tm).messages && m.channel in cfg.plan.providers && !tm.Unfit?
    ensures
      var s := Run(cfg, INIT, PlannedThenReplied(m, tm));
      OneLead(s, Engaged, Some(tm), 0, KeysOfReplied(), IdsOfReplied()) && FirstContactJob(LEAD, m) in s.planned
  {
    hide Machine.Next;
    var x := LabelsFrom(5);
    var keys: set<DedupeKey>, ids := {Captured("website", FORM)}, {LEAD, CAPTURED};
    FirstNames();
    AfterFirstForm(cfg, FORM, CAPTURED);
    var start := [Form(FORM, None, CAPTURED)];
    AfterPlanRound(cfg, start, x, m, tm, New, None, 0, keys, ids);
    RepliedIsNew();
    AfterReply(cfg, start + PlanRound(x, tm), REPLIED, Qualified, Some(tm),
               keys + {Captured("website", x.n1), Scored(x.cap1)}, ids + {x.cap1, x.sc1});
    PlannedStays(cfg, start + PlanRound(x, tm), [ReceiveReply(LEAD, Email, "1", false, REPLIED)]);
  }

  const BACK: Id := Name(21)

  /** The rule takes the lead back; if that is to before its first contact, it is submitted and scored again. */
  function Back(tm: Tier, rule: Rule): seq<Action> {
    [CrmUpdate(LEAD, "1", rule.property, rule.value, BACK)]
    + if PreContact(rule.status) then Rescoring(Name(22), Name(23), tm, Name(24)) else []
  }

  lemma BackIsNew()
    ensures BACK !in IdsOfReplied() && Crm("1") !in KeysOfReplied()
    ensures Name(23) !in IdsOfReplied() + {BACK} && Name(24) !in IdsOfReplied() + {BACK} && Name(23) != Name(24)
    ensures Captured("website", Name(22)) !in KeysOfReplied() + {Crm("1")}
    ensures Scored(Name(23)) !in KeysOfReplied() + {Crm("1")}
  {
    var x := LabelsFrom(5);
    assert |REPLIED| == 20 && |x.cap1| == 6 && |x.sc1| == 7 && |LEAD| == 4 && |CAPTURED| == 1 && |BACK| == 21;
    assert |Name(22)| == 22 && |Name(23)| == 23 && |Name(24)| == 24 && |x.n1| == 5 && |FORM| == 1;
  }

  function StatusOfBack(rule: Rule): Status {
    if PreContact(rule.status) then Qualified else Contacted
  }

  function KeysOfBack(rule: Rule): set<DedupeKey> {
    var keys := KeysOfReplied() + {Crm("1")};
    if PreContact(rule.status) then keys + {Captured("website", Name(22)), Scored(Name(23))} else keys
  }

  function IdsOfBack(rule: Rule): set<Id> {
    var ids := IdsOfReplied() + {BACK};
    if PreContact(rule.status) then ids + {Name(23), Name(24)} else ids
  }

  lemma AfterBack(cfg: Config, m: Planned, tm: Tier, rule: Rule)
    requires m in cfg.plan.tiers(tm).messages && m.channel in cfg.plan.providers && !tm.Unfit?
    requires FindRule(cfg.inbound, rule.property, rule.value) == Some(rule.status) && !Leaving(rule.status)
    ensures OneLead(Run(cfg, INIT, PlannedThenReplied(m, tm) + Back(tm, rule)), StatusOfBack(rule), Some(tm), 0,
                    KeysOfBack(rule), IdsOfBack(rule))
  {
    hide Machine.Next;
    var before := PlannedThenReplied(m, tm);
    var change := [CrmUpdate(LEAD, "1", rule.property, rule.value, BACK)];
    AfterReplied(cfg, m, tm);
    BackIsNew();
    AfterRule(cfg, before, rule, BACK, Engaged, Some(tm), 0, KeysOfReplied(), IdsOfReplied());
    if PreContact(rule.status) {
      AfterRescoring(cfg, before + change, Name(22), Name(23), tm, Name(24), rule.status, Some(tm), 0,
                     KeysOfReplied() + {Crm("1")}, IdsOfReplied() + {BACK});
      assert before + Back(tm, rule) == before + change + Rescoring(Name(22), Name(23), tm, Name(24));
    } else {
      assert before + Back(tm, rule) == before + change;
    }
  }

  lemma BackLeavesKeyFree(m: Planned, rule: Rule)
    ensures FirstContact(LEAD, m.channel) !in KeysOfBack(rule)
  {
  }

  /** A message planned before the lead replied goes out after a rule took the lead back. */
  lemma RuleContactsAgain(cfg: Config, m: Planned, tm: Tier, rule: Rule)
    requires m in cfg.plan.tiers(tm).messages && m.channel in cfg.plan.providers && !tm.Unfit?
    requires FindRule(cfg.inbound, rule.property, rule.value) == Some(rule.status) && !Leaving(rule.status)
    ensures !NotContacted(cfg, PlannedThenReplied(m, tm), Back(tm, rule), FirstContactJob(LEAD, m))
  {
    hide Machine.Next;
    AfterReplied(cfg, m, tm);
    AfterBack(cfg, m, tm, rule);
    PlannedStays(cfg, PlannedThenReplied(m, tm), Back(tm, rule));
    var s := Run(cfg, INIT, PlannedThenReplied(m, tm) + Back(tm, rule));
    BackLeavesKeyFree(m, rule);
    assert CheckOf(s, FirstContactJob(LEAD, m)).Proceed?;
  }

  /**
   Nobody is ever contacted after leaving, in any run, if and only if every effective CRM rule targets
   a status of leads that left, or no first contact can be planned at all.
   */
  lemma NoContactAfterLeavingExactly(cfg: Config)
    ensures (forall before, after, job :: NotContacted(cfg, before, after, job))
       <==> (forall t :: t in Targets(cfg) ==> Leaving(t)) || (forall c :: !CanPlan(cfg.plan, c))
  {
    hide Machine.Next;
    if forall t :: t in Targets(cfg) ==> Leaving(t) {
      forall before, after, job ensures NotContacted(cfg, before, after, job) {
        LeftIsNotContacted(cfg, before, after, job);
      }
    } else if forall c :: !CanPlan(cfg.plan, c) {
      forall before, after, job ensures NotContacted(cfg, before, after, job) {
        if !job.kind.RepAlertMessage? && Deliverable(Run(cfg, INIT, before + after).planned, job) {
          NothingPlannedNothingSent(cfg, before + after, job);
        }
      }
    } else {
      var t :| t in Targets(cfg) && !Leaving(t);
      var rule :| rule in cfg.inbound && FindRule(cfg.inbound, rule.property, rule.value) == Some(rule.status)
                  && rule.status == t;
      var c :| CanPlan(cfg.plan, c);
      var tm: Tier :| !tm.Unfit? && PlansChannel(cfg.plan.tiers(tm), c);
      var m :| m in cfg.plan.tiers(tm).messages && m.channel == c;
      RuleContactsAgain(cfg, m, tm, rule);
    }
  }

  lemma LeftIsNotContacted(cfg: Config, before: seq<Action>, after: seq<Action>, job: MessageJob)
    requires forall t :: t in Targets(cfg) ==> Leaving(t)
    ensures NotContacted(cfg, before, after, job)
  {
    hide Machine.Next;
    var s := Run(cfg, INIT, before);
    if job.lead in s.leads && Leaving(s.leads[job.lead].status) && !job.kind.RepAlertMessage? {
      NoContactAfterLeaving(cfg, before, after, job);
    }
  }
}
