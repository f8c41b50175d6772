/** Runs of one lead, built step by step: what the store looks like after each, for any names. */
module LeadRuns {
  import opened Base
  import opened Contacts
  import opened Keys
  import opened Leads
  import opened Machine
  import opened Plans
  import opened Steps
  import opened EnrollmentKeys

  const LEAD: Id := "lead"

  const SUBMISSION: Profile :=
    Profile(None, None, Contact(Some("ana@example.com"), Some("+5511999990000")), None, None, None, map[], true, true)

  /** The store holds this one lead and nothing is under way; `keys` and `ids` are taken. */
  predicate OneLead(s: State, status: Status, tier: Option<Tier>, enrolled: nat, keys: set<DedupeKey>, ids: set<Id>) {
    && s.leads.Keys == {LEAD} && s.leads[LEAD].id == LEAD && s.leads[LEAD].profile == SUBMISSION
    && s.leads[LEAD].status == status && s.leads[LEAD].tier == tier && |s.leads[LEAD].enrollments| == enrolled
    && s.suppressed == {} && s.attempts == map[] && s.index.Keys == keys && s.issued == ids
  }

  function Form(n: string, found: Option<Id>, ev: Id): Action {
    Submit("website", n, SUBMISSION, found, LEAD, ev, 0)
  }

  lemma AfterFirstForm(cfg: Config, n: string, ev: Id)
    requires ev != LEAD
    ensures OneLead(Run(cfg, INIT, [Form(n, None, ev)]), New, None, 0, {Captured("website", n)}, {LEAD, ev})
  {
    RunTakes(cfg, [], Form(n, None, ev));
    assert [] + [Form(n, None, ev)] == [Form(n, None, ev)];
    CreateTakes(cfg, INIT, Form(n, None, ev));
  }

  /** The same person submits again. */
  lemma AfterAnotherForm(cfg: Config, before: seq<Action>, n: string, ev: Id, status: Status, tier: Option<Tier>,
                         enrolled: nat, keys: set<DedupeKey>, ids: set<Id>)
    requires OneLead(Run(cfg, INIT, before), status, tier, enrolled, keys, ids)
    requires ev !in ids && Captured("website", n) !in keys
    ensures
      var s := Run(cfg, INIT, before + [Form(n, Some(LEAD), ev)]);
      && OneLead(s, status, tier, enrolled, keys + {Captured("website", n)}, ids + {ev})
      && QualifyJob(LEAD, ev) in s.pending
  {
    RunTakes(cfg, before, Form(n, Some(LEAD), ev));
    MergeTakes(cfg, Run(cfg, INIT, before), Form(n, Some(LEAD), ev));
    MergeProfileLaws(SUBMISSION, SUBMISSION, SUBMISSION);
  }

  function Scoring(captured: Id, tier: Tier, ev: Id): seq<Action> {
    [Enqueue(QualifyJob(LEAD, captured)), Qualify(QualifyJob(LEAD, captured), 0, tier, ev)]
  }

  lemma RunTakesTwo(cfg: Config, before: seq<Action>, a: Action, b: Action)
    ensures Run(cfg, INIT, before + [a, b]) == Next(cfg, Next(cfg, Run(cfg, INIT, before), a), b)
  {
    RunTakes(cfg, before, a);
    RunTakes(cfg, before + [a], b);
    assert before + [a, b] == before + [a] + [b];
  }

  lemma AfterScoring(cfg: Config, before: seq<Action>, captured: Id, newTier: Tier, ev: Id,
                     status: Status, tier: Option<Tier>, enrolled: nat, keys: set<DedupeKey>, ids: set<Id>)
    requires OneLead(Run(cfg, INIT, before), status, tier, enrolled, keys, ids) && PreContact(status) && !newTier.Unfit?
    requires QualifyJob(LEAD, captured) in Run(cfg, INIT, before).pending
    requires ev !in ids && Scored(captured) !in keys
    ensures
      var s := Run(cfg, INIT, before + Scoring(captured, newTier, ev));
      && OneLead(s, Qualified, Some(newTier), enrolled, keys + {Scored(captured)}, ids + {ev})
      && PlanJob(LEAD, ev, 0, newTier) in s.pending
  {
    var job := QualifyJob(LEAD, captured);
    var s := Run(cfg, INIT, before);
    RunTakesTwo(cfg, before, Enqueue(job), Qualify(job, 0, newTier, ev));
    EnqueueTakes(cfg, s, job);
    ScoreTakes(cfg, s.(enqueued := s.enqueued + {job}), Qualify(job, 0, newTier, ev));
  }

  /** Submitted again and scored again. */
  function Rescoring(n: string, captured: Id, tier: Tier, ev: Id): seq<Action> {
    [Form(n, Some(LEAD), captured)] + Scoring(captured, tier, ev)
  }

  lemma AfterRescoring(cfg: Config, before: seq<Action>, n: string, captured: Id, newTier: Tier, ev: Id,
                       status: Status, tier: Option<Tier>, enrolled: nat, keys: set<DedupeKey>, ids: set<Id>)
    requires OneLead(Run(cfg, INIT, before), status, tier, enrolled, keys, ids) && PreContact(status) && !newTier.Unfit?
    requires captured !in ids && ev !in ids && ev != captured && Captured("website", n) !in keys
    requires Scored(captured) !in keys
    ensures
      var s := Run(cfg, INIT, before + Rescoring(n, captured, newTier, ev));
      && OneLead(s, Qualified, Some(newTier), enrolled,
                 keys + {Captured("website", n), Scored(captured)}, ids + {captured, ev})
      && PlanJob(LEAD, ev, 0, newTier) in s.pending
  {
    hide Machine.Next;
    AfterAnotherForm(cfg, before, n, captured, status, tier, enrolled, keys, ids);
    var formed := before + [Form(n, Some(LEAD), captured)];
    AfterScoring(cfg, formed, captured, newTier, ev, status, tier, enrolled,
                 keys + {Captured("website", n)}, ids + {captured});
    assert formed + Scoring(captured, newTier, ev) == before + Rescoring(n, captured, newTier, ev);
    assert keys + {Captured("website", n)} + {Scored(captured)} == keys + {Captured("website", n), Scored(captured)};
    assert ids + {captured} + {ev} == ids + {captured, ev};
  }

  function Planning(tier: Tier, ev: Id): seq<Action> {
    [Enqueue(PlanJob(LEAD, ev, 0, tier)), PlanContacts(PlanJob(LEAD, ev, 0, tier))]
  }

  /** The planner plans the message, whatever else it plans. */
  lemma AfterPlanning(cfg: Config, before: seq<Action>, m: Planned, tier: Tier, ev: Id, enrolled: nat,
                      keys: set<DedupeKey>, ids: set<Id>)
    requires OneLead(Run(cfg, INIT, before), Qualified, Some(tier), enrolled, keys, ids) && !tier.Unfit?
    requires PlanJob(LEAD, ev, 0, tier) in Run(cfg, INIT, before).pending
    requires m in cfg.plan.tiers(tier).messages && m.channel in cfg.plan.providers
    requires FirstContact(LEAD, m.channel) !in keys
    ensures
      var s := Run(cfg, INIT, before + Planning(tier, ev));
      OneLead(s, Qualified, Some(tier), enrolled, keys, ids) && FirstContactJob(LEAD, m) in s.planned
  {
    hide Machine.Next;
    var job := PlanJob(LEAD, ev, 0, tier);
    var s := Run(cfg, INIT, before);
    RunTakesTwo(cfg, before, Enqueue(job), PlanContacts(job));
    EnqueueTakes(cfg, s, job);
    PlanTakes(cfg, s.(enqueued := s.enqueued + {job}), job);
    PlanMessagesHolds(s.index.Keys, s.leads[LEAD], cfg.plan.tiers(tier).messages, cfg.plan.providers,
        FirstContactJob(LEAD, m));
    assert Plans.Wanted(s.index.Keys, s.leads[LEAD], m, cfg.plan.providers);
  }

  lemma CheckGoesAhead(cfg: Config, s: State, m: Planned, attempt: Id, tier: Tier, enrolled: nat,
                       keys: set<DedupeKey>, ids: set<Id>)
    requires OneLead(s, Qualified, Some(tier), enrolled, keys, ids) && FirstContactJob(LEAD, m) in s.planned
    requires attempt !in ids && FirstContact(LEAD, m.channel) !in keys
    ensures
      var t := Attempt(FirstContactJob(LEAD, m), Some(tier), ChannelAddress(SUBMISSION, m.channel), false);
      Next(cfg, s, CheckSend(attempt, FirstContactJob(LEAD, m))) ==
          s.(attempts := map[attempt := t], issued := ids + {attempt})
  {
    CheckTakes(cfg, s, attempt, FirstContactJob(LEAD, m));
    assert CheckOf(s, FirstContactJob(LEAD, m)) == Proceed(Some(tier), ChannelAddress(SUBMISSION, m.channel));
  }

  lemma CallIsAccepted(cfg: Config, s: State, attempt: Id, t: Attempt, ev: Id)
    requires s.attempts == map[attempt := t] && !t.accepted && Given(t.to)
    ensures
      var s' := Next(cfg, s, CallProvider(attempt, true, false, false, ev));
      s' == s.(attempts := map[attempt := t.(accepted := true)], history := s'.history)
  {
    AcceptTakes(cfg, s, CallProvider(attempt, true, false, false, ev));
  }

  function Contacting(m: Planned, attempt: Id, ev: Id): seq<Action> {
    [CheckSend(attempt, FirstContactJob(LEAD, m)), CallProvider(attempt, true, false, false, ev)]
  }

  lemma AfterCall(cfg: Config, before: seq<Action>, m: Planned, attempt: Id, ev: Id,
                  tier: Tier, enrolled: nat, keys: set<DedupeKey>, ids: set<Id>)
    requires OneLead(Run(cfg, INIT, before), Qualified, Some(tier), enrolled, keys, ids)
    requires FirstContactJob(LEAD, m) in Run(cfg, INIT, before).planned
    requires attempt !in ids && FirstContact(LEAD, m.channel) !in keys
    ensures
      var s := Run(cfg, INIT, before + Contacting(m, attempt, ev));
      var s0 := Run(cfg, INIT, before);
      var t := Attempt(FirstContactJob(LEAD, m), Some(tier), ChannelAddress(SUBMISSION, m.channel), true);
      s == s0.(attempts := map[attempt := t], issued := ids + {attempt}, history := s.history)
  {
    var s := Run(cfg, INIT, before);
    RunTakesTwo(cfg, before, CheckSend(attempt, FirstContactJob(LEAD, m)),
        CallProvider(attempt, true, false, false, ev));
    CheckGoesAhead(cfg, s, m, attempt, tier, enrolled, keys, ids);
    var t := Attempt(FirstContactJob(LEAD, m), Some(tier), ChannelAddress(SUBMISSION, m.channel), false);
    CallIsAccepted(cfg, s.(attempts := map[attempt := t], issued := ids + {attempt}), attempt, t, ev);
  }

  lemma AfterContact(cfg: Config, before: seq<Action>, m: Planned, attempt: Id, ev: Id,
                     tier: Tier, enrolled: nat, keys: set<DedupeKey>, ids: set<Id>)
    requires OneLead(Run(cfg, INIT, before), Qualified, Some(tier), enrolled, keys, ids)
    requires CanEnroll(cfg.sequenceFor(tier))
    requires FirstContactJob(LEAD, m) in Run(cfg, INIT, before).planned
    requires attempt !in ids && ev !in ids && attempt != ev && FirstContact(LEAD, m.channel) !in keys
    ensures OneLead(Run(cfg, INIT, before + Contacting(m, attempt, ev) + [CommitSend(attempt, ev, 0)]),
                    Contacted, Some(tier), enrolled + 1, keys + {FirstContact(LEAD, m.channel)}, ids + {attempt, ev})
  {
    AfterCall(cfg, before, m, attempt, ev, tier, enrolled, keys, ids);
    var called := before + Contacting(m, attempt, ev);
    RunTakes(cfg, called, CommitSend(attempt, ev, 0));
    RecordTakes(cfg, Run(cfg, INIT, called), CommitSend(attempt, ev, 0));
    assert ids + {attempt} + {ev} == ids + {attempt, ev};
  }

  lemma AfterRule(cfg: Config, before: seq<Action>, rule: Rule, ev: Id,
                  status: Status, tier: Option<Tier>, enrolled: nat, keys: set<DedupeKey>, ids: set<Id>)
    requires OneLead(Run(cfg, INIT, before), status, tier, enrolled, keys, ids) && ev !in ids && Crm("1") !in keys
    requires FindRule(cfg.inbound, rule.property, rule.value) == Some(rule.status) && rule.status != status
    ensures OneLead(Run(cfg, INIT, before + [CrmUpdate(LEAD, "1", rule.property, rule.value, ev)]),
                    rule.status, tier, enrolled, keys + {Crm("1")}, ids + {ev})
  {
    var s := Run(cfg, INIT, before);
    var a := CrmUpdate(LEAD, "1", rule.property, rule.value, ev);
    RunTakes(cfg, before, a);
    CrmEffect(cfg, s, LEAD, "1", rule.property, rule.value, ev);
    PlainStep(cfg, s, a);
  }

  lemma AfterReply(cfg: Config, before: seq<Action>, ev: Id,
                   status: Status, tier: Option<Tier>, keys: set<DedupeKey>, ids: set<Id>)
    requires OneLead(Run(cfg, INIT, before), status, tier, 0, keys, ids) && Engageable(status)
    requires ev !in ids && Reply(Email, "1") !in keys
    ensures OneLead(Run(cfg, INIT, before + [ReceiveReply(LEAD, Email, "1", false, ev)]),
                    Engaged, tier, 0, keys + {Reply(Email, "1")}, ids + {ev})
  {
    var s := Run(cfg, INIT, before);
    var a := ReceiveReply(LEAD, Email, "1", false, ev);
    RunTakes(cfg, before, a);
    ReplyEffect(cfg, s, LEAD, Email, "1", false, ev);
    PlainStep(cfg, s, a);
  }

  /** Plans are never taken back. */
  lemma {:induction false} PlannedStays(cfg: Config, before: seq<Action>, after: seq<Action>)
    ensures Run(cfg, INIT, before).planned <= Run(cfg, INIT, before + after).planned
  {
    hide Machine.Next;
    if after == [] {
      assert before + after == before;
    } else {
      var last := |after| - 1;
      PlannedStays(cfg, before, after[..last]);
      assert (before + after)[..|before + after| - 1] == before + after[..last];
      NextKeepsPlans(cfg, Run(cfg, INIT, before + after[..last]), after[last]);
    }
  }

  lemma AroundKeepsPlans(cfg: Config, s: State, a: Action, e: Effect, s': State)
    requires OnlyRows(s, s')
    ensures s.planned <= Around(cfg, s, a, e, s').planned
  {
  }

  lemma NextKeepsPlans(cfg: Config, s: State, a: Action)
    ensures s.planned <= Next(cfg, s, a).planned
  {
    PerformsOnlyRows(s, EffectOf(cfg, s, a));
    AroundKeepsPlans(cfg, s, a, EffectOf(cfg, s, a), Perform(s, EffectOf(cfg, s, a)));
  }

  // ----- Planned, scored for a tier that enrolls, and contacted -----

  /** Names of two submissions, their events, and a send. */
  datatype Labels = Labels(n1: string, cap1: Id, sc1: Id, n2: string, cap2: Id, sc2: Id, attempt: Id, sent: Id)

  function KeysOfLabels(x: Labels): set<DedupeKey> {
    {Captured("website", x.n1), Scored(x.cap1)} + {Captured("website", x.n2), Scored(x.cap2)}
  }

  function IdsOfLabels(x: Labels): set<Id> {
    {x.cap1, x.sc1} + {x.cap2, x.sc2} + {x.attempt, x.sent}
  }

  /** The names are all different, and none is taken. */
  predicate Usable(x: Labels, keys: set<DedupeKey>, ids: set<Id>) {
    && x.n1 != x.n2 && x.cap1 != x.sc1 && x.cap1 != x.cap2 && x.cap1 != x.sc2 && x.sc1 != x.cap2 && x.sc1 != x.sc2
    && x.cap2 != x.sc2 && x.attempt != x.sent
    && x.attempt !in {x.cap1, x.sc1, x.cap2, x.sc2} && x.sent !in {x.cap1, x.sc1, x.cap2, x.sc2}
    && IdsOfLabels(x) !! ids && KeysOfLabels(x) !! keys
  }

  function PlanRound(x: Labels, planTier: Tier): seq<Action> {
    Rescoring(x.n1, x.cap1, planTier, x.sc1) + Planning(planTier, x.sc1)
  }

  lemma AfterPlanRound(cfg: Config, before: seq<Action>, x: Labels, m: Planned, planTier: Tier,
                       status: Status, tier: Option<Tier>, enrolled: nat, keys: set<DedupeKey>, ids: set<Id>)
    requires OneLead(Run(cfg, INIT, before), status, tier, enrolled, keys, ids) && PreContact(status)
    requires Usable(x, keys, ids) && FirstContact(LEAD, m.channel) !in keys && !planTier.Unfit?
    requires m in cfg.plan.tiers(planTier).messages && m.channel in cfg.plan.providers
    ensures
      var s := Run(cfg, INIT, before + PlanRound(x, planTier));
      && OneLead(s, Qualified, Some(planTier), enrolled,
                 keys + {Captured("website", x.n1), Scored(x.cap1)}, ids + {x.cap1, x.sc1})
      && FirstContactJob(LEAD, m) in s.planned
  {
    hide Machine.Next;
    assert x.cap1 in IdsOfLabels(x) && x.sc1 in IdsOfLabels(x);
    assert Captured("website", x.n1) in KeysOfLabels(x) && Scored(x.cap1) in KeysOfLabels(x);
    AfterRescoring(cfg, before, x.n1, x.cap1, planTier, x.sc1, status, tier, enrolled, keys, ids);
    var scored := before + Rescoring(x.n1, x.cap1, planTier, x.sc1);
    AfterPlanning(cfg, scored, m, planTier, x.sc1, enrolled,
                  keys + {Captured("website", x.n1), Scored(x.cap1)}, ids + {x.cap1, x.sc1});
    assert scored + Planning(planTier, x.sc1) == before + PlanRound(x, planTier);
  }

  function SendRound(x: Labels, m: Planned, tier: Tier): seq<Action> {
    Rescoring(x.n2, x.cap2, tier, x.sc2) + (Contacting(m, x.attempt, x.sent) + [CommitSend(x.attempt, x.sent, 0)])
  }

  /** What is left of `Usable` for a send round. */
  predicate SendUsable(x: Labels, m: Planned, keys: set<DedupeKey>, ids: set<Id>) {
    && x.cap2 !in ids && x.sc2 !in ids && x.attempt !in ids && x.sent !in ids
    && x.cap2 != x.sc2 && x.attempt != x.sent && x.attempt !in {x.cap2, x.sc2} && x.sent !in {x.cap2, x.sc2}
    && Captured("website", x.n2) !in keys && Scored(x.cap2) !in keys && FirstContact(LEAD, m.channel) !in keys
  }

  lemma AfterSendRound(cfg: Config, before: seq<Action>, x: Labels, m: Planned, sendTier: Tier,
                       status: Status, tier: Option<Tier>, enrolled: nat, keys: set<DedupeKey>, ids: set<Id>)
    requires OneLead(Run(cfg, INIT, before), status, tier, enrolled, keys, ids) && PreContact(status)
    requires FirstContactJob(LEAD, m) in Run(cfg, INIT, before).planned && SendUsable(x, m, keys, ids)
    requires !sendTier.Unfit? && CanEnroll(cfg.sequenceFor(sendTier))
    ensures OneLead(Run(cfg, INIT, before + SendRound(x, m, sendTier)), Contacted, Some(sendTier), enrolled + 1,
                    keys + {Captured("website", x.n2), Scored(x.cap2)} + {FirstContact(LEAD, m.channel)},
                    ids + {x.cap2, x.sc2} + {x.attempt, x.sent})
  {
    hide Machine.Next;
    RescoringKeepsPlan(cfg, before, x, m, sendTier, status, tier, enrolled, keys, ids);
    AfterRescored(cfg, before + Rescoring(x.n2, x.cap2, sendTier, x.sc2), m, x.attempt, x.sent, sendTier, enrolled,
                  keys + {Captured("website", x.n2), Scored(x.cap2)}, ids + {x.cap2, x.sc2});
    assert before + Rescoring(x.n2, x.cap2, sendTier, x.sc2) +
        (Contacting(m, x.attempt, x.sent) + [CommitSend(x.attempt, x.sent, 0)])
        == before + SendRound(x, m, sendTier);
  }

  lemma RescoringKeepsPlan(cfg: Config, before: seq<Action>, x: Labels, m: Planned, sendTier: Tier,
                           status: Status, tier: Option<Tier>, enrolled: nat, keys: set<DedupeKey>, ids: set<Id>)
    requires OneLead(Run(cfg, INIT, before), status, tier, enrolled, keys, ids) && PreContact(status)
    requires FirstContactJob(LEAD, m) in Run(cfg, INIT, before).planned && SendUsable(x, m, keys, ids)
    requires !sendTier.Unfit?
    ensures
      var s := Run(cfg, INIT, before + Rescoring(x.n2, x.cap2, sendTier, x.sc2));
      && OneLead(s, Qualified, Some(sendTier), enrolled,
                 keys + {Captured("website", x.n2), Scored(x.cap2)}, ids + {x.cap2, x.sc2})
      && FirstContactJob(LEAD, m) in s.planned
  {
    hide Machine.Next;
    AfterRescoring(cfg, before, x.n2, x.cap2, sendTier, x.sc2, status, tier, enrolled, keys, ids);
    PlannedStays(cfg, before, Rescoring(x.n2, x.cap2, sendTier, x.sc2));
  }

  lemma AfterRescored(cfg: Config, before: seq<Action>, m: Planned, attempt: Id, sent: Id,
                      tier: Tier, enrolled: nat, keys: set<DedupeKey>, ids: set<Id>)
    requires OneLead(Run(cfg, INIT, before), Qualified, Some(tier), enrolled, keys, ids)
    requires CanEnroll(cfg.sequenceFor(tier))
    requires FirstContactJob(LEAD, m) in Run(cfg, INIT, before).planned
    requires attempt !in ids && sent !in ids && attempt != sent && FirstContact(LEAD, m.channel) !in keys
    ensures OneLead(Run(cfg, INIT, before + (Contacting(m, attempt, sent) + [CommitSend(attempt, sent, 0)])),
                    Contacted, Some(tier), enrolled + 1, keys + {FirstContact(LEAD, m.channel)}, ids + {attempt, sent})
  {
    AfterContact(cfg, before, m, attempt, sent, tier, enrolled, keys, ids);
    assert before + (Contacting(m, attempt, sent) + [CommitSend(attempt, sent, 0)])
        == before + Contacting(m, attempt, sent) + [CommitSend(attempt, sent, 0)];
  }

  function Round(x: Labels, m: Planned, planTier: Tier, sendTier: Tier): seq<Action> {
    PlanRound(x, planTier) + SendRound(x, m, sendTier)
  }

  lemma AfterRound(cfg: Config, before: seq<Action>, x: Labels, m: Planned, planTier: Tier, sendTier: Tier,
                   status: Status, tier: Option<Tier>, enrolled: nat, keys: set<DedupeKey>, ids: set<Id>)
    requires OneLead(Run(cfg, INIT, before), status, tier, enrolled, keys, ids) && PreContact(status)
    requires Usable(x, keys, ids) && FirstContact(LEAD, m.channel) !in keys && !planTier.Unfit? && !sendTier.Unfit?
    requires CanEnroll(cfg.sequenceFor(sendTier))
    requires m in cfg.plan.tiers(planTier).messages && m.channel in cfg.plan.providers
    ensures OneLead(Run(cfg, INIT, before + Round(x, m, planTier, sendTier)), Contacted, Some(sendTier), enrolled + 1,
                    keys + KeysOfLabels(x) + {FirstContact(LEAD, m.channel)}, ids + IdsOfLabels(x))
  {
    hide Machine.Next;
    AfterPlanRound(cfg, before, x, m, planTier, status, tier, enrolled, keys, ids);
    var planned := before + PlanRound(x, planTier);
    var keys1, ids1 := keys + {Captured("website", x.n1), Scored(x.cap1)}, ids + {x.cap1, x.sc1};
    UsableAfterPlan(x, m, keys, ids);
    AfterSendRound(cfg, planned, x, m, sendTier, Qualified, Some(planTier), enrolled, keys1, ids1);
    assert planned + SendRound(x, m, sendTier) == before + Round(x, m, planTier, sendTier);
    assert keys1 + {Captured("website", x.n2), Scored(x.cap2)} == keys + KeysOfLabels(x);
    assert ids1 + {x.cap2, x.sc2} + {x.attempt, x.sent} == ids + IdsOfLabels(x);
  }

  lemma UsableAfterPlan(x: Labels, m: Planned, keys: set<DedupeKey>, ids: set<Id>)
    requires Usable(x, keys, ids) && FirstContact(LEAD, m.channel) !in keys
    ensures SendUsable(x, m, keys + {Captured("website", x.n1), Scored(x.cap1)}, ids + {x.cap1, x.sc1})
  {
    assert {x.cap2, x.sc2, x.attempt, x.sent} <= IdsOfLabels(x);
    assert Captured("website", x.n2) in KeysOfLabels(x) && Scored(x.cap2) in KeysOfLabels(x);
  }

  // ----- Names -----

  /** Nothing taken is as long as `length`. */
  predicate Shorter(keys: set<DedupeKey>, ids: set<Id>, length: nat) {
    && (forall k :: k in keys ==>
        (k.Captured? ==> |k.externalId| < length) && (k.Scored? ==> |k.capturedEvent| < length))
    && (forall id :: id in ids ==> |id| < length)
  }

  /** Eight names longer than anything taken. */
  function LabelsFrom(length: nat): Labels {
    Labels(Name(length), Name(length + 1), Name(length + 2), Name(length + 3), Name(length + 4), Name(length + 5),
           Name(length + 6), Name(length + 7))
  }

  lemma LongNamesAreUsable(keys: set<DedupeKey>, ids: set<Id>, length: nat)
    requires Shorter(keys, ids, length)
    ensures Usable(LabelsFrom(length), keys, ids)
    ensures Shorter(keys + KeysOfLabels(LabelsFrom(length)), ids + IdsOfLabels(LabelsFrom(length)), length + 8)
  {
    var x := LabelsFrom(length);
    assert |x.n1| == length && |x.cap1| == length + 1 && |x.sc1| == length + 2 && |x.n2| == length + 3;
    assert |x.cap2| == length + 4 && |x.sc2| == length + 5 && |x.attempt| == length + 6 && |x.sent| == length + 7;
    forall id | id in IdsOfLabels(x) ensures length < |id| < length + 8 && id !in ids {
    }
    forall k | k in KeysOfLabels(x) ensures k !in keys {
    }
  }

  /** A name of the given length. */
  function Name(length: nat): (name: string)
    ensures |name| == length
  {
    seq(length, i => 'x')
  }
}
