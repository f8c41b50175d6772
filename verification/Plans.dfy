/** First-contact plans: which messages a freshly qualified lead gets, given the keys already recorded. */
module Plans {
  import opened Base
  import opened Contacts
  import opened Keys
  import opened Leads

  datatype Planned = Planned(channel: Channel, template: string)

  /** What a tier gets: at most one message per channel, and an alert to the sales team. */
  datatype TierPlan = TierPlan(messages: seq<Planned>, alertTemplate: Option<string>)

  /** `alertTo` is the sales address; `providers` are the channels that have one. */
  datatype PlanConfig = PlanConfig(tiers: Tier -> TierPlan, providers: set<Channel>, alertTo: Option<string>)

  function FirstContactJob(lead: Id, m: Planned): MessageJob {
    MessageJob(lead, FirstContactMessage, m.channel, m.template, None, FirstContact(lead, m.channel), None)
  }

  function AlertJob(lead: Id, template: string, to: Option<string>): MessageJob {
    MessageJob(lead, RepAlertMessage, Email, template, to, RepAlert(lead), None)
  }

  predicate Wanted(taken: set<DedupeKey>, row: Row, m: Planned, providers: set<Channel>) {
    Eligible(row, m.channel) && m.channel in providers && Key<EnrollmentId>.FirstContact(row.id, m.channel) !in taken
  }

  function PlanMessages(taken: set<DedupeKey>, row: Row, messages: seq<Planned>,
      providers: set<Channel>): seq<MessageJob> {
    if messages == [] then []
    else
      var last := |messages| - 1;
      PlanMessages(taken, row, messages[..last], providers)
      + if Wanted(taken, row, messages[last], providers) then [FirstContactJob(row.id, messages[last])] else []
  }

  predicate Plannable(row: Row) {
    Contactable(row.status) && row.tier.Some? && !row.tier.value.Unfit?
  }

  function PlanAlert(taken: set<DedupeKey>, row: Row, plan: TierPlan, alertTo: Option<string>): seq<MessageJob> {
    if plan.alertTemplate.Some? && Given(alertTo) && Key<EnrollmentId>.RepAlert(row.id) !in taken
    then [AlertJob(row.id, plan.alertTemplate.value, alertTo)] else []
  }

  /** The jobs `planFirstContact` enqueues; by the lead's tier now, not the one in its job. */
  function Plan(taken: set<DedupeKey>, row: Row, config: PlanConfig): seq<MessageJob> {
    if !Plannable(row) then []
    else
      var plan := config.tiers(row.tier.value);
      PlanMessages(taken, row, plan.messages, config.providers) + PlanAlert(taken, row, plan, config.alertTo)
  }

  lemma {:induction false} PlanMessagesHolds(taken: set<DedupeKey>, row: Row, messages: seq<Planned>,
                                             providers: set<Channel>, job: MessageJob)
    ensures job in PlanMessages(taken, row, messages, providers) <==>
      exists m :: m in messages && Wanted(taken, row, m, providers) && job == FirstContactJob(row.id, m)
  {
    if messages == [] {
    } else {
      var last := |messages| - 1;
      PlanMessagesHolds(taken, row, messages[..last], providers, job);
      assert messages == messages[..last] + [messages[last]];
    }
  }

  /** The plan of the first messages is a prefix of the whole plan. */
  lemma {:induction false} PlanMessagesPrefix(taken: set<DedupeKey>, row: Row, messages: seq<Planned>, n: nat,
                                              providers: set<Channel>)
    requires n <= |messages|
    ensures PlanMessages(taken, row, messages[..n], providers) <= PlanMessages(taken, row, messages, providers)
  {
    if n == |messages| {
      assert messages[..n] == messages;
    } else {
      var last := |messages| - 1;
      PlanMessagesPrefix(taken, row, messages[..last], n, providers);
      assert messages[..last][..n] == messages[..n];
    }
  }

  lemma PlanMessagesStep(taken: set<DedupeKey>, row: Row, messages: seq<Planned>, n: nat, providers: set<Channel>)
    requires n < |messages|
    ensures PlanMessages(taken, row, messages[..n + 1], providers)
         == PlanMessages(taken, row, messages[..n], providers)
            + if Wanted(taken, row, messages[n], providers) then [FirstContactJob(row.id, messages[n])] else []
    ensures Wanted(taken, row, messages[n], providers) ==>
      FirstContactJob(row.id, messages[n]) in PlanMessages(taken, row, messages, providers)
    ensures PlanMessages(taken, row, messages[..n + 1], providers) <= PlanMessages(taken, row, messages, providers)
  {
    assert messages[..n + 1][..n] == messages[..n];
    PlanMessagesPrefix(taken, row, messages, n + 1, providers);
    if Wanted(taken, row, messages[n], providers) {
      assert FirstContactJob(row.id, messages[n]) in PlanMessages(taken, row, messages[..n + 1], providers);
    }
  }

  /** A first contact may be planned on this channel: some tier's plan has it, and it has a provider. */
  predicate CanPlan(config: PlanConfig, channel: Channel) {
    && channel in config.providers
    && exists t: Tier :: !t.Unfit? && PlansChannel(config.tiers(t), channel)
  }

  predicate PlansChannel(plan: TierPlan, channel: Channel) {
    exists m :: m in plan.messages && m.channel == channel
  }

  /** Every planned first contact is on a plannable channel, under its lead's key for it. */
  lemma PlannedOnPlanChannels(taken: set<DedupeKey>, row: Row, config: PlanConfig, job: MessageJob)
    requires job in Plan(taken, row, config) && job.kind.FirstContactMessage?
    ensures CanPlan(config, job.channel) && job.lead == row.id && job.key == FirstContact(row.id, job.channel)
  {
    var plan := config.tiers(row.tier.value);
    PlanMessagesHolds(taken, row, plan.messages, config.providers, job);
    assert PlansChannel(plan, job.channel);
  }
}
