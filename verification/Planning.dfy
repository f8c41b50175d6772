/** First contact: which messages a freshly qualified lead gets, and how that agrees with the send itself. */
module Planning {
  import opened Base
  import opened Contacts
  import opened Keys
  import opened Leads
  import opened Machine
  import opened Plans
  import opened Coupling
  import opened Store
  import opened Expectations
  import Sending

  /**
   Planner and sender agree: a first contact is planned exactly when the tier's plan has it, its
   channel has a provider, and the send itself would go ahead if it ran at once.
   */
  lemma PlanIsWhatWouldSend(s: State, lead: Id, config: PlanConfig, job: MessageJob)
    requires lead in s.leads && s.leads[lead].id == lead && Plannable(s.leads[lead])
    requires job.kind.FirstContactMessage?
    ensures job in Plan(s.index.Keys, s.leads[lead], config) <==>
      && Planned(job.channel, job.template) in config.tiers(s.leads[lead].tier.value).messages
      && job.channel in config.providers && job.lead == lead && job.to.None? && job.enrollment.None?
      && job.key == FirstContact(lead, job.channel) && CheckOf(s, job).Proceed?
  {
    TierHasPlan(s.leads[lead]);
    PlanIsExact(s.index.Keys, s.leads[lead], config, job);
    CheckIsExact(s, job);
  }

  /** Every planned job, alerts too, would go ahead at once, to an address that is there. */
  lemma PlannedJobsProceed(s: State, lead: Id, config: PlanConfig, job: MessageJob)
    requires lead in s.leads && s.leads[lead].id == lead && job in Plan(s.index.Keys, s.leads[lead], config)
    ensures CheckOf(s, job).Proceed? && Given(CheckOf(s, job).to) && IsMessageKey(job.key)
  {
    var row := s.leads[lead];
    PlanMessagesHolds(s.index.Keys, row, config.tiers(row.tier.value).messages, config.providers, job);
  }

  predicate DistinctChannels(messages: seq<Planned>) {
    forall i, j :: 0 <= i < j < |messages| ==> messages[i].channel != messages[j].channel
  }

  predicate DistinctJobs(jobs: seq<MessageJob>) {
    forall i, j :: 0 <= i < j < |jobs| ==> jobs[i].key != jobs[j].key
  }

  lemma {:induction false} PlanMessagesDistinct(taken: set<DedupeKey>, row: Row, messages: seq<Planned>,
      providers: set<Channel>)
    requires DistinctChannels(messages)
    ensures DistinctJobs(PlanMessages(taken, row, messages, providers))
  {
    if messages == [] {
    } else {
      var last := |messages| - 1;
      PlanMessagesDistinct(taken, row, messages[..last], providers);
      var before := PlanMessages(taken, row, messages[..last], providers);
      forall i | 0 <= i < |before| ensures before[i].key != FirstContactJob(row.id, messages[last]).key {
        PlanMessagesHolds(taken, row, messages[..last], providers, before[i]);
      }
    }
  }

  /** No two jobs of a plan share a key, so none is swallowed by another's job id. */
  lemma PlannedOncePerChannel(taken: set<DedupeKey>, row: Row, config: PlanConfig)
    requires row.tier.Some? ==> DistinctChannels(config.tiers(row.tier.value).messages)
    ensures DistinctJobs(Plan(taken, row, config))
  {
    if Plannable(row) {
      var messages := config.tiers(row.tier.value).messages;
      PlanMessagesDistinct(taken, row, messages, config.providers);
      var jobs := PlanMessages(taken, row, messages, config.providers);
      forall i | 0 <= i < |jobs| ensures jobs[i].key != RepAlert(row.id) {
        PlanMessagesHolds(taken, row, messages, config.providers, jobs[i]);
      }
    }
  }

  /** A channel that was contacted is never planned again, whatever the lead's tier becomes. */
  lemma ContactedChannelIsNotPlannedAgain(cfg: Config, before: seq<Action>, after: seq<Action>, lead: Id,
                                          key: DedupeKey, config: PlanConfig)
    requires key in Run(cfg, INIT, before).index && Run(cfg, INIT, before).index[key].lead == lead
    ensures
      var s := Run(cfg, INIT, before + after);
      lead in s.leads ==> forall job :: job in Plan(s.index.Keys, s.leads[lead], config) ==> job.key != key
  {
    hide Machine.Next;
    Sending.RecordedStaysRecorded(cfg, before, after, key);
    RunKeepsIndexed(cfg, before + after);
    var s := Run(cfg, INIT, before + after);
    if lead in s.leads {
      assert RowIndexed(s.index, lead, s.leads[lead]);
      forall job | job in Plan(s.index.Keys, s.leads[lead], config) ensures job.key != key {
        PlannedJobsProceed(s, lead, config, job);
      }
    }
  }

  /** Nothing is planned for a lead that has left. */
  lemma NoPlanAfterLeaving(cfg: Config, before: seq<Action>, after: seq<Action>, lead: Id, config: PlanConfig)
    requires forall t :: t in Targets(cfg) ==> Leaving(t)
    requires lead in Run(cfg, INIT, before).leads && Leaving(Run(cfg, INIT, before).leads[lead].status)
    requires lead in Run(cfg, INIT, before + after).leads
    ensures
      var s := Run(cfg, INIT, before + after);
      Plan(s.index.Keys, s.leads[lead], config) == []
  {
    LeavingIsForGood(cfg, before, after, lead);
  }
}
