/** What the store keeps in every run: the unique index is exact, and each row keeps its own rules. */
module Store {
  import opened Base
  import opened Contacts
  import opened Keys
  import opened Leads
  import opened Moves
  import opened Timelines
  import opened Machine
  import opened Schedule
  import opened Coupling
  import opened Silence

  // ----- The unique index -----

  predicate DistinctKeys(es: seq<Event>) {
    forall i, j :: 0 <= i < j < |es| && es[i].Keyed? && es[j].Keyed? ==> es[i].key != es[j].key
  }

  predicate RowIndexed(index: map<DedupeKey, Entry>, l: Id, row: Row) {
    && row.id == l
    && DistinctKeys(KeyedEvents(row.timeline))
    && forall e :: e in KeyedEvents(row.timeline) ==> e.Keyed? && e.key in index && index[e.key] == Entry(l, e)
  }

  predicate EntryStored(leads: map<Id, Row>, k: DedupeKey, entry: Entry) {
    && entry.lead in leads && entry.event.Keyed? && entry.event.key == k
    && entry.event in KeyedEvents(leads[entry.lead].timeline)
  }

  /** The index holds exactly the keyed events of the existing leads, each key once. */
  predicate Indexed(s: State) {
    && (forall l :: l in s.leads ==> RowIndexed(s.index, l, s.leads[l]))
    && (forall k :: k in s.index ==> EntryStored(s.leads, k, s.index[k]))
    && (forall l :: l in s.leads ==> l in s.issued)
    && (forall k :: k in s.index && s.index[k].event.Keyed? ==> s.index[k].event.id in s.issued)
  }

  /** The key of an effect is free when it takes place. */
  lemma EffectIsFree(cfg: Config, s: State, a: Action)
    ensures
      match EffectOf(cfg, s, a)
      case Touch(l, ra) =>
        && l in s.leads
        && (KeyOf(ra).Some? ==> KeyOf(ra).value.0 !in s.index && KeyOf(ra).value.1 !in s.issued)
      case Create(row, entry) =>
        && row.id !in s.issued && entry.Keyed? && entry.key !in s.index && entry.id !in s.issued && entry.id != row.id
        && KeyedEvents(row.timeline) == [entry]
      case _ => true
  {
    if a.Submit? {
      NewRowRecords(a.lead, a.source, a.input, a.now, Key<EnrollmentId>.Captured(a.source, a.externalId), a.ev,
                    IsSuppressed(cfg, s, a.input.contact));
    }
  }

  lemma RecordsKey(row: Row, ra: RowAction)
    ensures Records(row, ra).Some? ==>
      && Records(row, ra).value.Keyed? && KeyOf(ra) == Some((Records(row, ra).value.key, Records(row, ra).value.id))
  {
  }

  lemma RecordKeepsRow(s: State, l: Id, row': Row, recorded: Option<Event>)
    requires l in s.leads && RowIndexed(s.index, l, s.leads[l]) && row'.id == l
    requires recorded.Some? ==> recorded.value.Keyed? && recorded.value.key !in s.index
    requires KeyedEvents(row'.timeline)
          == KeyedEvents(s.leads[l].timeline) + if recorded.Some? then [recorded.value] else []
    ensures RowIndexed(WithEntry(s.index, l, recorded), l, row')
  {
    if recorded.Some? { RecordKeepsDistinct(KeyedEvents(s.leads[l].timeline), recorded.value); }
  }

  lemma RecordKeepsEntries(s: State, l: Id, row': Row, recorded: Option<Event>)
    requires Indexed(s) && l in s.leads
    requires recorded.Some? ==> recorded.value.Keyed?
    requires KeyedEvents(row'.timeline)
          == KeyedEvents(s.leads[l].timeline) + if recorded.Some? then [recorded.value] else []
    ensures
      var leads, index := s.leads[l := row'], WithEntry(s.index, l, recorded);
      forall k :: k in index ==> EntryStored(leads, k, index[k])
  {
    var leads, index := s.leads[l := row'], WithEntry(s.index, l, recorded);
    forall k | k in index ensures EntryStored(leads, k, index[k]) {
      if k in s.index { assert EntryStored(s.leads, k, s.index[k]); }
    }
  }

  /** Recording an event under a free key. */
  lemma RecordKeepsIndexed(s: State, l: Id, row': Row, recorded: Option<Event>)
    requires Indexed(s) && l in s.leads && row'.id == l
    requires recorded.Some? ==> recorded.value.Keyed? && recorded.value.key !in s.index
    requires KeyedEvents(row'.timeline)
          == KeyedEvents(s.leads[l].timeline) + if recorded.Some? then [recorded.value] else []
    ensures Indexed(s.(leads := s.leads[l := row'], index := WithEntry(s.index, l, recorded),
                       issued := s.issued + IdsOf(recorded)))
  {
    var leads, index := s.leads[l := row'], WithEntry(s.index, l, recorded);
    forall m | m in leads ensures RowIndexed(index, m, leads[m]) {
      assert RowIndexed(s.index, m, s.leads[m]);
      if m == l { RecordKeepsRow(s, l, row', recorded); }
    }
    RecordKeepsEntries(s, l, row', recorded);
  }

  lemma RecordKeepsDistinct(es: seq<Event>, e: Event)
    requires DistinctKeys(es) && e.Keyed?
    requires forall x :: x in es ==> x.Keyed? && x.key != e.key
    ensures DistinctKeys(es + [e])
  {
    forall i | 0 <= i < |es| ensures (es + [e])[i].Keyed? && (es + [e])[i].key != e.key {
      assert es[i] in es;
    }
  }

  lemma TouchKeepsIndexed(s: State, l: Id, ra: RowAction)
    requires Indexed(s) && l in s.leads
    requires KeyOf(ra).Some? ==> KeyOf(ra).value.0 !in s.index && KeyOf(ra).value.1 !in s.issued
    ensures Indexed(Perform(s, Touch(l, ra)))
  {
    var row := s.leads[l];
    ApplyRecords(row, ra);
    RecordsKey(row, ra);
    SameId(row, ra);
    assert RowIndexed(s.index, l, row);
    RecordKeepsIndexed(s, l, Apply(row, ra), Records(row, ra));
  }

  lemma SameId(row: Row, ra: RowAction)
    ensures Apply(row, ra).id == row.id
  {
    ApplyMoves(row, ra);
  }

  lemma CreateKeepsIndexed(s: State, row: Row, entry: Event)
    requires Indexed(s) && row.id !in s.issued && entry.Keyed? && entry.key !in s.index
    requires KeyedEvents(row.timeline) == [entry]
    ensures Indexed(Perform(s, Create(row, entry)))
  {
    var s' := Perform(s, Create(row, entry));
    forall m | m in s'.leads ensures RowIndexed(s'.index, m, s'.leads[m]) {
      if m != row.id { assert RowIndexed(s.index, m, s.leads[m]); }
    }
    forall k | k in s'.index ensures EntryStored(s'.leads, k, s'.index[k]) {
      if k in s.index { assert EntryStored(s.leads, k, s.index[k]); }
    }
  }

  lemma DeleteKeepsIndexed(s: State, ids: set<Id>)
    requires Indexed(s)
    ensures Indexed(Perform(s, Delete(ids)))
  {
    var s' := Perform(s, Delete(ids));
    forall m | m in s'.leads ensures RowIndexed(s'.index, m, s'.leads[m]) {
      assert RowIndexed(s.index, m, s.leads[m]);
    }
    forall k | k in s'.index ensures EntryStored(s'.leads, k, s'.index[k]) {
      assert EntryStored(s.leads, k, s.index[k]);
    }
  }

  lemma NextKeepsIndexed(cfg: Config, s: State, a: Action)
    requires Indexed(s)
    ensures Indexed(Next(cfg, s, a))
  {
    NextPerforms(cfg, s, a);
    EffectIsFree(cfg, s, a);
    match EffectOf(cfg, s, a)
    case Touch(l, ra) => TouchKeepsIndexed(s, l, ra);
    case Create(row, entry) => CreateKeepsIndexed(s, row, entry);
    case Delete(ids) => DeleteKeepsIndexed(s, ids);
    case Nothing =>
  }

  // ----- Rows -----

  /** The statuses CRM rules can set; a rule shadowed by an earlier one for the same value sets none. */
  function Targets(cfg: Config): set<Status> {
    set r | r in cfg.inbound && FindRule(cfg.inbound, r.property, r.value) == Some(r.status) :: r.status
  }

  /** The steps of every configured sequence are in strict order, as the database stores them. */
  predicate SequencesSorted(cfg: Config) {
    forall t: Tier :: cfg.sequenceFor(t).Some? ==> SortedSteps(cfg.sequenceFor(t).value.steps)
  }

  predicate Matches(r: Rule, property: string, value: string) {
    r.property == property && r.value == value
  }

  /** The first rule that matches decides. */
  lemma {:induction false} FirstRuleWins(rules: seq<Rule>, property: string, value: string)
    ensures FindRule(rules, property, value).None? <==> forall i :: 0 <= i < |rules| ==>
        !Matches(rules[i], property, value)
    ensures FindRule(rules, property, value).Some? ==>
      exists i :: 0 <= i < |rules| && Matches(rules[i], property, value)
                  && rules[i].status == FindRule(rules, property, value).value
                  && forall j :: 0 <= j < i ==> !Matches(rules[j], property, value)
  {
    if rules == [] {
    } else {
      if Matches(rules[0], property, value) {
        assert rules[0].status == FindRule(rules, property, value).value;
      } else {
        FirstRuleWins(rules[1..], property, value);
        forall i | 0 < i < |rules|
            ensures Matches(rules[i], property, value) == Matches(rules[1..][i - 1], property, value) {
        }
        if FindRule(rules, property, value).Some? {
          var i :| 0 <= i < |rules[1..]| && Matches(rules[1..][i], property, value)
                   && rules[1..][i].status == FindRule(rules, property, value).value
                   && forall j :: 0 <= j < i ==> !Matches(rules[1..][j], property, value);
          assert Matches(rules[i + 1], property, value) && rules[i + 1] == rules[1..][i];
        }
      }
    }
  }

  lemma FoundRuleIsTarget(cfg: Config, property: string, value: string)
    requires FindRule(cfg.inbound, property, value).Some?
    ensures FindRule(cfg.inbound, property, value).value in Targets(cfg)
  {
    FirstRuleWins(cfg.inbound, property, value);
    var i :| 0 <= i < |cfg.inbound| && Matches(cfg.inbound[i], property, value)
             && cfg.inbound[i].status == FindRule(cfg.inbound, property, value).value;
    assert cfg.inbound[i] in cfg.inbound;
  }

  /** Whatever a step applies to a lead is configured, and enrolls only into sorted sequences. */
  lemma EffectIsConfigured(cfg: Config, s: State, a: Action)
    ensures EffectOf(cfg, s, a).Touch? ==>
      && Configured(EffectOf(cfg, s, a).action, Targets(cfg))
      && (SequencesSorted(cfg) ==> SortedAction(EffectOf(cfg, s, a).action))
  {
    if a.CrmUpdate? && FindRule(cfg.inbound, a.property, a.value).Some? {
      FoundRuleIsTarget(cfg, a.property, a.value);
    }
  }

  /** Each row after a step is the row before, what a transaction made of it, or a new one. */
  predicate RowCase(cfg: Config, s: State, a: Action, l: Id)
    requires l in Next(cfg, s, a).leads
  {
    var row' := Next(cfg, s, a).leads[l];
    match EffectOf(cfg, s, a)
    case Touch(m, ra) => l in s.leads && row' == if l == m then Apply(s.leads[l], ra) else s.leads[l]
    case Create(row, _) => if l == row.id then row' == row else l in s.leads && row' == s.leads[l]
    case _ => l in s.leads && row' == s.leads[l]
  }

  lemma RowCases(cfg: Config, s: State, a: Action)
    ensures forall l :: l in Next(cfg, s, a).leads ==> RowCase(cfg, s, a, l)
  {
    NextPerforms(cfg, s, a);
    EffectIsFree(cfg, s, a);
  }

  /** What every row keeps for any CRM rules. */
  predicate RowGood(row: Row) {
    RowOnSchedule(row) && Silent(row) && CompletionsRecorded(row)
  }

  lemma NewRowGood(id: Id, source: string, input: Profile, now: int, key: DedupeKey, ev: Id, suppressed: bool)
    ensures
      var row := NewRow(id, source, input, now, key, ev, suppressed);
      RowGood(row) && Coupled(row) && row.status == if suppressed then DoNotContact else New
  {
    var row := NewRow(id, source, input, now, key, ev, suppressed);
    StopNotesAreNeutral(id, [], AfterOptOut);
    assert StopNotes(id, [], AfterOptOut) == [];
    forall k | 0 <= k < |row.timeline| ensures Neutral(BodyAt(row, k)) {
    }
  }

  predicate RowsGood(cfg: Config, s: State) {
    forall l :: l in s.leads ==> RowGood(s.leads[l]) && (NoWayBack(Targets(cfg)) ==> Coupled(s.leads[l]))
  }

  lemma NextKeepsRowsGood(cfg: Config, s: State, a: Action)
    requires SequencesSorted(cfg) && RowsGood(cfg, s)
    ensures RowsGood(cfg, Next(cfg, s, a))
  {
    var s' := Next(cfg, s, a);
    RowCases(cfg, s, a);
    EffectIsConfigured(cfg, s, a);
    var e := EffectOf(cfg, s, a);
    forall l | l in s'.leads ensures RowGood(s'.leads[l]) && (NoWayBack(Targets(cfg)) ==> Coupled(s'.leads[l])) {
      assert RowCase(cfg, s, a, l);
      if e.Touch? && e.lead == l {
        ApplyKeepsSchedule(s.leads[l], e.action);
        ApplyKeepsSilent(s.leads[l], e.action);
        ApplyKeepsCompletions(s.leads[l], e.action);
        if NoWayBack(Targets(cfg)) { ApplyKeepsCoupled(s.leads[l], e.action, Targets(cfg)); }
      } else if e.Create? && e.row.id == l {
        NewRowGood(a.lead, a.source, a.input, a.now, Key<EnrollmentId>.Captured(a.source, a.externalId), a.ev,
                   IsSuppressed(cfg, s, a.input.contact));
      }
    }
  }

  // ----- Runs -----

  predicate Inv(cfg: Config, s: State) {
    Indexed(s) && RowsGood(cfg, s)
  }

  lemma NextKeepsInv(cfg: Config, s: State, a: Action)
    requires SequencesSorted(cfg) && Inv(cfg, s)
    ensures Inv(cfg, Next(cfg, s, a))
  {
    NextKeepsIndexed(cfg, s, a);
    NextKeepsRowsGood(cfg, s, a);
  }

  lemma {:induction false} RunKeepsIndexed(cfg: Config, actions: seq<Action>)
    ensures Indexed(Run(cfg, INIT, actions))
  {
    if actions == [] {
    } else {
      RunKeepsIndexed(cfg, actions[..|actions| - 1]);
      NextKeepsIndexed(cfg, Run(cfg, INIT, actions[..|actions| - 1]), actions[|actions| - 1]);
    }
  }

  lemma {:induction false} RunKeepsInv(cfg: Config, actions: seq<Action>)
    requires SequencesSorted(cfg)
    ensures Inv(cfg, Run(cfg, INIT, actions))
  {
    if actions == [] {
    } else {
      RunKeepsInv(cfg, actions[..|actions| - 1]);
      NextKeepsInv(cfg, Run(cfg, INIT, actions[..|actions| - 1]), actions[|actions| - 1]);
    }
  }

  // ----- Main results -----

  /** In every run every enrollment is on schedule: steps in order, once, at most a minute early. */
  lemma SchedulesAreKept(cfg: Config, actions: seq<Action>, l: Id)
    requires SequencesSorted(cfg) && l in Run(cfg, INIT, actions).leads
    ensures RowOnSchedule(Run(cfg, INIT, actions).leads[l])
  {
    RunKeepsInv(cfg, actions);
  }

  /** In every run a lead that opted out has nothing live. */
  lemma OptedOutIsQuiet(cfg: Config, actions: seq<Action>, l: Id)
    requires SequencesSorted(cfg)
    ensures
      var leads := Run(cfg, INIT, actions).leads;
      l in leads && leads[l].status.DoNotContact? ==> forall e :: e in leads[l].enrollments ==> !Live(e)
  {
    RunKeepsInv(cfg, actions);
  }

  /** Enrollment `i` of lead `l`, once `e`, has only moved forward, or its lead is gone for good. */
  predicate MovedOn(s: State, l: Id, i: nat, e: Enrollment)
    requires OnSchedule(e)
  {
    && l in s.issued
    && (l in s.leads ==>
          && i < |s.leads[l].enrollments| && OnSchedule(s.leads[l].enrollments[i])
          && Follows(e, s.leads[l].enrollments[i]))
  }

  lemma NextMovesOn(cfg: Config, s: State, a: Action, l: Id, i: nat, e: Enrollment)
    requires SequencesSorted(cfg) && Inv(cfg, s) && OnSchedule(e) && MovedOn(s, l, i, e)
    ensures MovedOn(Next(cfg, s, a), l, i, e)
  {
    hide Machine.Next;
    NextPerforms(cfg, s, a);
    RowCases(cfg, s, a);
    EffectIsFree(cfg, s, a);
    EffectIsConfigured(cfg, s, a);
    var effect := EffectOf(cfg, s, a);
    if l in Next(cfg, s, a).leads {
      assert RowCase(cfg, s, a, l);
      if effect.Touch? && effect.lead == l {
        ApplyKeepsSchedule(s.leads[l], effect.action);
        EnrollmentsOnlyMoveForward(s.leads[l], effect.action, i);
      }
    }
  }

  /**
   From one moment of a run to any later one, an enrollment only moves forward as long as its lead
   exists: the steps it ran stay run, in the same order, and stopped or completed is final.
   */
  lemma {:induction false} ProgressIsForever(cfg: Config, before: seq<Action>, after: seq<Action>, l: Id, i: nat)
    requires SequencesSorted(cfg) && l in Run(cfg, INIT, before).leads
    requires i < |Run(cfg, INIT, before).leads[l].enrollments|
    ensures OnSchedule(Run(cfg, INIT, before).leads[l].enrollments[i])
    ensures MovedOn(Run(cfg, INIT, before + after), l, i, Run(cfg, INIT, before).leads[l].enrollments[i])
  {
    hide Machine.Next;
    RunKeepsInv(cfg, before);
    var e := Run(cfg, INIT, before).leads[l].enrollments[i];
    if after == [] {
      assert before + after == before;
    } else {
      var last := |after| - 1;
      ProgressIsForever(cfg, before, after[..last], l, i);
      assert (before + after)[..|before + after| - 1] == before + after[..last];
      RunKeepsInv(cfg, before + after[..last]);
      NextMovesOn(cfg, Run(cfg, INIT, before + after[..last]), after[last], l, i, e);
    }
  }

  /**
   Unless a CRM rule sends leads back to before their first contact: in every run a lead has at
   most one enrollment ever, it is live only while the lead is contacted, and so no step job ever
   finds its lead no longer contactable.
   */
  lemma EnrollmentsStayCoupled(cfg: Config, actions: seq<Action>, l: Id)
    requires SequencesSorted(cfg) && NoWayBack(Targets(cfg)) && l in Run(cfg, INIT, actions).leads
    ensures
      var row := Run(cfg, INIT, actions).leads[l];
      && Coupled(row)
      && forall ordinal: nat, step: int, at: int :: ordinal < |row.enrollments| ==>
          !RunStep(row, ordinal, step, at).1.LeadLeft?
  {
    RunKeepsInv(cfg, actions);
    var row := Run(cfg, INIT, actions).leads[l];
    forall ordinal: nat, step: int, at: int | ordinal < |row.enrollments|
        ensures !RunStep(row, ordinal, step, at).1.LeadLeft? {
      LeadLeftIsUnreachable(row, ordinal, step, at);
    }
  }

  /** In every run no reply lies between a lead's enrollment and the completion of its sequence. */
  lemma CompletedSequencesMetSilence(cfg: Config, actions: seq<Action>, l: Id)
    requires SequencesSorted(cfg) && l in Run(cfg, INIT, actions).leads
    ensures CompletionMeansSilence(Run(cfg, INIT, actions).leads[l])
    ensures CompletionsRecorded(Run(cfg, INIT, actions).leads[l])
  {
    RunKeepsInv(cfg, actions);
  }

  /** From any reachable state, lost step jobs are rebuilt and the sequence runs to its end. */
  lemma LostQueueIsRebuilt(cfg: Config, actions: seq<Action>, l: Id, ordinal: nat, rounds: seq<Round>)
    requires SequencesSorted(cfg) && l in Run(cfg, INIT, actions).leads
    requires ordinal < |Run(cfg, INIT, actions).leads[l].enrollments|
    requires
      var row := Run(cfg, INIT, actions).leads[l];
      var e := row.enrollments[ordinal];
      e.status.Active? && Timely(row, ordinal, rounds) && |rounds| >= |e.sequence.steps| - |e.ran| + 1
    ensures
      var row' := RunRounds(Run(cfg, INIT, actions).leads[l], ordinal, rounds);
      && ordinal < |row'.enrollments|
      && (row'.enrollments[ordinal].status.Completed? || row'.enrollments[ordinal].status.Stopped?)
  {
    RunKeepsInv(cfg, actions);
    QueueIsDisposable(Run(cfg, INIT, actions).leads[l], ordinal, rounds);
  }

  /** The lead has left, or is gone for good. */
  predicate Left(s: State, l: Id) {
    l in s.issued && (l in s.leads ==> Leaving(s.leads[l].status))
  }

  lemma NextKeepsLeft(cfg: Config, s: State, a: Action, l: Id)
    requires Left(s, l) && forall t :: t in Targets(cfg) ==> Leaving(t)
    ensures Left(Next(cfg, s, a), l)
  {
    NextPerforms(cfg, s, a);
    RowCases(cfg, s, a);
    EffectIsFree(cfg, s, a);
    EffectIsConfigured(cfg, s, a);
    var e := EffectOf(cfg, s, a);
    if l in Next(cfg, s, a).leads {
      assert RowCase(cfg, s, a, l);
      if e.Touch? && e.lead == l { LeavingIsClosed(s.leads[l], e.action, Targets(cfg)); }
    }
  }

  /** Once a lead has left, every later state either has it as a left lead or not at all. */
  lemma {:induction false} LeavingIsForGood(cfg: Config, before: seq<Action>, after: seq<Action>, l: Id)
    requires forall t :: t in Targets(cfg) ==> Leaving(t)
    requires l in Run(cfg, INIT, before).leads && Leaving(Run(cfg, INIT, before).leads[l].status)
    ensures Left(Run(cfg, INIT, before + after), l)
  {
    hide Machine.Next;
    if after == [] {
      assert before + after == before;
      RunKeepsIndexed(cfg, before);
    } else {
      var last := |after| - 1;
      LeavingIsForGood(cfg, before, after[..last], l);
      assert (before + after)[..|before + after| - 1] == before + after[..last];
      NextKeepsLeft(cfg, Run(cfg, INIT, before + after[..last]), after[last], l);
    }
  }

  /**
   No contact after leaving: an attempt whose eligibility read comes at any time after the lead
   replied, went silent, converted or opted out goes no further, unless it is a rep alert.
   */
  lemma NoContactAfterLeaving(cfg: Config, before: seq<Action>, after: seq<Action>, job: MessageJob)
    requires forall t :: t in Targets(cfg) ==> Leaving(t)
    requires job.lead in Run(cfg, INIT, before).leads && Leaving(Run(cfg, INIT, before).leads[job.lead].status)
    requires !job.kind.RepAlertMessage?
    ensures !CheckOf(Run(cfg, INIT, before + after), job).Proceed?
  {
    LeavingIsForGood(cfg, before, after, job.lead);
  }
}
