/** The hand-off from capture to scoring to planning, across crashes, replays and erasures. */
module HandOff {
  import opened Base
  import opened Keys
  import opened Leads
  import opened Timelines
  import opened Machine
  import opened Schedule
  import opened Store
  import opened Sending

  type Captures = map<Id, Id>
  type Scores = map<Id, ScoreFact>

  /** A job carries what its event said when it was recorded. */
  predicate Genuine(job: Handoff, captures: Captures, scores: Scores) {
    match job
    case QualifyJob(lead, event) => event in captures && captures[event] == lead
    case PlanJob(lead, event, score, tier) =>
      && event in scores && scores[event].lead == lead && scores[event].score == score && scores[event].tier == tier
      && !tier.Unfit?
  }

  predicate JobsGenuine(s: State) {
    s.enqueued <= s.pending && forall j :: j in s.pending ==> Genuine(j, s.history.captures, s.history.scores)
  }

  predicate FactsIssued(s: State) {
    && (forall e :: e in s.history.captures ==> e in s.issued && s.history.captures[e] in s.issued)
    && (forall e :: e in s.history.scores ==>
          && e in s.issued && s.history.scores[e].lead in s.issued
          && s.history.scores[e].capturedEvent in s.history.captures
          && s.history.captures[s.history.scores[e].capturedEvent] == s.history.scores[e].lead)
  }

  /** Index entries of captures and scores are facts. */
  predicate EntriesAreFacts(s: State) {
    forall k :: k in s.index && s.index[k].event.Keyed? ==>
      && (k.Captured? ==>
          s.index[k].event.id in s.history.captures && s.history.captures[s.index[k].event.id] == s.index[k].lead)
      && (k.Scored? ==>
            && s.index[k].event.body.ScoredBody?
            && s.index[k].event.id in s.history.scores
            && s.history.scores[s.index[k].event.id]
               == ScoreFact(s.index[k].lead, k.capturedEvent, s.index[k].event.body.score, s.index[k].event.body.tier))
  }

  /** While its lead exists, a scored event is in the index, under its own capture. */
  predicate FactsAreEntries(s: State) {
    forall e :: e in s.history.scores && s.history.scores[e].lead in s.leads ==>
      var k := Key<EnrollmentId>.Scored(s.history.scores[e].capturedEvent);
      k in s.index && s.index[k].event.Keyed? && s.index[k].event.id == e
  }

  /** A captured event was scored at most once, ever. */
  predicate ScoredOnce(s: State) {
    forall e, f ::
      (e in s.history.scores && f in s.history.scores
       && s.history.scores[e].capturedEvent == s.history.scores[f].capturedEvent) ==> e == f
  }

  predicate HandOffInv(s: State) {
    Indexed(s) && AttemptsOk(s) && JobsGenuine(s) && FactsIssued(s) && EntriesAreFacts(s) && FactsAreEntries(s) &&
        ScoredOnce(s)
  }

  // ----- The four kinds of steps -----

  predicate StageKey(k: DedupeKey) {
    k.Captured? || k.Scored?
  }

  /** Nothing new under the capture and score keys; entries go only with their leads. */
  predicate SameStages(s: State, s': State) {
    && s.issued <= s'.issued
    && (forall l :: l in s'.leads && l !in s.leads ==> l !in s.issued)
    && (forall k :: k in s'.index && StageKey(k) ==> k in s.index && s'.index[k] == s.index[k])
    && (forall k :: k in s.index && StageKey(k) && s.index[k].lead in s'.leads ==> k in s'.index)
  }

  /** One new entry under a stage key. */
  predicate NewStage(s: State, s': State, key: DedupeKey, entry: Entry) {
    && s.issued <= s'.issued && entry.lead in s'.leads && entry.lead in s'.issued
    && entry.event.Keyed? && entry.event.id !in s.issued && entry.event.id in s'.issued
    && (forall l :: l in s'.leads && l !in s.leads ==> l !in s.issued)
    && key !in s.index && key in s'.index && s'.index[key] == entry
    && (forall k :: k in s'.index && StageKey(k) && k != key ==> k in s.index && s'.index[k] == s.index[k])
    && (forall k :: k in s.index && StageKey(k) && s.index[k].lead in s'.leads ==> k in s'.index)
  }

  predicate SameFacts(s: State, s': State) {
    s'.history.captures == s.history.captures && s'.history.scores == s.history.scores
  }

  lemma TouchStages(s: State, l: Id, ra: RowAction, s': State)
    requires Indexed(s) && l in s.leads
    requires KeyOf(ra).Some? ==> KeyOf(ra).value.0 !in s.index && KeyOf(ra).value.1 !in s.issued
    requires s'.leads == Perform(s, Touch(l, ra)).leads && s'.index == Perform(s, Touch(l, ra)).index
    requires Perform(s, Touch(l, ra)).issued <= s'.issued
    ensures KeyOf(ra).None? || !StageKey(KeyOf(ra).value.0) ==> SameStages(s, s')
    ensures Records(s.leads[l], ra).Some? ==>
      NewStage(s, s', Records(s.leads[l], ra).value.key, Entry(l, Records(s.leads[l], ra).value))
  {
    RecordsKey(s.leads[l], ra);
  }

  lemma DeleteStages(s: State, ids: set<Id>, s': State)
    requires s'.leads == Perform(s, Delete(ids)).leads && s'.index == Perform(s, Delete(ids)).index
    requires s.issued <= s'.issued
    ensures SameStages(s, s')
  {
  }

  lemma OtherKeysAreNoStages(cfg: Config, s: State, a: Action)
    requires AttemptsOk(s) && !a.Submit? && !a.Qualify?
    ensures EffectOf(cfg, s, a).Touch? && KeyOf(EffectOf(cfg, s, a).action).Some? ==>
      !StageKey(KeyOf(EffectOf(cfg, s, a).action).value.0)
    ensures !EffectOf(cfg, s, a).Create?
  {
  }

  lemma OtherStages(cfg: Config, s: State, a: Action)
    requires Indexed(s) && AttemptsOk(s) && !a.Submit? && !a.Qualify?
    ensures SameStages(s, Next(cfg, s, a))
  {
    NextPerforms(cfg, s, a);
    EffectIsFree(cfg, s, a);
    OtherKeysAreNoStages(cfg, s, a);
    match EffectOf(cfg, s, a)
    case Touch(l, ra) => TouchStages(s, l, ra, Next(cfg, s, a));
    case Delete(ids) => DeleteStages(s, ids, Next(cfg, s, a));
    case _ =>
  }

  lemma AroundKeepsFacts(cfg: Config, s: State, a: Action, e: Effect, s': State)
    requires !a.Submit? && !a.Qualify? && OnlyRows(s, s')
    ensures
      var t := Around(cfg, s, a, e, s');
      && SameFacts(s, t) && t.pending == s.pending
      && t.enqueued <= s.enqueued + (if a.Enqueue? && a.job in s.pending then {a.job} else {})
  {
  }

  lemma OtherFacts(cfg: Config, s: State, a: Action)
    requires !a.Submit? && !a.Qualify?
    ensures SameFacts(s, Next(cfg, s, a)) && Next(cfg, s, a).pending == s.pending
    ensures Next(cfg, s, a).enqueued <= s.enqueued + (if a.Enqueue? && a.job in s.pending then {a.job} else {})
  {
    var e := EffectOf(cfg, s, a);
    PerformsOnlyRows(s, e);
    AroundKeepsFacts(cfg, s, a, e, Perform(s, e));
  }

  // ----- Each kind keeps the invariant -----

  /** Old scores keep their entries as long as their leads exist. */
  lemma OldFactsAreEntries(s: State, s': State, e: Id)
    requires HandOffInv(s) && e in s.history.scores && s.history.scores[e].lead in s'.leads
    requires forall l :: l in s'.leads && l !in s.leads ==> l !in s.issued
    requires forall k :: k in s.index && StageKey(k) && s.index[k].lead in s'.leads ==> k in s'.index
    requires forall k :: k in s.index && k in s'.index && StageKey(k) ==> s'.index[k] == s.index[k]
    ensures
      var k := Key<EnrollmentId>.Scored(s.history.scores[e].capturedEvent);
      k in s'.index && s'.index[k].event.Keyed? && s'.index[k].event.id == e
  {
    var k := Key<EnrollmentId>.Scored(s.history.scores[e].capturedEvent);
    assert k in s.index && s.index[k].event.Keyed? && s.index[k].event.id == e;
    assert s.index[k].lead == s.history.scores[e].lead;
  }

  lemma SameKeeps(s: State, s': State)
    requires HandOffInv(s) && Indexed(s') && AttemptsOk(s') && SameStages(s, s') && SameFacts(s, s')
    requires s'.enqueued <= s'.pending
    requires forall j :: j in s'.pending ==> Genuine(j, s.history.captures, s.history.scores)
    ensures HandOffInv(s')
  {
    forall e | e in s'.history.scores && s'.history.scores[e].lead in s'.leads
      ensures
        var k := Key<EnrollmentId>.Scored(s'.history.scores[e].capturedEvent);
        k in s'.index && s'.index[k].event.Keyed? && s'.index[k].event.id == e
    {
      OldFactsAreEntries(s, s', e);
    }
  }

  /** New facts at the new event id `ev`, the old ones untouched. */
  predicate FactsExtended(s: State, s': State, ev: Id) {
    && (forall e :: e in s.history.captures ==>
        e in s'.history.captures && s'.history.captures[e] == s.history.captures[e])
    && (forall e :: e in s.history.scores ==> e in s'.history.scores && s'.history.scores[e] == s.history.scores[e])
    && (forall e :: e in s'.history.captures && e != ev ==> e in s.history.captures)
    && (forall e :: e in s'.history.scores && e != ev ==> e in s.history.scores)
  }

  lemma GenuineStays(s: State, s': State, ev: Id, j: Handoff)
    requires FactsExtended(s, s', ev) && Genuine(j, s.history.captures, s.history.scores)
    ensures Genuine(j, s'.history.captures, s'.history.scores)
  {
  }

  lemma NewStageKeepsEntries(s: State, s': State, key: DedupeKey, entry: Entry)
    requires EntriesAreFacts(s) && NewStage(s, s', key, entry) && FactsExtended(s, s', entry.event.id)
    requires key.Captured? ==>
      entry.event.id in s'.history.captures && s'.history.captures[entry.event.id] == entry.lead
    requires key.Scored? ==>
      && entry.event.body.ScoredBody? && entry.event.id in s'.history.scores
      && s'.history.scores[entry.event.id]
         == ScoreFact(entry.lead, key.capturedEvent, entry.event.body.score, entry.event.body.tier)
    ensures EntriesAreFacts(s')
  {
    forall k | k in s'.index && s'.index[k].event.Keyed? && k != key && StageKey(k)
      ensures k in s.index && s'.index[k] == s.index[k]
    {
    }
  }

  lemma NewStageKeepsFactsAreEntries(s: State, s': State, key: DedupeKey, entry: Entry)
    requires HandOffInv(s) && NewStage(s, s', key, entry) && FactsExtended(s, s', entry.event.id)
    requires entry.event.id in s'.history.scores ==>
        key == Key<EnrollmentId>.Scored(s'.history.scores[entry.event.id].capturedEvent)
    ensures FactsAreEntries(s')
  {
    forall e | e in s'.history.scores && s'.history.scores[e].lead in s'.leads
      ensures
        var k := Key<EnrollmentId>.Scored(s'.history.scores[e].capturedEvent);
        k in s'.index && s'.index[k].event.Keyed? && s'.index[k].event.id == e
    {
      if e != entry.event.id { OldFactsAreEntries(s, s', e); }
    }
  }

  /** One new genuine job beside the old ones. */
  lemma NewJobKeepsGenuine(s: State, s': State, ev: Id, added: set<Handoff>)
    requires JobsGenuine(s) && FactsExtended(s, s', ev)
    requires s'.pending == s.pending + added && s'.enqueued == s.enqueued
    requires forall j :: j in added ==> Genuine(j, s'.history.captures, s'.history.scores)
    ensures JobsGenuine(s')
  {
    forall j | j in s'.pending ensures Genuine(j, s'.history.captures, s'.history.scores) {
      if j in s.pending { GenuineStays(s, s', ev, j); }
    }
  }

  lemma CaptureKeeps(s: State, s': State, key: DedupeKey, l: Id, event: Event)
    requires HandOffInv(s) && Indexed(s') && AttemptsOk(s')
    requires key.Captured? && event.Keyed? && NewStage(s, s', key, Entry(l, event))
    requires s'.history.captures == s.history.captures[event.id := l] && s'.history.scores == s.history.scores
    requires s'.pending == s.pending + {QualifyJob(l, event.id)} && s'.enqueued == s.enqueued
    ensures HandOffInv(s')
  {
    hide Indexed, AttemptsOk, EntriesAreFacts, FactsAreEntries, JobsGenuine;
    assert event.id !in s.history.captures && event.id !in s.history.scores;
    NewStageKeepsEntries(s, s', key, Entry(l, event));
    NewStageKeepsFactsAreEntries(s, s', key, Entry(l, event));
    NewJobKeepsGenuine(s, s', event.id, {QualifyJob(l, event.id)});
  }

  /** The capture behind a genuine job that finds its lead and no score was never scored. */
  lemma NotScoredBefore(s: State, job: Handoff)
    requires HandOffInv(s) && job in s.pending && job.QualifyJob? && job.lead in s.leads
    requires Key<EnrollmentId>.Scored(job.event) !in s.index
    ensures forall e :: e in s.history.scores ==> s.history.scores[e].capturedEvent != job.event
  {
    assert Genuine(job, s.history.captures, s.history.scores);
    forall e | e in s.history.scores ensures s.history.scores[e].capturedEvent != job.event {
      var fact := s.history.scores[e];
      assert s.history.captures[fact.capturedEvent] == fact.lead;
      assert fact.lead in s.leads ==> Key<EnrollmentId>.Scored(fact.capturedEvent) in s.index;
    }
  }

  lemma ScoreKeepsFacts(s: State, s': State, job: Handoff, score: int, tier: Tier, ev: Id)
    requires HandOffInv(s) && job in s.pending && job.QualifyJob? && job.lead in s.leads
    requires Key<EnrollmentId>.Scored(job.event) !in s.index
    requires s.issued <= s'.issued && ev in s'.issued
    requires s'.history.captures == s.history.captures
    requires s'.history.scores == s.history.scores[ev := ScoreFact(job.lead, job.event, score, tier)]
    ensures FactsIssued(s') && ScoredOnce(s')
  {
    NotScoredBefore(s, job);
    assert Genuine(job, s.history.captures, s.history.scores);
  }

  lemma ScoreExtendsFacts(s: State, s': State, ev: Id, fact: ScoreFact)
    requires FactsIssued(s) && ev !in s.issued
    requires s'.history.captures == s.history.captures && s'.history.scores == s.history.scores[ev := fact]
    ensures FactsExtended(s, s', ev) && ev !in s'.history.captures
  {
  }

  lemma ScoreKeeps(s: State, s': State, job: Handoff, score: int, tier: Tier, ev: Id)
    requires HandOffInv(s) && Indexed(s') && AttemptsOk(s')
    requires job in s.pending && job.QualifyJob? && job.lead in s.leads
    requires
      var key := Key<EnrollmentId>.Scored(job.event);
      NewStage(s, s', key, Entry(job.lead, Keyed(ev, key, ScoredBody(score, tier))))
    requires s'.history.captures == s.history.captures
    requires s'.history.scores == s.history.scores[ev := ScoreFact(job.lead, job.event, score, tier)]
    requires s'.pending == s.pending + if tier.Unfit? then {} else {PlanJob(job.lead, ev, score, tier)}
    requires s'.enqueued == s.enqueued
    ensures HandOffInv(s')
  {
    var key := Key<EnrollmentId>.Scored(job.event);
    var entry := Entry(job.lead, Keyed(ev, key, ScoredBody(score, tier)));
    ScoreExtendsFacts(s, s', ev, ScoreFact(job.lead, job.event, score, tier));
    ScoreKeepsFacts(s, s', job, score, tier, ev);
    NewStageKeepsEntries(s, s', key, entry);
    NewStageKeepsFactsAreEntries(s, s', key, entry);
    NewJobKeepsGenuine(s, s', ev, if tier.Unfit? then {} else {PlanJob(job.lead, ev, score, tier)});
  }

  // ----- Steps -----

  lemma SubmitMerges(cfg: Config, s: State, a: Action)
    requires HandOffInv(s) && a.Submit? && EffectOf(cfg, s, a).Touch?
    ensures HandOffInv(Next(cfg, s, a))
  {
    var s' := Next(cfg, s, a);
    var key := Key<EnrollmentId>.Captured(a.source, a.externalId);
    var l, ra := EffectOf(cfg, s, a).lead, EffectOf(cfg, s, a).action;
    NextKeepsIndexed(cfg, s, a);
    NextKeepsAttemptsOk(cfg, s, a);
    NextPerforms(cfg, s, a);
    EffectIsFree(cfg, s, a);
    TouchStages(s, l, ra, s');
    CaptureKeeps(s, s', key, l, Keyed(a.ev, key, CapturedBody(true)));
  }

  lemma CreateStages(s: State, row: Row, entry: Event, s': State)
    requires Indexed(s) && row.id !in s.issued && entry.Keyed? && entry.key !in s.index && entry.id !in s.issued
    requires s'.leads == Perform(s, Create(row, entry)).leads && s'.index == Perform(s, Create(row, entry)).index
    requires Perform(s, Create(row, entry)).issued <= s'.issued
    ensures NewStage(s, s', entry.key, Entry(row.id, entry))
  {
  }

  lemma SubmitCreates(cfg: Config, s: State, a: Action)
    requires HandOffInv(s) && a.Submit? && EffectOf(cfg, s, a).Create?
    ensures HandOffInv(Next(cfg, s, a))
  {
    hide JobsGenuine, FactsIssued, EntriesAreFacts, FactsAreEntries, ScoredOnce;
    var s' := Next(cfg, s, a);
    var key := Key<EnrollmentId>.Captured(a.source, a.externalId);
    var row, entry := EffectOf(cfg, s, a).row, EffectOf(cfg, s, a).entry;
    NextKeepsIndexed(cfg, s, a);
    NextKeepsAttemptsOk(cfg, s, a);
    NextPerforms(cfg, s, a);
    EffectIsFree(cfg, s, a);
    CreateStages(s, row, entry, s');
    CaptureKeeps(s, s', key, row.id, entry);
  }

  /** A step without an effect hands off at most the event recorded first. */
  lemma ReplayKeeps(cfg: Config, s: State, a: Action)
    requires HandOffInv(s) && (a.Submit? || a.Qualify?) && EffectOf(cfg, s, a).Nothing?
    ensures HandOffInv(Next(cfg, s, a))
  {
    var s' := Next(cfg, s, a);
    NextKeepsIndexed(cfg, s, a);
    NextKeepsAttemptsOk(cfg, s, a);
    forall j | j in s'.pending ensures Genuine(j, s.history.captures, s.history.scores) {
      if j !in s.pending { assert EntriesAreFacts(s); }
    }
    SameKeeps(s, s');
  }

  lemma QualifyShape(cfg: Config, s: State, a: Action)
    requires a.Qualify? && EffectOf(cfg, s, a).Touch?
    ensures a.job in s.enqueued && a.job.QualifyJob? && a.job.lead in s.leads
    ensures EffectOf(cfg, s, a) ==
        Touch(a.job.lead, OnScore(a.score, a.tier, Key<EnrollmentId>.Scored(a.job.event), a.ev))
    ensures
      var s' := Next(cfg, s, a);
      && s'.history.captures == s.history.captures
      && s'.history.scores == s.history.scores[a.ev := ScoreFact(a.job.lead, a.job.event, a.score, a.tier)]
      && s'.pending == s.pending + (if a.tier.Unfit? then {} else {PlanJob(a.job.lead, a.ev, a.score, a.tier)})
      && s'.enqueued == s.enqueued
  {
  }

  lemma QualifyScores(cfg: Config, s: State, a: Action)
    requires HandOffInv(s) && a.Qualify? && EffectOf(cfg, s, a).Touch?
    ensures HandOffInv(Next(cfg, s, a))
  {
    var s' := Next(cfg, s, a);
    NextKeepsIndexed(cfg, s, a);
    NextKeepsAttemptsOk(cfg, s, a);
    QualifyStage(cfg, s, a);
    QualifyShape(cfg, s, a);
    ScoreKeeps(s, s', a.job, a.score, a.tier, a.ev);
  }

  lemma QualifyStage(cfg: Config, s: State, a: Action)
    requires HandOffInv(s) && a.Qualify? && EffectOf(cfg, s, a).Touch?
    ensures
      var key := Key<EnrollmentId>.Scored(a.job.event);
      NewStage(s, Next(cfg, s, a), key, Entry(a.job.lead, Keyed(a.ev, key, ScoredBody(a.score, a.tier))))
  {
    QualifyShape(cfg, s, a);
    NextPerforms(cfg, s, a);
    EffectIsFree(cfg, s, a);
    TouchStages(s, a.job.lead, EffectOf(cfg, s, a).action, Next(cfg, s, a));
  }

  lemma OthersKeep(cfg: Config, s: State, a: Action)
    requires HandOffInv(s) && !a.Submit? && !a.Qualify?
    ensures HandOffInv(Next(cfg, s, a))
  {
    NextKeepsIndexed(cfg, s, a);
    NextKeepsAttemptsOk(cfg, s, a);
    OtherStages(cfg, s, a);
    OtherFacts(cfg, s, a);
    SameKeeps(s, Next(cfg, s, a));
  }

  lemma NextKeepsHandOff(cfg: Config, s: State, a: Action)
    requires HandOffInv(s)
    ensures HandOffInv(Next(cfg, s, a))
  {
    if !a.Submit? && !a.Qualify? {
      OthersKeep(cfg, s, a);
    } else if EffectOf(cfg, s, a).Nothing? {
      ReplayKeeps(cfg, s, a);
    } else if a.Qualify? {
      QualifyScores(cfg, s, a);
    } else if EffectOf(cfg, s, a).Touch? {
      SubmitMerges(cfg, s, a);
    } else {
      SubmitCreates(cfg, s, a);
    }
  }

  lemma {:induction false} RunKeepsHandOff(cfg: Config, actions: seq<Action>)
    ensures HandOffInv(Run(cfg, INIT, actions))
  {
    if actions == [] {
    } else {
      RunKeepsHandOff(cfg, actions[..|actions| - 1]);
      NextKeepsHandOff(cfg, Run(cfg, INIT, actions[..|actions| - 1]), actions[|actions| - 1]);
    }
  }

  // ----- Main results -----

  /** In every run a captured event leads to at most one scored event, even after an erasure. */
  lemma CapturesAreScoredOnce(cfg: Config, actions: seq<Action>)
    ensures ScoredOnce(Run(cfg, INIT, actions))
  {
    RunKeepsHandOff(cfg, actions);
  }

  /** In every run all the jobs with one id (event) are the same job: same lead, score and tier. */
  lemma ReenqueuesAgree(cfg: Config, actions: seq<Action>, j: Handoff, k: Handoff)
    requires
      var s := Run(cfg, INIT, actions);
      j in s.pending && k in s.pending && j.event == k.event && j.QualifyJob? == k.QualifyJob?
    ensures j == k
  {
    RunKeepsHandOff(cfg, actions);
    var s := Run(cfg, INIT, actions);
    assert Genuine(j, s.history.captures, s.history.scores) && Genuine(k, s.history.captures, s.history.scores);
  }

  lemma SubmissionHandsOff(cfg: Config, s: State, a: Action)
    requires Indexed(s) && a.Submit?
    ensures
      var s' := Next(cfg, s, a);
      var key := Key<EnrollmentId>.Captured(a.source, a.externalId);
      key in s'.index ==>
        && s'.index[key].event.Keyed?
        && QualifyJob(s'.index[key].lead, s'.index[key].event.id) in s'.pending
        && (key in s.index ==> s'.index[key] == s.index[key] && s'.leads == s.leads)
  {
    var key := Key<EnrollmentId>.Captured(a.source, a.externalId);
    if key in s.index {
      assert EntryStored(s.leads, key, s.index[key]);
    }
  }

  /** A replayed submission hands off the event recorded first; a fresh one hands off its own. */
  lemma EverySubmissionHandsOff(cfg: Config, actions: seq<Action>, a: Action)
    requires a.Submit?
    ensures
      var s := Run(cfg, INIT, actions);
      var s' := Next(cfg, s, a);
      var key := Key<EnrollmentId>.Captured(a.source, a.externalId);
      key in s'.index ==>
        && s'.index[key].event.Keyed?
        && QualifyJob(s'.index[key].lead, s'.index[key].event.id) in s'.pending
        && (key in s.index ==> s'.index[key] == s.index[key] && s'.leads == s.leads)
  {
    RunKeepsIndexed(cfg, actions);
    SubmissionHandsOff(cfg, Run(cfg, INIT, actions), a);
  }

  /** Scoring a delivered job, first time or replay, hands off the one scored event unless it disqualified the lead. */
  lemma EveryScoringHandsOff(cfg: Config, actions: seq<Action>, a: Action)
    requires a.Qualify? && a.job in Run(cfg, INIT, actions).enqueued && a.job.QualifyJob?
    ensures
      var s := Run(cfg, INIT, actions);
      var s' := Next(cfg, s, a);
      var key := Key<EnrollmentId>.Scored(a.job.event);
      key in s'.index ==>
        && s'.index[key].event.Keyed? && s'.index[key].event.body.ScoredBody?
        && (key in s.index ==> s'.index[key] == s.index[key] && s'.leads == s.leads)
        && var event := s'.index[key].event;
           !event.body.tier.Unfit? ==>
             PlanJob(s'.index[key].lead, event.id, event.body.score, event.body.tier) in s'.pending
  {
    RunKeepsHandOff(cfg, actions);
    var s := Run(cfg, INIT, actions);
    var key := Key<EnrollmentId>.Scored(a.job.event);
    NextPerforms(cfg, s, a);
    EffectIsFree(cfg, s, a);
    if key in s.index { assert EntryStored(s.leads, key, s.index[key]); }
  }
}
