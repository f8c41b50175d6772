/** Where every message the provider accepted ended up, in every run. */
module Sending {
  import opened Base
  import opened Keys
  import opened Leads
  import opened Timelines
  import opened Machine
  import opened Schedule
  import opened Store

  /** Attempts whose message the provider accepted and whose commit is still to come. */
  function InFlightSet(s: State, k: DedupeKey): set<Id> {
    set t | t in s.attempts && s.attempts[t].accepted && s.attempts[t].job.key == k
  }

  function CountRecorded(s: State, k: DedupeKey): nat {
    if k in s.index then 1 else 0
  }

  /** Accepted sends = recorded (at most one) + recorded and erased since + lost after acceptance + in flight. */
  predicate ConservedFor(s: State, k: DedupeKey) {
    s.history.accepted[k] == CountRecorded(s, k) + s.history.erased[k] + s.history.lost[k] + |InFlightSet(s, k)|
  }

  ghost predicate Conserved(s: State) {
    && AttemptsOk(s)
    && (forall k: DedupeKey :: IsMessageKey(k) ==> ConservedFor(s, k))
  }

  // ----- What an effect does to the recorded message keys -----

  /** Only the commit of a send records under a message key. */
  lemma OnlySendsRecordMessages(cfg: Config, s: State, a: Action, k: DedupeKey)
    requires IsMessageKey(k) && !a.CommitSend? && !a.Erase?
    ensures k in Next(cfg, s, a).index <==> k in s.index
  {
    hide Machine.Next;
    NextPerforms(cfg, s, a);
    match EffectOf(cfg, s, a)
    case Touch(l, ra) => if l in s.leads { RecordsKey(s.leads[l], ra); }
    case _ =>
  }

  lemma RemoveAttempt(s: State, s': State, t: Id, k: DedupeKey)
    requires t in s.attempts && s'.attempts == s.attempts - {t}
    ensures |InFlightSet(s', k)|
         == |InFlightSet(s, k)| - if s.attempts[t].accepted && s.attempts[t].job.key == k then 1 else 0
  {
    assert InFlightSet(s', k) == InFlightSet(s, k) - {t};
  }

  lemma AcceptAttempt(s: State, s': State, t: Id, k: DedupeKey)
    requires t in s.attempts && !s.attempts[t].accepted
    requires s'.attempts == s.attempts[t := s.attempts[t].(accepted := true)]
    ensures |InFlightSet(s', k)| == |InFlightSet(s, k)| + if s.attempts[t].job.key == k then 1 else 0
  {
    if s.attempts[t].job.key == k {
      assert InFlightSet(s', k) == InFlightSet(s, k) + {t};
    } else {
      assert InFlightSet(s', k) == InFlightSet(s, k);
    }
  }

  lemma CallConserves(cfg: Config, s: State, a: Action, k: DedupeKey)
    requires Conserved(s) && IsMessageKey(k) && a.CallProvider?
    ensures ConservedFor(Next(cfg, s, a), k)
  {
    assert ConservedFor(s, k);
    var s' := Next(cfg, s, a);
    OnlySendsRecordMessages(cfg, s, a, k);
    if a.attempt in s.attempts && !s.attempts[a.attempt].accepted {
      if ProviderTakes(s.attempts[a.attempt], a.accepts) {
        AcceptAttempt(s, s', a.attempt, k);
      } else {
        RemoveAttempt(s, s', a.attempt, k);
      }
    } else {
      assert InFlightSet(s', k) == InFlightSet(s, k);
    }
  }

  lemma CommitConserves(cfg: Config, s: State, a: Action, k: DedupeKey)
    requires Conserved(s) && IsMessageKey(k) && a.CommitSend?
    ensures ConservedFor(Next(cfg, s, a), k)
  {
    assert ConservedFor(s, k);
    var s' := Next(cfg, s, a);
    NextPerforms(cfg, s, a);
    if a.attempt in s.attempts && s.attempts[a.attempt].accepted && NewId(s, a.ev) {
      RemoveAttempt(s, s', a.attempt, k);
    } else {
      assert InFlightSet(s', k) == InFlightSet(s, k);
    }
  }

  lemma DieConserves(cfg: Config, s: State, a: Action, k: DedupeKey)
    requires Conserved(s) && IsMessageKey(k) && a.Die?
    ensures ConservedFor(Next(cfg, s, a), k)
  {
    assert ConservedFor(s, k);
    if a.attempt in s.attempts { RemoveAttempt(s, Next(cfg, s, a), a.attempt, k); }
  }

  lemma EraseConserves(cfg: Config, s: State, a: Action, k: DedupeKey)
    requires Conserved(s) && IsMessageKey(k) && a.Erase?
    ensures ConservedFor(Next(cfg, s, a), k)
  {
    assert ConservedFor(s, k);
    var gone := set x | x in s.index && s.index[x].lead in a.leads && IsMessageKey(x);
    assert multiset(gone)[k] == if k in gone then 1 else 0;
    assert InFlightSet(Next(cfg, s, a), k) == InFlightSet(s, k);
  }

  /** No send ends or is accepted; new ones may start. */
  predicate SendsUntouched(s: State, s': State) {
    && s'.history.accepted == s.history.accepted && s'.history.lost == s.history.lost
    && s'.history.erased == s.history.erased
    && (forall t :: t in s.attempts ==> t in s'.attempts && s'.attempts[t] == s.attempts[t])
    && (forall t :: t in s'.attempts && t !in s.attempts ==> !s'.attempts[t].accepted)
  }

  lemma UntouchedConserves(s: State, s': State, k: DedupeKey)
    requires ConservedFor(s, k) && SendsUntouched(s, s') && (k in s'.index <==> k in s.index)
    ensures ConservedFor(s', k)
  {
    assert InFlightSet(s', k) == InFlightSet(s, k);
  }

  lemma AroundLeavesSends(cfg: Config, s: State, a: Action, e: Effect, s': State)
    requires !a.CallProvider? && !a.CommitSend? && !a.Die? && !a.Erase?
    requires AttemptsOk(s) && OnlyRows(s, s')
    ensures SendsUntouched(s, Around(cfg, s, a, e, s'))
  {
  }

  lemma NextLeavesSends(cfg: Config, s: State, a: Action)
    requires AttemptsOk(s) && !a.CallProvider? && !a.CommitSend? && !a.Die? && !a.Erase?
    ensures SendsUntouched(s, Next(cfg, s, a))
  {
    var e := EffectOf(cfg, s, a);
    PerformsOnlyRows(s, e);
    AroundLeavesSends(cfg, s, a, e, Perform(s, e));
  }

  lemma OtherConserves(cfg: Config, s: State, a: Action, k: DedupeKey)
    requires Conserved(s) && IsMessageKey(k)
    requires !a.CallProvider? && !a.CommitSend? && !a.Die? && !a.Erase?
    ensures ConservedFor(Next(cfg, s, a), k)
  {
    assert ConservedFor(s, k);
    OnlySendsRecordMessages(cfg, s, a, k);
    NextLeavesSends(cfg, s, a);
    UntouchedConserves(s, Next(cfg, s, a), k);
  }

  lemma NextConservesFor(cfg: Config, s: State, a: Action, k: DedupeKey)
    requires Conserved(s) && IsMessageKey(k)
    ensures ConservedFor(Next(cfg, s, a), k)
  {
    match a
    case CallProvider(_, _, _, _, _) => CallConserves(cfg, s, a, k);
    case CommitSend(_, _, _) => CommitConserves(cfg, s, a, k);
    case Die(_) => DieConserves(cfg, s, a, k);
    case Erase(_, _, _) => EraseConserves(cfg, s, a, k);
    case _ => OtherConserves(cfg, s, a, k);
  }

  predicate AttemptsOk(s: State) {
    forall t :: t in s.attempts ==> IsMessageKey(s.attempts[t].job.key) && t in s.issued
  }

  lemma AroundKeepsAttemptsOk(cfg: Config, s: State, a: Action, e: Effect, s': State)
    requires AttemptsOk(s) && OnlyRows(s, s') && s.issued <= s'.issued
    ensures AttemptsOk(Around(cfg, s, a, e, s'))
  {
    hide CaptureHandoff, ScoreHandoff, PlannedFor, QueuedBy, ErasedContacts, ErasedSends, ProviderTakes;
  }

  lemma NextKeepsAttemptsOk(cfg: Config, s: State, a: Action)
    requires AttemptsOk(s)
    ensures AttemptsOk(Next(cfg, s, a))
  {
    var e := EffectOf(cfg, s, a);
    PerformsOnlyRows(s, e);
    AroundKeepsAttemptsOk(cfg, s, a, e, Perform(s, e));
  }

  lemma NextConserves(cfg: Config, s: State, a: Action)
    requires Conserved(s)
    ensures Conserved(Next(cfg, s, a))
  {
    forall k: DedupeKey | IsMessageKey(k) ensures ConservedFor(Next(cfg, s, a), k) {
      NextConservesFor(cfg, s, a, k);
    }
    NextKeepsAttemptsOk(cfg, s, a);
  }

  // ----- Main results -----

  /** In every run, every accepted send of every message is accounted for. */
  lemma {:induction false} SendsAreConserved(cfg: Config, actions: seq<Action>)
    ensures Conserved(Run(cfg, INIT, actions))
  {
    if actions == [] {
      forall k: DedupeKey ensures InFlightSet(INIT, k) == {} { }
    } else {
      SendsAreConserved(cfg, actions[..|actions| - 1]);
      NextConserves(cfg, Run(cfg, INIT, actions[..|actions| - 1]), actions[|actions| - 1]);
    }
  }

  /** The entry stands while its lead exists. */
  predicate Stands(s: State, k: DedupeKey, entry: Entry) {
    entry.lead in s.issued && (entry.lead in s.leads ==> k in s.index && s.index[k] == entry)
  }

  lemma EffectKeepsStanding(s: State, s': State, e: Effect, k: DedupeKey, entry: Entry)
    requires Stands(s, k, entry)
    requires s'.leads == Perform(s, e).leads && s'.index == Perform(s, e).index && s.issued <= s'.issued
    requires
      match e
      case Touch(l, ra) =>
        l in s.leads && (Timelines.Records(s.leads[l], ra).Some? ==>
          Timelines.Records(s.leads[l], ra).value.Keyed? && Timelines.Records(s.leads[l], ra).value.key !in s.index)
      case Create(row, entry) => row.id !in s.issued && entry.Keyed? && entry.key !in s.index
      case _ => true
    ensures Stands(s', k, entry)
  {
  }

  lemma NextKeepsStanding(cfg: Config, s: State, a: Action, k: DedupeKey, entry: Entry)
    requires Stands(s, k, entry)
    ensures Stands(Next(cfg, s, a), k, entry)
  {
    NextPerforms(cfg, s, a);
    EffectIsFree(cfg, s, a);
    var e := EffectOf(cfg, s, a);
    if e.Touch? { RecordsKey(s.leads[e.lead], e.action); }
    EffectKeepsStanding(s, Next(cfg, s, a), e, k, entry);
  }

  /** A recorded event stays under its key until its lead is erased. */
  lemma {:induction false} RecordedStaysRecorded(cfg: Config, before: seq<Action>, after: seq<Action>, k: DedupeKey)
    requires k in Run(cfg, INIT, before).index
    ensures Stands(Run(cfg, INIT, before + after), k, Run(cfg, INIT, before).index[k])
  {
    var entry := Run(cfg, INIT, before).index[k];
    if after == [] {
      assert before + after == before;
      RunKeepsIndexed(cfg, before);
      assert EntryStored(Run(cfg, INIT, before).leads, k, entry);
    } else {
      var last := |after| - 1;
      RecordedStaysRecorded(cfg, before, after[..last], k);
      assert (before + after)[..|before + after| - 1] == before + after[..last];
      NextKeepsStanding(cfg, Run(cfg, INIT, before + after[..last]), after[last], k, entry);
    }
  }

  /** An attempt that starts after the message was recorded never reaches the provider. */
  lemma NoSendAfterRecorded(cfg: Config, before: seq<Action>, after: seq<Action>, job: MessageJob)
    requires job.key in Run(cfg, INIT, before).index && Run(cfg, INIT, before).index[job.key].lead == job.lead
    ensures !CheckOf(Run(cfg, INIT, before + after), job).Proceed?
  {
    RecordedStaysRecorded(cfg, before, after, job.key);
  }

  /** At any moment at most one event exists under a key, in the timeline of one lead. */
  lemma OneEventPerKey(cfg: Config, actions: seq<Action>, l: Id, i: nat, m: Id, j: nat)
    requires
      var leads := Run(cfg, INIT, actions).leads;
      && l in leads && m in leads && i < |leads[l].timeline| && j < |leads[m].timeline|
      && leads[l].timeline[i].Keyed? && leads[m].timeline[j].Keyed?
      && leads[l].timeline[i].key == leads[m].timeline[j].key
    ensures l == m && i == j
  {
    RunKeepsIndexed(cfg, actions);
    var s := Run(cfg, INIT, actions);
    var e, f := s.leads[l].timeline[i], s.leads[m].timeline[j];
    assert RowIndexed(s.index, l, s.leads[l]) && RowIndexed(s.index, m, s.leads[m]);
    KeyedEventsHolds(s.leads[l].timeline, e);
    KeyedEventsHolds(s.leads[m].timeline, f);
    if i < j {
      DistinctPositions(s.leads[l].timeline, i, j);
    } else if j < i {
      DistinctPositions(s.leads[l].timeline, j, i);
    }
  }

  /** Distinct keys among the keyed events mean distinct keys at distinct positions of the timeline. */
  lemma {:induction false} DistinctPositions(es: seq<Event>, i: nat, j: nat)
    requires i < j < |es| && es[i].Keyed? && es[j].Keyed? && DistinctKeys(KeyedEvents(es))
    ensures es[i].key != es[j].key
  {
    var a, b := es[..j], es[j..];
    assert a + b == es;
    KeyedEventsAppend(a, b);
    KeyedEventsHolds(a, es[i]);
    KeyedEventsHolds(b, es[j]);
    assert a[i] == es[i] && b[0] == es[j];
    var x :| 0 <= x < |KeyedEvents(a)| && KeyedEvents(a)[x] == es[i];
    var y :| 0 <= y < |KeyedEvents(b)| && KeyedEvents(b)[y] == es[j];
    var all := KeyedEvents(es);
    assert all[x] == es[i] && all[|KeyedEvents(a)| + y] == es[j];
  }
}
