/**
 The CRM timeline of one lead: which events a sync still has to push, and what the timeline looks
 like after any run of event commits and sync jobs that may fail at any call.
 */
module CrmLog {
  import opened Base
  import opened Order

  /** Only events at least this old (ms) are pushed. */
  const SYNC_LAG_MS: int := 10000
  const BATCH_SIZE: nat := 50
  const MAX_BATCHES_PER_JOB: nat := 10

  /** `syncable` is false for the events about the sync itself. */
  datatype Event = Event(stamp: Stamp, syncable: bool)

  /** The lead's persisted position: `crmSyncedThrough` and `crmSyncedEventId`. */
  datatype Cursor = Cursor(through: Option<int>, eventId: Option<string>)

  const START := Cursor(None, None)

  function CursorAt(e: Event): Cursor {
    Cursor(Some(e.stamp.at), Some(e.stamp.id))
  }

  /** The sync's query: after the position, as an OR of two comparisons. */
  predicate AfterCursor(e: Event, c: Cursor) {
    c.through.Some? ==>
      || e.stamp.at > c.through.value
      || (e.stamp.at == c.through.value && Less(c.eventId.GetOr(""), e.stamp.id))
  }

  predicate Wanted(e: Event, cutoff: int, c: Cursor) {
    e.syncable && e.stamp.at <= cutoff && AfterCursor(e, c)
  }

  /** The lead's events in (createdAt, id) order. */
  predicate Sorted(log: seq<Event>) {
    forall i, j :: 0 <= i < j < |log| ==> Before(log[i].stamp, log[j].stamp)
  }

  /** What is left to push: the ordered result of the query, without its limit. */
  function Pending(log: seq<Event>, cutoff: int, c: Cursor): seq<Event> {
    if log == [] then []
    else if Wanted(log[0], cutoff, c) then [log[0]] + Pending(log[1..], cutoff, c)
    else Pending(log[1..], cutoff, c)
  }

  function Syncable(log: seq<Event>): seq<Event> {
    if log == [] then []
    else if log[0].syncable then [log[0]] + Syncable(log[1..])
    else Syncable(log[1..])
  }

  lemma {:induction false} PendingHolds(log: seq<Event>, cutoff: int, c: Cursor, e: Event)
    ensures e in Pending(log, cutoff, c) <==> e in log && Wanted(e, cutoff, c)
  {
    if log == [] {
    } else {
      PendingHolds(log[1..], cutoff, c, e);
      assert e in log <==> e == log[0] || e in log[1..];
    }
  }

  lemma {:induction false} SyncableHolds(log: seq<Event>, e: Event)
    ensures e in Syncable(log) <==> e in log && e.syncable
  {
    if log == [] {
    } else {
      SyncableHolds(log[1..], e);
      assert e in log <==> e == log[0] || e in log[1..];
    }
  }

  // ----- The query on a sorted log is a slice of the syncable events -----

  lemma {:induction false} SyncableSorted(log: seq<Event>)
    requires Sorted(log)
    ensures Sorted(Syncable(log))
  {
    if log == [] {
    } else {
      SyncableSorted(log[1..]);
      var rest := Syncable(log[1..]);
      forall i | 0 <= i < |rest| ensures Before(log[0].stamp, rest[i].stamp) {
        SyncableHolds(log[1..], rest[i]);
      }
    }
  }

  /** How many of `l` are at or before the cursor. */
  function DoneCount(l: seq<Event>, c: Cursor): (n: nat)
    ensures n <= |l|
  {
    if l == [] || AfterCursor(l[0], c) then 0 else 1 + DoneCount(l[1..], c)
  }

  /** How many of `l` are old enough. */
  function OldCount(l: seq<Event>, cutoff: int): (n: nat)
    ensures n <= |l|
  {
    if l == [] || l[0].stamp.at > cutoff then 0 else 1 + OldCount(l[1..], cutoff)
  }

  lemma {:induction false} DoneCountSplits(l: seq<Event>, c: Cursor)
    requires Sorted(l)
    ensures forall i :: 0 <= i < |l| ==> (AfterCursor(l[i], c) <==> i >= DoneCount(l, c))
  {
    if l == [] {
    } else {
      if AfterCursor(l[0], c) {
        forall i | 0 <= i < |l| ensures AfterCursor(l[i], c) {
          if i > 0 { AfterIsUpward(l[0], l[i], c); }
        }
      } else {
        DoneCountSplits(l[1..], c);
        assert forall i :: 1 <= i < |l| ==> l[i] == l[1..][i - 1];
      }
    }
  }

  lemma AfterIsUpward(a: Event, b: Event, c: Cursor)
    requires Before(a.stamp, b.stamp) && AfterCursor(a, c)
    ensures AfterCursor(b, c)
  {
    if c.through.Some? && a.stamp.at == b.stamp.at == c.through.value {
      LessTransitive(c.eventId.GetOr(""), a.stamp.id, b.stamp.id);
    }
  }

  lemma {:induction false} OldCountSplits(l: seq<Event>, cutoff: int)
    requires Sorted(l)
    ensures forall i :: 0 <= i < |l| ==> (l[i].stamp.at <= cutoff <==> i < OldCount(l, cutoff))
  {
    if l == [] {
    } else {
      OldCountSplits(l[1..], cutoff);
      assert forall i :: 1 <= i < |l| ==> l[i] == l[1..][i - 1];
    }
  }

  /** The query's result as a slice: from the cursor to the cutoff. */
  lemma {:induction false} PendingIsSlice(log: seq<Event>, cutoff: int, c: Cursor)
    requires Sorted(log)
    ensures
      var l := Syncable(log);
      var d, o := DoneCount(l, c), OldCount(l, cutoff);
      Pending(log, cutoff, c) == if d <= o then l[d..o] else []
  {
    if log == [] {
    } else {
      PendingIsSlice(log[1..], cutoff, c);
      var h, rest := log[0], Syncable(log[1..]);
      if h.syncable {
        if rest != [] {
          SyncableHolds(log[1..], rest[0]);
          if AfterCursor(h, c) { AfterIsUpward(h, rest[0], c); }
        }
        SliceCons(h, rest, cutoff, c);
      }
    }
  }

  /** One more event in front, older than the rest. */
  lemma SliceCons(h: Event, rest: seq<Event>, cutoff: int, c: Cursor)
    requires rest != [] ==> h.stamp.at <= rest[0].stamp.at && (AfterCursor(h, c) ==> AfterCursor(rest[0], c))
    ensures
      var l := [h] + rest;
      var slice := if DoneCount(rest, c) <= OldCount(rest, cutoff)
                   then rest[DoneCount(rest, c)..OldCount(rest, cutoff)] else [];
      (if h.stamp.at <= cutoff && AfterCursor(h, c) then [h] else []) + slice
      == if DoneCount(l, c) <= OldCount(l, cutoff) then l[DoneCount(l, c)..OldCount(l, cutoff)] else []
  {
    var l := [h] + rest;
    assert l[1..] == rest;
    if h.stamp.at > cutoff {
      assert OldCount(rest, cutoff) == 0;
    } else if AfterCursor(h, c) {
      assert DoneCount(rest, c) == 0;
      assert l[0..1 + OldCount(rest, cutoff)] == [h] + rest[0..OldCount(rest, cutoff)];
    }
  }

  // ----- Runs -----

  /**
   The lead's events and position, the activities the CRM received, the latest clock reading and
   the number of sync attempts that failed.
   */
  datatype State = State(log: seq<Event>, cursor: Cursor, sent: seq<Event>, clock: int, failures: nat)

  datatype Action =
    /** An event becomes visible at clock reading `now`. */
    | Commit(event: Event, now: int)
    /**
     A sync job starts at `now` and pushes and saves `pushed` events. If it fails, the next event
     may have reached the CRM without its position being saved (`extra`).
     */
    | Job(now: int, pushed: nat, extra: bool, failed: bool)

  function Insert(log: seq<Event>, e: Event): seq<Event> {
    if log == [] || Before(e.stamp, log[0].stamp) then [e] + log else [log[0]] + Insert(log[1..], e)
  }

  predicate Fresh(log: seq<Event>, e: Event) {
    forall i :: 0 <= i < |log| ==> log[i].stamp != e.stamp
  }

  /** How many events one job handles: ten batches of fifty. */
  function Quota(log: seq<Event>, now: int, c: Cursor): nat {
    Min(BATCH_SIZE * MAX_BATCHES_PER_JOB, |Pending(log, now - SYNC_LAG_MS, c)|)
  }

  /**
   The clock never goes back, events are visible within the lag of their timestamp, and a job that
   does not fail handles its whole quota.
   */
  predicate Possible(s: State, a: Action) {
    match a
    case Commit(e, now) => now >= s.clock && e.stamp.at > now - SYNC_LAG_MS && Fresh(s.log, e)
    case Job(now, pushed, extra, failed) =>
      var quota := Quota(s.log, now, s.cursor);
      && now >= s.clock
      && pushed <= quota
      && (extra ==> failed && pushed < quota)
      && (!failed ==> pushed == quota)
  }

  function Next(s: State, a: Action): State {
    if !Possible(s, a) then s
    else
      match a
      case Commit(e, now) => s.(log := Insert(s.log, e), clock := now)
      case Job(now, pushed, extra, failed) =>
        var p := Pending(s.log, now - SYNC_LAG_MS, s.cursor);
        s.(cursor := if pushed == 0 then s.cursor else CursorAt(p[pushed - 1]),
           sent := s.sent + p[..if extra then pushed + 1 else pushed],
           clock := now,
           failures := s.failures + if failed then 1 else 0)
  }

  function Run(s: State, actions: seq<Action>): State {
    if actions == [] then s else Next(Run(s, actions[..|actions| - 1]), actions[|actions| - 1])
  }

  function Init(clock: int): State {
    State([], START, [], clock, 0)
  }

  /** The timeline with immediate repeats removed. */
  function Collapse(sent: seq<Event>): seq<Event> {
    if |sent| <= 1 then sent
    else
      var init := Collapse(sent[..|sent| - 1]);
      if sent[|sent| - 1] == sent[|sent| - 2] then init else init + [sent[|sent| - 1]]
  }

  // ----- The invariant -----

  /**
   `d` of the syncable events `l` are saved; `Collapse(sent)` is the first `d` of them, plus one when
   the last job left an extra; all of it is old enough to be complete.
   */
  predicate Position(l: seq<Event>, d: nat, cursor: Cursor, collapsed: seq<Event>, oldEnough: nat) {
    && d <= |collapsed| <= d + 1 && |collapsed| <= oldEnough <= |l|
    && collapsed == l[..|collapsed|]
    && (if d == 0 then cursor == START else cursor == CursorAt(l[d - 1]))
  }

  predicate Inv(s: State) {
    var l := Syncable(s.log);
    var d := DoneCount(l, s.cursor);
    && Sorted(s.log)
    && Position(l, d, s.cursor, Collapse(s.sent), OldCount(l, s.clock - SYNC_LAG_MS))
    && |s.sent| <= d + s.failures
  }

  lemma CollapseLast(sent: seq<Event>)
    requires sent != []
    ensures Collapse(sent) != [] && Collapse(sent)[|Collapse(sent)| - 1] == sent[|sent| - 1]
    ensures |Collapse(sent)| <= |sent|
  {
    if |sent| == 1 {
    } else {
      CollapseLast(sent[..|sent| - 1]);
    }
  }

  lemma CollapseAppend(sent: seq<Event>, e: Event)
    ensures Collapse(sent + [e]) ==
      if sent != [] && sent[|sent| - 1] == e then Collapse(sent) else Collapse(sent) + [e]
  {
    var t := sent + [e];
    assert t[..|t| - 1] == sent;
    if sent == [] { assert t == [e]; }
  }

  predicate NoStutter(l: seq<Event>) {
    forall i :: 0 < i < |l| ==> l[i - 1] != l[i]
  }

  lemma SortedNoStutter(l: seq<Event>)
    requires Sorted(l)
    ensures NoStutter(l)
  {
    forall i | 0 < i < |l| ensures l[i - 1] != l[i] {
      BeforeTotal(l[i - 1].stamp, l[i].stamp);
    }
  }

  lemma CollapsePushOne(sent: seq<Event>, l: seq<Event>, d: nat)
    requires NoStutter(l) && d < |l|
    requires d <= |Collapse(sent)| <= d + 1
    requires Collapse(sent) == l[..|Collapse(sent)|]
    ensures Collapse(sent + [l[d]]) == l[..d + 1]
  {
    CollapseAppend(sent, l[d]);
    if sent != [] { CollapseLast(sent); }
    hide Collapse;
    var c := Collapse(sent);
    if |c| == d {
      if sent != [] { assert sent[|sent| - 1] == l[d - 1]; }
      assert l[..d] + [l[d]] == l[..d + 1];
    } else {
      assert sent[|sent| - 1] == l[d];
    }
  }

  /** Pushing the syncable events `d..n` after a timeline that ends at `d` or one past it. */
  lemma {:induction false} CollapsePush(sent: seq<Event>, l: seq<Event>, d: nat, n: nat)
    requires NoStutter(l) && d < n <= |l|
    requires d <= |Collapse(sent)| <= d + 1
    requires Collapse(sent) == l[..|Collapse(sent)|]
    ensures Collapse(sent + l[d..n]) == l[..n]
  {
    SliceStep(sent, l, d, n);
    if n == d + 1 {
      CollapsePushOne(sent, l, d);
    } else {
      CollapsePush(sent, l, d, n - 1);
      CollapsePushOne(sent + l[d..n - 1], l, n - 1);
    }
  }

  lemma SliceStep(sent: seq<Event>, l: seq<Event>, d: nat, n: nat)
    requires d < n <= |l|
    ensures sent + l[d..n] == sent + l[d..n - 1] + [l[n - 1]]
    ensures n == d + 1 ==> sent + l[d..n - 1] == sent
  {
    assert l[d..n] == l[d..n - 1] + [l[n - 1]];
  }

  lemma {:induction false} OldCountMonotone(l: seq<Event>, a: int, b: int)
    requires a <= b
    ensures OldCount(l, a) <= OldCount(l, b)
  {
    if l == [] {
    } else {
      OldCountMonotone(l[1..], a, b);
    }
  }

  /** The position of a saved event is its index. */
  lemma DoneCountAt(l: seq<Event>, i: nat)
    requires Sorted(l) && i < |l|
    ensures DoneCount(l, CursorAt(l[i])) == i + 1
  {
    var c := CursorAt(l[i]);
    DoneCountSplits(l, c);
    LessTotal(l[i].stamp.id, l[i].stamp.id);
    assert !AfterCursor(l[i], c);
    if i + 1 < |l| {
      assert Before(l[i].stamp, l[i + 1].stamp);
      assert AfterCursor(l[i + 1], c);
    }
  }

  /** A job in terms of the syncable events: it sends a slice from the saved position on. */
  lemma JobSendsSlice(s: State, a: Action)
    requires Sorted(s.log) && a.Job? && Possible(s, a)
    ensures
      var l := Syncable(s.log);
      var d, o := DoneCount(l, s.cursor), OldCount(l, a.now - SYNC_LAG_MS);
      var n := d + if a.extra then a.pushed + 1 else a.pushed;
      && (d < n ==> n <= o)
      && n <= |l|
      && Next(s, a).sent == s.sent + l[d..n]
      && DoneCount(l, Next(s, a).cursor) == d + a.pushed
      && Next(s, a).cursor == if a.pushed == 0 then s.cursor else CursorAt(l[d + a.pushed - 1])
  {
    var cutoff := a.now - SYNC_LAG_MS;
    var l := Syncable(s.log);
    SyncableSorted(s.log);
    PendingIsSlice(s.log, cutoff, s.cursor);
    var d := DoneCount(l, s.cursor);
    if a.pushed > 0 { DoneCountAt(l, d + a.pushed - 1); }
  }

  /** The slice moves the position along. */
  lemma SlicePosition(l: seq<Event>, sent: seq<Event>, d: nat, pushed: nat, extra: bool, c: Cursor, o: nat, o': nat)
    requires NoStutter(l) && Position(l, d, c, Collapse(sent), o) && o <= o' <= |l|
    requires
      var n := d + if extra then pushed + 1 else pushed;
      d < n ==> n <= o'
    ensures
      var n := d + if extra then pushed + 1 else pushed;
      && n <= |l|
      && Position(l, d + pushed, if pushed == 0 then c else CursorAt(l[d + pushed - 1]), Collapse(sent + l[d..n]), o')
  {
    var n := d + if extra then pushed + 1 else pushed;
    if n > d {
      CollapsePush(sent, l, d, n);
    } else {
      assert sent + l[d..n] == sent;
    }
  }

  /** What a job does to the position keeps the invariant. */
  lemma SliceKeepsInv(s: State, s': State, l: seq<Event>, d: nat, pushed: nat, extra: bool)
    requires Inv(s) && l == Syncable(s.log) && d == DoneCount(l, s.cursor)
    requires s'.log == s.log && s'.clock >= s.clock && s'.failures >= s.failures + if extra then 1 else 0
    requires
      var n := d + if extra then pushed + 1 else pushed;
      && n <= |l| && (d < n ==> n <= OldCount(l, s'.clock - SYNC_LAG_MS))
      && s'.sent == s.sent + l[d..n]
    requires d + pushed == DoneCount(l, s'.cursor)
    requires s'.cursor == if pushed == 0 then s.cursor else CursorAt(l[d + pushed - 1])
    ensures Inv(s')
  {
    SyncableSorted(s.log);
    SortedNoStutter(l);
    OldCountMonotone(l, s.clock - SYNC_LAG_MS, s'.clock - SYNC_LAG_MS);
    SlicePosition(l, s.sent, d, pushed, extra, s.cursor,
                  OldCount(l, s.clock - SYNC_LAG_MS), OldCount(l, s'.clock - SYNC_LAG_MS));
    EstablishInv(s', l, d + pushed);
  }

  lemma JobKeepsInv(s: State, a: Action)
    requires Inv(s) && a.Job? && Possible(s, a)
    ensures Inv(Next(s, a))
  {
    var l := Syncable(s.log);
    JobSendsSlice(s, a);
    SliceKeepsInv(s, Next(s, a), l, DoneCount(l, s.cursor), a.pushed, a.extra);
  }

  lemma EstablishInv(s: State, l: seq<Event>, d: nat)
    requires Sorted(s.log) && l == Syncable(s.log) && d == DoneCount(l, s.cursor)
    requires Position(l, d, s.cursor, Collapse(s.sent), OldCount(l, s.clock - SYNC_LAG_MS))
    requires |s.sent| <= d + s.failures
    ensures Inv(s)
  {
  }

  lemma {:induction false} InsertHolds(log: seq<Event>, e: Event, x: Event)
    ensures x in Insert(log, e) <==> x == e || x in log
  {
    if log == [] || Before(e.stamp, log[0].stamp) {
    } else {
      InsertHolds(log[1..], e, x);
      assert x in log <==> x == log[0] || x in log[1..];
    }
  }

  lemma {:induction false} InsertSorted(log: seq<Event>, e: Event)
    requires Sorted(log) && Fresh(log, e)
    ensures Sorted(Insert(log, e))
  {
    var grown := Insert(log, e);
    if log == [] {
    } else if Before(e.stamp, log[0].stamp) {
      forall i, j | 0 <= i < j < |grown| ensures Before(grown[i].stamp, grown[j].stamp) {
        if i == 0 && j > 1 { BeforeTransitive(e.stamp, log[0].stamp, log[j - 1].stamp); }
      }
    } else {
      BeforeTotal(e.stamp, log[0].stamp);
      InsertSorted(log[1..], e);
      forall i, j | 0 <= i < j < |grown| ensures Before(grown[i].stamp, grown[j].stamp) {
        if i == 0 { InsertHolds(log[1..], e, grown[j]); }
      }
    }
  }

  /** A new event lands past everything that was old enough to be complete. */
  lemma {:induction false} InsertKeepsOld(log: seq<Event>, e: Event, cutoff: int)
    requires Sorted(log) && e.stamp.at > cutoff
    ensures
      var l, l' := Syncable(log), Syncable(Insert(log, e));
      OldCount(l', cutoff) == OldCount(l, cutoff) && l'[..OldCount(l, cutoff)] == l[..OldCount(l, cutoff)]
  {
    var grown := Insert(log, e);
    var l := Syncable(log);
    if log == [] {
    } else if Before(e.stamp, log[0].stamp) {
      assert grown[1..] == log;
      if l != [] {
        SyncableHolds(log, l[0]);
        assert OldCount(l, cutoff) == 0;
      }
    } else {
      InsertKeepsOld(log[1..], e, cutoff);
      assert grown[1..] == Insert(log[1..], e);
      if log[0].syncable {
        PrefixCons(log[0], Syncable(log[1..]), Syncable(grown[1..]), cutoff);
      }
    }
  }

  lemma PrefixCons(h: Event, rest: seq<Event>, rest': seq<Event>, cutoff: int)
    requires OldCount(rest, cutoff) == OldCount(rest', cutoff)
    requires rest[..OldCount(rest, cutoff)] == rest'[..OldCount(rest, cutoff)]
    ensures
      var l, l' := [h] + rest, [h] + rest';
      OldCount(l', cutoff) == OldCount(l, cutoff) && l'[..OldCount(l, cutoff)] == l[..OldCount(l, cutoff)]
  {
    var l, l' := [h] + rest, [h] + rest';
    assert l[1..] == rest && l'[1..] == rest';
    var o := OldCount(l, cutoff);
    if o > 0 {
      assert l[..o] == [h] + rest[..o - 1] && l'[..o] == [h] + rest'[..o - 1];
    }
  }

  lemma {:induction false} DoneCountPrefix(l: seq<Event>, l': seq<Event>, c: Cursor, o: nat)
    requires o <= |l| && o <= |l'| && l[..o] == l'[..o]
    requires DoneCount(l, c) <= o
    requires o < |l'| ==> AfterCursor(l'[o], c)
    ensures DoneCount(l', c) == DoneCount(l, c)
  {
    if o > 0 && !AfterCursor(l[0], c) {
      assert l[0] == l[..o][0] && l'[0] == l'[..o][0];
      assert l[1..][..o - 1] == l[..o][1..] && l'[1..][..o - 1] == l'[..o][1..];
      DoneCountPrefix(l[1..], l'[1..], c, o - 1);
    } else if o > 0 {
      assert l[0] == l[..o][0] && l'[0] == l'[..o][0];
    }
  }

  lemma CommitKeepsInv(s: State, a: Action)
    requires Inv(s) && a.Commit? && Possible(s, a)
    ensures Inv(Next(s, a))
  {
    var cutoff := s.clock - SYNC_LAG_MS;
    var l, l' := Syncable(s.log), Syncable(Insert(s.log, a.event));
    var o, d := OldCount(l, cutoff), DoneCount(l, s.cursor);
    InsertSorted(s.log, a.event);
    InsertKeepsOld(s.log, a.event, cutoff);
    SyncableSorted(s.log);
    SyncableSorted(Insert(s.log, a.event));
    OldCountSplits(l', cutoff);
    OldCountSplits(l, cutoff);
    if d > 0 { assert l'[d - 1] == l'[..o][d - 1] == l[..o][d - 1] == l[d - 1]; }
    DoneCountPrefix(l, l', s.cursor, o);
    OldCountMonotone(l', cutoff, a.now - SYNC_LAG_MS);
    var n := |Collapse(s.sent)|;
    assert l'[..n] == l'[..o][..n] == l[..o][..n] == l[..n];
  }

  lemma {:induction false} RunKeepsInv(clock: int, actions: seq<Action>)
    ensures Inv(Run(Init(clock), actions))
  {
    if actions == [] {
    } else {
      var prefix, a := actions[..|actions| - 1], actions[|actions| - 1];
      RunKeepsInv(clock, prefix);
      var s := Run(Init(clock), prefix);
      if Possible(s, a) {
        if a.Job? { JobKeepsInv(s, a); } else { CommitKeepsInv(s, a); }
      }
    }
  }

  // ----- Main results -----

  /**
   In every run, without its immediate repeats the CRM timeline is a prefix of the lead's syncable
   events in (createdAt, id) order (so nothing is skipped or out of order) that reaches the saved
   position, and there are at most as many repeats as failed attempts.
   */
  lemma TimelineIsCorrect(clock: int, actions: seq<Action>)
    ensures
      var s := Run(Init(clock), actions);
      && Collapse(s.sent) <= Syncable(s.log)
      && (forall e :: e in s.log && e.syncable && !AfterCursor(e, s.cursor) ==> e in s.sent)
      && |s.sent| - |Collapse(s.sent)| <= s.failures
  {
    RunKeepsInv(clock, actions);
    var s := Run(Init(clock), actions);
    var l := Syncable(s.log);
    var c := Collapse(s.sent);
    SyncableSorted(s.log);
    DoneCountSplits(l, s.cursor);
    forall e | e in s.log && e.syncable && !AfterCursor(e, s.cursor) ensures e in s.sent {
      SyncableHolds(s.log, e);
      var i :| 0 <= i < |l| && l[i] == e;
      assert c[i] == l[i];
      CollapseKeepsOnlySent(s.sent);
    }
  }

  lemma {:induction false} CollapseKeepsOnlySent(sent: seq<Event>)
    ensures forall e :: e in Collapse(sent) ==> e in sent
  {
    if |sent| <= 1 {
    } else {
      CollapseKeepsOnlySent(sent[..|sent| - 1]);
    }
  }

  /** The saved position never moves back. */
  lemma CursorOnlyGrows(clock: int, actions: seq<Action>, a: Action)
    ensures
      var s := Run(Init(clock), actions);
      forall e :: !AfterCursor(e, s.cursor) ==> !AfterCursor(e, Next(s, a).cursor)
  {
    RunKeepsInv(clock, actions);
    var s := Run(Init(clock), actions);
    if Possible(s, a) && a.Job? && a.pushed > 0 {
      var p := Pending(s.log, a.now - SYNC_LAG_MS, s.cursor);
      var last := p[a.pushed - 1];
      PendingHolds(s.log, a.now - SYNC_LAG_MS, s.cursor, last);
      forall e | !AfterCursor(e, s.cursor) ensures !AfterCursor(e, CursorAt(last)) {
        if AfterCursor(e, CursorAt(last)) {
          AfterIsUpward(last, e, s.cursor);
          assert false;
        }
      }
    }
  }

  /** Events committed while a job runs don't change what it has to push. */
  lemma CommitsDontDisturbJob(log: seq<Event>, e: Event, jobStart: int, now: int, c: Cursor)
    requires Sorted(log) && Fresh(log, e)
    requires now >= jobStart && e.stamp.at > now - SYNC_LAG_MS
    ensures Pending(Insert(log, e), jobStart - SYNC_LAG_MS, c) == Pending(log, jobStart - SYNC_LAG_MS, c)
  {
    PendingSkipsYoung(log, e, jobStart - SYNC_LAG_MS, c);
  }

  lemma {:induction false} PendingSkipsYoung(log: seq<Event>, e: Event, cutoff: int, c: Cursor)
    requires e.stamp.at > cutoff
    ensures Pending(Insert(log, e), cutoff, c) == Pending(log, cutoff, c)
  {
    if log == [] || Before(e.stamp, log[0].stamp) {
      assert ([e] + log)[1..] == log;
    } else {
      PendingSkipsYoung(log[1..], e, cutoff, c);
      assert ([log[0]] + Insert(log[1..], e))[1..] == Insert(log[1..], e);
    }
  }

  /** A job that does not fail pushes its quota and leaves exactly the rest. */
  lemma JobsDrain(s: State, now: int)
    requires Sorted(s.log) && now >= s.clock
    ensures
      var before := Pending(s.log, now - SYNC_LAG_MS, s.cursor);
      var quota := Quota(s.log, now, s.cursor);
      var s' := Next(s, Job(now, quota, false, false));
      && s'.sent == s.sent + before[..quota]
      && Pending(s'.log, now - SYNC_LAG_MS, s'.cursor) == before[quota..]
  {
    var quota := Quota(s.log, now, s.cursor);
    AdvanceBy(s.log, now - SYNC_LAG_MS, s.cursor, quota);
  }

  /** The lead after `n` jobs that don't fail. */
  function Jobs(s: State, now: int, n: nat): State {
    if n == 0 then s
    else
      var s' := Jobs(s, now, n - 1);
      Next(s', Job(now, Quota(s'.log, now, s'.cursor), false, false))
  }

  /** Repeated jobs push the backlog in order, a quota at a time, until nothing is pending. */
  lemma {:induction false} RepeatedJobsDrain(s: State, now: int, n: nat)
    requires Sorted(s.log) && now >= s.clock
    ensures
      var before := Pending(s.log, now - SYNC_LAG_MS, s.cursor);
      var pushed := Min(500 * n, |before|);
      var s' := Jobs(s, now, n);
      && s'.log == s.log && s'.clock <= now
      && s'.sent == s.sent + before[..pushed]
      && Pending(s'.log, now - SYNC_LAG_MS, s'.cursor) == before[pushed..]
  {
    var before := Pending(s.log, now - SYNC_LAG_MS, s.cursor);
    if n == 0 {
      assert before[..0] == [];
    } else {
      RepeatedJobsDrain(s, now, n - 1);
      var s' := Jobs(s, now, n - 1);
      JobsDrain(s', now);
      var done := Min(BATCH_SIZE * MAX_BATCHES_PER_JOB * (n - 1), |before|);
      var quota := Quota(s'.log, now, s'.cursor);
      assert done + quota == Min(BATCH_SIZE * MAX_BATCHES_PER_JOB * n, |before|);
      assert before[..done] + before[done..][..quota] == before[..done + quota];
    }
  }

  /** Saving the position of the `n`-th pending event drops exactly the first `n`. */
  lemma AdvanceBy(log: seq<Event>, cutoff: int, c: Cursor, n: nat)
    requires Sorted(log) && n <= |Pending(log, cutoff, c)|
    ensures
      var p := Pending(log, cutoff, c);
      Pending(log, cutoff, if n == 0 then c else CursorAt(p[n - 1])) == p[n..]
  {
    var p := Pending(log, cutoff, c);
    if n > 0 {
      var l := Syncable(log);
      SyncableSorted(log);
      PendingIsSlice(log, cutoff, c);
      var d, o := DoneCount(l, c), OldCount(l, cutoff);
      assert p == l[d..o] && p[n - 1] == l[d + n - 1];
      DoneCountAt(l, d + n - 1);
      PendingIsSlice(log, cutoff, CursorAt(p[n - 1]));
    }
  }

  // ----- The sweep -----

  /** A SQL truth value: None is NULL. */
  type Sql = Option<bool>

  /** SQL's `(a, b) > (c, d)` where `c` and `d` may be NULL and `a` and `b` may not. */
  function RowGreater(at: int, id: string, c: Option<int>, d: Option<string>): Sql {
    if c.None? then None
    else if at != c.value then Some(at > c.value)
    else if d.None? then None
    else Some(Less(d.value, id))
  }

  predicate SweepWants(e: Event, cutoff: int, c: Cursor) {
    && e.stamp.at <= cutoff && e.syncable
    && (c.through.None? || RowGreater(e.stamp.at, e.stamp.id, c.through, c.eventId) == Some(true))
  }

  /** The sweep's row comparison and the sync's OR agree on every event whenever the position is whole. */
  lemma ComparisonsAgree(e: Event, cutoff: int, c: Cursor)
    requires c.through.Some? ==> c.eventId.Some?
    ensures SweepWants(e, cutoff, c) <==> Wanted(e, cutoff, c)
  {
  }

  /** `findLeadsToSync` without its limit, for one lead. */
  predicate SweepSelects(parked: bool, disqualified: bool, syncDisqualified: bool, log: seq<Event>, now: int,
      c: Cursor) {
    && !parked && (syncDisqualified || !disqualified)
    && exists i :: 0 <= i < |log| && SweepWants(log[i], now - SYNC_LAG_MS, c)
  }

  /** The gates of `syncLead`. */
  predicate SyncAllowed(parked: bool, disqualified: bool, syncDisqualified: bool) {
    !parked && (syncDisqualified || !disqualified)
  }

  /**
   In every run the sweep selects the lead exactly when a sync with the same cutoff would push at
   least one event.
   */
  lemma SweepMatchesSync(clock: int, actions: seq<Action>, now: int, parked: bool, disqualified: bool,
      syncDisqualified: bool)
    ensures
      var s := Run(Init(clock), actions);
      SweepSelects(parked, disqualified, syncDisqualified, s.log, now, s.cursor)
      <==> SyncAllowed(parked, disqualified, syncDisqualified) && Quota(s.log, now, s.cursor) > 0
  {
    RunKeepsInv(clock, actions);
    var s := Run(Init(clock), actions);
    var cutoff := now - SYNC_LAG_MS;
    var p := Pending(s.log, cutoff, s.cursor);
    forall e ensures SweepWants(e, cutoff, s.cursor) <==> Wanted(e, cutoff, s.cursor) {
      ComparisonsAgree(e, cutoff, s.cursor);
    }
    if p != [] {
      PendingHolds(s.log, cutoff, s.cursor, p[0]);
      var i :| 0 <= i < |s.log| && s.log[i] == p[0];
      assert SweepWants(s.log[i], cutoff, s.cursor);
    }
    if i :| 0 <= i < |s.log| && SweepWants(s.log[i], cutoff, s.cursor) {
      PendingHolds(s.log, cutoff, s.cursor, s.log[i]);
    }
  }

  /** A position saved without its event id would make them differ: the whole-position invariant is needed. */
  lemma HalfCursorDisagrees()
    ensures
      var e := Event(Stamp(5, "e"), true);
      var half := Cursor(Some(5), None);
      Wanted(e, 10, half) && !SweepWants(e, 10, half)
  {
  }
}
