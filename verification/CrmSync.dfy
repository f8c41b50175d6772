/**
 The sync job itself: batches, the contact upsert, one activity and one saved position per event.
 Every database or CRM call may be the one that fails. `SyncLead` is proved to be a `Job` step of
 CrmLog, so the results about runs apply to it.
 */
module CrmSync {
  import opened Base
  import opened Order
  import opened CrmLog

  datatype SyncError = RateLimited(retryAfterMs: nat) | Permanent | Transient

  datatype Outcome =
    | Skipped
    | UpToDate
    | Synced(crmId: string, events: nat, created: bool)
    | Failed(error: SyncError)

  datatype Upserted = Contact(crmId: string) | NotFound | CallFailed

  /** How far a batch, or the batch loop, got: events saved, and whether one more reached the CRM. */
  datatype BatchResult = BatchResult(ok: bool, pushed: nat, extra: bool) {
    function Reached(): nat {
      if extra then pushed + 1 else pushed
    }
  }

  /** Of the pending events `p`, `pushed` are saved and `reached` are on the timeline. */
  predicate Progress(p: seq<Event>, start: Cursor, before: seq<Event>, timeline: seq<Event>, c: Cursor, pushed: nat,
      reached: nat) {
    && pushed <= reached <= |p|
    && timeline == before + p[..reached]
    && c == if pushed == 0 then start else CursorAt(p[pushed - 1])
  }

  /** Progress on what is pending after `synced` events is progress on the whole. */
  lemma ProgressChains(log: seq<Event>, cutoff: int, start: Cursor, before: seq<Event>, mid: seq<Event>, pos: Cursor,
                       synced: nat, timeline: seq<Event>, c: Cursor, pushed: nat, reached: nat)
    requires Sorted(log)
    requires Progress(Pending(log, cutoff, start), start, before, mid, pos, synced, synced)
    requires Progress(Pending(log, cutoff, pos), pos, mid, timeline, c, pushed, reached)
    ensures |Pending(log, cutoff, pos)| == |Pending(log, cutoff, start)| - synced
    ensures Progress(Pending(log, cutoff, start), start, before, timeline, c, synced + pushed, synced + reached)
  {
    AdvanceBy(log, cutoff, start, synced);
    var p, q := Pending(log, cutoff, start), Pending(log, cutoff, pos);
    assert q == p[synced..];
    assert p[..synced + reached] == p[..synced] + q[..reached];
  }

  datatype JobFate = Done(outcome: Outcome) | PauseQueue(ms: nat) | Retry | DeadLettered

  /** What becomes of a job: rate limits pause the queue, permanent errors and the last attempt park the lead. */
  function FateOf(outcome: Outcome, attemptsMade: nat, attempts: nat): (fate: JobFate)
    ensures fate.Done? <==> !outcome.Failed?
    ensures fate.Retry? <==> outcome.Failed? && outcome.error.Transient? && attemptsMade + 1 < attempts
    ensures fate.PauseQueue? <==> outcome.Failed? && outcome.error.RateLimited?
    ensures fate.PauseQueue? ==> fate.ms == outcome.error.retryAfterMs
    ensures fate.Done? ==> fate.outcome == outcome
  {
    match outcome
    case Failed(RateLimited(ms)) => PauseQueue(ms)
    case Failed(Permanent) => DeadLettered
    case Failed(Transient) => if attemptsMade + 1 < attempts then Retry else DeadLettered
    case _ => Done(outcome)
  }

  /** The calls preparing a contact takes at most. */
  const CONTACT_CALLS: nat := 5

  /** Calls that suffice for a job that pushes `quota` events. */
  function CallsFor(quota: nat): nat {
    1 + MAX_BATCHES_PER_JOB + CONTACT_CALLS + 2 * quota
  }

  function Take(s: seq<Event>, n: nat): seq<Event> {
    s[..Min(n, |s|)]
  }

  /** One lead's row, its events, and the CRM's side of it. */
  class LeadSync {
    /** Existing rows only; a missing lead is `found == false`. */
    var found: bool
    var log: seq<Event>
    var cursor: Cursor
    var crmId: Option<string>
    var parked: bool
    /** The queues: an entry in the dead-letter queue, and a sync job waiting. */
    var deadLetter: bool
    var queued: bool
    const disqualified: bool
    const syncDisqualified: bool
    const owner: Option<string>

    /** The CRM: the activities it holds, and whether it still knows the stored contact. */
    var timeline: seq<Event>
    const contactGone: bool
    const newContactId: string

    /** Calls that still succeed; the next one fails with `error`, `landed` says if it took effect. */
    var budget: nat
    const landed: bool
    const error: SyncError

    ghost var clock: int
    ghost var failures: nat

    constructor (disqualified: bool, syncDisqualified: bool, owner: Option<string>,
                 contactGone: bool, newContactId: string, budget: nat, landed: bool, error: SyncError)
    {
      this.found, this.log, this.cursor, this.crmId, this.parked := true, [], START, None, false;
      this.deadLetter, this.queued := false, false;
      this.disqualified, this.syncDisqualified, this.owner := disqualified, syncDisqualified, owner;
      this.timeline, this.contactGone, this.newContactId := [], contactGone, newContactId;
      this.budget, this.landed, this.error := budget, landed, error;
      this.clock, this.failures := 0, 0;
    }

    /** The state the run-level results speak about. */
    ghost function View(): State
      reads this
    {
      State(log, cursor, timeline, clock, failures)
    }

    /** One database or CRM call without an effect of its own. */
    method Call() returns (ok: bool)
      modifies `budget
      ensures ok <==> old(budget) > 0
      ensures budget == if ok then old(budget) - 1 else old(budget)
    {
      ok := budget > 0;
      if ok { budget := budget - 1; }
    }

    method FindEvents(cutoff: int, pos: Cursor) returns (ok: bool, events: seq<Event>)
      modifies `budget
      ensures ok <==> old(budget) > 0
      ensures budget == if ok then old(budget) - 1 else old(budget)
      ensures ok ==> events == Take(Pending(log, cutoff, pos), BATCH_SIZE)
    {
      ok := Call();
      events := Take(Pending(log, cutoff, pos), BATCH_SIZE);
    }

    method UpsertContact(stored: Option<string>) returns (r: Upserted)
      modifies `budget
      ensures r.CallFailed? <==> old(budget) == 0
      ensures budget == if r.CallFailed? then old(budget) else old(budget) - 1
      ensures r.NotFound? ==> stored.Some? && contactGone
      ensures r.Contact? ==> r.crmId == stored.GetOr(newContactId) && (stored.None? || !contactGone)
    {
      var ok := Call();
      if !ok { return CallFailed; }
      if stored.Some? && contactGone { return NotFound; }
      return Contact(stored.GetOr(newContactId));
    }

    /** Creates or updates the contact, assigns its owner when new, saves its id, sets the stage. */
    method PrepareContact() returns (id: Option<string>, created: bool)
      modifies `budget, `crmId
      ensures id.None? ==> old(budget) < CONTACT_CALLS
      ensures id.Some? ==> budget >= old(budget) - CONTACT_CALLS
      ensures id.Some? ==>
        && id.value == (if old(crmId).Some? && !contactGone then old(crmId).value else newContactId)
        && crmId == id
        && (created <==> old(crmId).None?)
    {
      created := false;
      var r := UpsertContact(crmId);
      if r.NotFound? { r := UpsertContact(None); }
      if !r.Contact? { return None, false; }
      if Some(r.crmId) != crmId {
        created := crmId.None?;
        if owner.Some? {
          var hasOwner := Call();
          if !hasOwner { return None, false; }
        }
        var saved := Call();
        if saved || landed { crmId := Some(r.crmId); }
        if !saved { return None, false; }
      }
      var staged := Call();
      if !staged { return None, false; }
      return Some(r.crmId), created;
    }

    method LogActivity(e: Event) returns (ok: bool)
      modifies `budget, `timeline
      ensures ok <==> old(budget) > 0
      ensures budget == if ok then old(budget) - 1 else old(budget)
      ensures timeline == if ok || landed then old(timeline) + [e] else old(timeline)
    {
      ok := Call();
      if ok || landed { timeline := timeline + [e]; }
    }

    method SaveCursor(e: Event) returns (ok: bool)
      modifies `budget, `cursor
      ensures ok <==> old(budget) > 0
      ensures budget == if ok then old(budget) - 1 else old(budget)
      ensures cursor == if ok || landed then CursorAt(e) else old(cursor)
    {
      ok := Call();
      if ok || landed { cursor := CursorAt(e); }
    }

    /**
     Pushes the batch; the local position follows. On a failure, `pushed` events are saved and
     `extra` says that one more reached the CRM.
     */
    method PushBatch(events: seq<Event>, start: Cursor) returns (ok: bool, pushed: nat, extra: bool, pos: Cursor)
      requires cursor == start
      modifies `budget, `timeline, `cursor
      ensures pushed <= |events| && (ok ==> pushed == |events| && !extra) && (extra ==> pushed < |events|)
      ensures timeline == old(timeline) + events[..if extra then pushed + 1 else pushed]
      ensures cursor == if pushed == 0 then start else CursorAt(events[pushed - 1])
      ensures ok ==> pos == cursor
      ensures ok <==> old(budget) >= 2 * |events|
      ensures ok ==> budget == old(budget) - 2 * |events|
    {
      pos := start;
      pushed, extra := 0, false;
      while pushed < |events|
        invariant pushed <= |events| && !extra && budget == old(budget) - 2 * pushed
        invariant timeline == old(timeline) + events[..pushed]
        invariant cursor == pos == if pushed == 0 then start else CursorAt(events[pushed - 1])
      {
        var event := events[pushed];
        assert events[..pushed] + [event] == events[..pushed + 1];
        var logged := LogActivity(event);
        if !logged { return false, pushed, landed, pos; }
        var saved := SaveCursor(event);
        if !saved { return false, if landed then pushed + 1 else pushed, !landed, pos; }
        pos := CursorAt(event);
        pushed := pushed + 1;
      }
      ok := true;
    }

    /** The contact a job works on, given the id stored before it. */
    ghost predicate ContactReady(contact: Option<string>, created: bool, stored: Option<string>)
      reads `crmId
    {
      && contact.Some? && crmId == contact
      && contact.value == (if stored.Some? && !contactGone then stored.value else newContactId)
      && (created <==> stored.None?)
    }

    /** One turn of the batch loop: at most fifty events after `pos`. */
    method OneBatch(cutoff: int, pos: Cursor, contact: Option<string>, created: bool, ghost stored: Option<string>)
      returns (result: BatchResult, contact': Option<string>, created': bool, pos': Cursor)
      requires cursor == pos
      requires if contact.None? then crmId == stored && !created else ContactReady(contact, created, stored)
      modifies `budget, `timeline, `cursor, `crmId
      ensures
        var q := Pending(log, cutoff, pos);
        && result.pushed <= Min(BATCH_SIZE, |q|)
        && (result.extra ==> result.pushed < Min(BATCH_SIZE, |q|) && !result.ok)
        && (result.ok ==> result.pushed == Min(BATCH_SIZE, |q|) && pos' == cursor)
        && Progress(q, pos, old(timeline), timeline, cursor, result.pushed, result.Reached())
      ensures result.ok && result.pushed > 0 ==> ContactReady(contact', created', stored)
      ensures
        var cost := 1 + (if contact.None? then CONTACT_CALLS else 0) + 2 * Min(BATCH_SIZE, |Pending(log, cutoff, pos)|);
        (!result.ok ==> old(budget) < cost) && (result.ok ==> budget >= old(budget) - cost)
      ensures result.ok && result.pushed == 0 ==> contact' == contact && created' == created && crmId == old(crmId)
    {
      contact', created', pos' := contact, created, pos;
      var queried, events := FindEvents(cutoff, pos);
      if !queried { return BatchResult(false, 0, false), contact', created', pos'; }
      if |events| == 0 { return BatchResult(true, 0, false), contact', created', pos'; }
      if contact.None? {
        contact', created' := PrepareContact();
        if contact'.None? { return BatchResult(false, 0, false), contact', created', pos'; }
      }
      var ok, n, extra;
      ok, n, extra, pos' := PushBatch(events, pos);
      result := BatchResult(ok, n, extra);
      assert events[..result.Reached()] == Pending(log, cutoff, pos)[..result.Reached()];
    }

    /** The batch loop. */
    method PushPending(cutoff: int) returns (result: BatchResult, contact: Option<string>, created: bool)
      requires Sorted(log)
      modifies `budget, `timeline, `cursor, `crmId
      ensures
        var p := Pending(log, cutoff, old(cursor));
        var quota := Min(BATCH_SIZE * MAX_BATCHES_PER_JOB, |p|);
        && result.pushed <= quota
        && (result.extra ==> result.pushed < quota && !result.ok)
        && (result.ok ==> result.pushed == quota)
        && Progress(p, old(cursor), old(timeline), timeline, cursor, result.pushed, result.Reached())
      ensures result.ok ==> if result.pushed == 0 then contact.None? else ContactReady(contact, created, old(crmId))
      ensures !result.ok ==>
        old(budget) < MAX_BATCHES_PER_JOB + CONTACT_CALLS
                      + 2 * Min(BATCH_SIZE * MAX_BATCHES_PER_JOB, |Pending(log, cutoff, old(cursor))|)
    {
      ghost var start := cursor;
      ghost var p := Pending(log, cutoff, start);
      contact, created := None, false;
      var pos := cursor;
      var synced: nat := 0;
      var batch: nat := 0;
      while batch < MAX_BATCHES_PER_JOB
        invariant batch <= MAX_BATCHES_PER_JOB
        invariant synced == BATCH_SIZE * batch && cursor == pos
        invariant Progress(p, start, old(timeline), timeline, cursor, synced, synced)
        invariant budget >= old(budget) - batch - (if contact.None? then 0 else CONTACT_CALLS) - 2 * synced
        invariant if synced == 0 then contact.None? && crmId == old(crmId) && !created
                  else ContactReady(contact, created, old(crmId))
      {
        ghost var mid, from := timeline, pos;
        result, contact, created, pos := OneBatch(cutoff, pos, contact, created, old(crmId));
        ProgressChains(log, cutoff, start, old(timeline), mid, from, synced,
                       timeline, cursor, result.pushed, result.Reached());
        if !result.ok { return BatchResult(false, synced + result.pushed, result.extra), contact, created; }
        synced := synced + result.pushed;
        if result.pushed < BATCH_SIZE { break; }
        batch := batch + 1;
      }
      result := BatchResult(true, synced, false);
    }

    /**
     `syncLead`. Whatever call fails, it is one `Job` step of the run model: it pushes a prefix of
     what is pending, in order, and exactly the quota when nothing fails.
     */
    method SyncLead(now: int) returns (outcome: Outcome, pushed: nat, extra: bool)
      requires Sorted(log) && now >= clock
      modifies `budget, `timeline, `cursor, `crmId, `clock, `failures
      ensures outcome.Skipped? <==> old(budget) > 0 && (!found || parked || (disqualified && !syncDisqualified))
      ensures outcome.Skipped? ==> View() == old(View())
      ensures !outcome.Skipped? ==>
        var job := Job(now, pushed, extra, outcome.Failed?);
        Possible(old(View()), job) && View() == Next(old(View()), job)
      ensures !found || parked || (disqualified && !syncDisqualified) ==> outcome.Skipped? || outcome.Failed?
      ensures outcome.UpToDate? ==> Quota(log, now, old(cursor)) == 0 && |Pending(log, now - 10_000, old(cursor))| == 0
      ensures outcome.Synced? ==>
        && outcome.events == pushed == Quota(log, now, old(cursor)) > 0
        && outcome.events == Min(500, |Pending(log, now - 10_000, old(cursor))|)
        && ContactReady(Some(outcome.crmId), outcome.created, old(crmId))
      ensures outcome.Failed? ==> outcome.error == error
      ensures outcome.Failed? ==> old(budget) < CallsFor(Quota(log, now, old(cursor)))
    {
      var loaded := Call();
      if loaded && (!found || !SyncAllowed(parked, disqualified, syncDisqualified)) {
        return Skipped, 0, false;
      }
      clock := now;
      if !loaded {
        failures := failures + 1;
        return Failed(error), 0, false;
      }
      var result, contact, created := PushPending(now - SYNC_LAG_MS);
      pushed, extra := result.pushed, result.extra;
      if !result.ok {
        failures := failures + 1;
        return Failed(error), pushed, extra;
      }
      outcome := if contact.None? then UpToDate else Synced(contact.value, pushed, created);
    }

    /** `runCrmSyncJob`: the outcome and the attempts decide the fate, and only a dead letter parks. */
    method RunJob(now: int, attemptsMade: nat, attempts: nat)
      returns (outcome: Outcome, fate: JobFate, pushed: nat, extra: bool)
      requires Sorted(log) && now >= clock
      modifies `budget, `timeline, `cursor, `crmId, `clock, `failures, `parked, `deadLetter
      ensures fate == FateOf(outcome, attemptsMade, attempts)
      ensures parked <==> old(parked) || (fate.DeadLettered? && found)
      ensures deadLetter <==> old(deadLetter) || fate.DeadLettered?
      ensures outcome.Skipped? <==>
          old(budget) > 0 && (!found || old(parked) || (disqualified && !syncDisqualified))
      ensures outcome.Skipped? ==> View() == old(View())
      ensures !outcome.Skipped? ==>
        var job := Job(now, pushed, extra, outcome.Failed?);
        Possible(old(View()), job) && View() == Next(old(View()), job)
      ensures outcome.UpToDate? ==> Quota(log, now, old(cursor)) == 0
      ensures outcome.Synced? ==> outcome.events == pushed == Quota(log, now, old(cursor)) > 0
      ensures outcome.Failed? ==> outcome.error == error && old(budget) < CallsFor(Quota(log, now, old(cursor)))
    {
      outcome, pushed, extra := SyncLead(now);
      if !outcome.Failed? { return outcome, Done(outcome), pushed, extra; }
      match outcome.error
      case RateLimited(ms) => fate := PauseQueue(ms);
      case Permanent => fate := DeadLetter();
      case Transient =>
        if attemptsMade + 1 < attempts {
          fate := Retry;
        } else {
          fate := DeadLetter();
        }
    }

    /** `deadLetterCrmSync`: parks the lead if it still exists, and keeps an entry either way. */
    method DeadLetter() returns (fate: JobFate)
      modifies `parked, `deadLetter
      ensures fate.DeadLettered? && deadLetter && (parked <==> old(parked) || found)
    {
      if found { parked := true; }
      deadLetter := true;
      fate := DeadLettered;
    }

    /**
     `requeueDeadLetters`, with this lead `named` or among all: it is no longer parked and has no entry
     left; a named one is queued at once, parked or not. The position stays, so nothing is pushed twice
     or lost by it.
     */
    method Requeue(named: bool) returns (cleared: nat)
      modifies `parked, `deadLetter, `queued
      ensures cleared == if found && old(parked) then 1 else 0
      ensures parked <==> old(parked) && !found
      ensures !deadLetter && (queued <==> old(queued) || named)
      ensures View() == old(View())
    {
      cleared := 0;
      if found && parked { cleared, parked := 1, false; }
      deadLetter := false;
      if named { queued := true; }
    }
  }
}
