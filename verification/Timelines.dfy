/** The keyed events of a timeline: the ones the unique index on dedupe keys covers. */
module Timelines {
  import opened Base
  import opened Keys
  import opened Leads

  function KeyedEvents(es: seq<Event>): seq<Event> {
    if es == [] then []
    else
      var init := KeyedEvents(es[..|es| - 1]);
      if es[|es| - 1].Keyed? then init + [es[|es| - 1]] else init
  }

  lemma {:induction false} KeyedEventsAppend(a: seq<Event>, b: seq<Event>)
    ensures KeyedEvents(a + b) == KeyedEvents(a) + KeyedEvents(b)
  {
    if b == [] {
      assert a + b == a;
    } else {
      var last := |b| - 1;
      KeyedEventsAppend(a, b[..last]);
      assert (a + b)[..|a + b| - 1] == a + b[..last];
    }
  }

  lemma KeyedEventsOne(a: seq<Event>, e: Event)
    ensures KeyedEvents(a + [e]) == KeyedEvents(a) + if e.Keyed? then [e] else []
  {
    assert (a + [e])[..|a|] == a;
  }

  lemma {:induction false} KeyedEventsHolds(es: seq<Event>, e: Event)
    ensures e in KeyedEvents(es) <==> e in es && e.Keyed?
  {
    if es == [] {
    } else {
      var last := |es| - 1;
      KeyedEventsHolds(es[..last], e);
      assert es == es[..last] + [es[last]];
    }
  }

  lemma {:induction false} StopNotesAreNotKeyed(lead: Id, es: seq<Enrollment>, reason: StopReason)
    ensures KeyedEvents(StopNotes(lead, es, reason)) == []
  {
    if es == [] {
    } else {
      var last := |es| - 1;
      StopNotesAreNotKeyed(lead, es[..last], reason);
      KeyedEventsAppend(StopNotes(lead, es[..last], reason),
                        if Live(es[last]) then [Note(StoppedBody(EnrollmentId(lead, last), reason))] else []);
    }
  }

  lemma StopKeepsKeyed(row: Row, reason: StopReason)
    ensures KeyedEvents(StopEnrollments(row, reason).timeline) == KeyedEvents(row.timeline)
  {
    StopNotesAreNotKeyed(row.id, row.enrollments, reason);
    KeyedEventsAppend(row.timeline, StopNotes(row.id, row.enrollments, reason));
  }

  lemma OptOutKeepsKeyed(row: Row, source: OptOutSource)
    ensures KeyedEvents(OptOut(row, source).timeline) == KeyedEvents(row.timeline)
  {
    if !row.status.DoNotContact? {
      var e := Note(OptedOutBody(source, row.status));
      var out := row.(status := DoNotContact,
          profile := row.profile.(consentEmail := false, consentMessaging := false));
      KeyedEventsOne(row.timeline, e);
      StopKeepsKeyed(Append(out, e), AfterOptOut);
    }
  }

  /** The keyed event a transaction records, if any. */
  function Records(row: Row, a: RowAction): Option<Event> {
    match a
    case OnCapture(_, key, ev, _) => Some(Keyed(ev, key, CapturedBody(true)))
    case OnScore(score, tier, key, ev) => Some(Keyed(ev, key, ScoredBody(score, tier)))
    case OnSent(job, to, ev, _, _) => Some(Keyed(ev, job.key, MessageSentBody(job.kind, job.channel, to)))
    case OnSendFailed(job, permanent, ev) => Some(Keyed(ev, Failed(job.key), MessageFailedBody(job.kind, permanent)))
    case OnReply(optingOut, key, ev) => Some(Keyed(ev, key, ReplyBody(optingOut, !optingOut && Engageable(row.status))))
    case OnCrmChange(target, key, ev) =>
      if row.status == target then None else Some(Keyed(ev, key, StatusBody(row.status, target)))
    case _ => None
  }

  /** A transaction records exactly that keyed event. */
  lemma ApplyRecords(row: Row, a: RowAction)
    ensures KeyedEvents(Apply(row, a).timeline)
         == KeyedEvents(row.timeline) + if Records(row, a).Some? then [Records(row, a).value] else []
  {
    var base := row.timeline;
    if Records(row, a).Some? { KeyedEventsOne(base, Records(row, a).value); }
    match a
    case OnCapture(input, key, ev, suppressed) =>
      if suppressed {
        OptOutKeepsKeyed(Append(row.(profile := MergeProfile(row.profile, input)), Records(row, a).value),
            BySuppression);
      }
    case OnScore(_, _, _, _) =>
    case OnSent(job, to, ev, sequence, now) =>
      var start := Note(EnrolledBody(EnrollmentId(row.id, |row.enrollments|)));
      KeyedEventsOne(base, start);
      KeyedEventsOne(base + [start], Records(row, a).value);
    case OnSendFailed(_, _, _) =>
    case OnReply(optingOut, key, ev) =>
      var recorded := Append(row, Records(row, a).value);
      if optingOut { OptOutKeepsKeyed(recorded, ByReply); } else { StopKeepsKeyed(recorded, ReplySeen); }
    case OnUnsubscribe => OptOutKeepsKeyed(row, ByLink);
    case OnCrmChange(target, key, ev) =>
      if row.status != target && !Contactable(target) {
        StopKeepsKeyed(Append(row.(status := target), Records(row, a).value), CrmRule);
      }
    case OnStep(ordinal, step, at) =>
      StopKeepsKeyed(row, NotContactable);
      KeyedEventsOne(base, Note(CompletedBody(EnrollmentId(row.id, ordinal))));
    case OnPause(ordinal) => KeyedEventsOne(base, Note(PausedBody(EnrollmentId(row.id, ordinal))));
    case OnResume(ordinal, _) => KeyedEventsOne(base, Note(ResumedBody(EnrollmentId(row.id, ordinal))));
  }

  /** The keyed events of a new row: its capture. */
  lemma NewRowRecords(id: Id, source: string, input: Profile, now: int, key: DedupeKey, ev: Id, suppressed: bool)
    ensures KeyedEvents(NewRow(id, source, input, now, key, ev, suppressed).timeline) ==
        [Keyed(ev, key, CapturedBody(false))]
    ensures NewRow(id, source, input, now, key, ev, suppressed).id == id
  {
    var e := Keyed(ev, key, CapturedBody(false));
    KeyedEventsOne([], e);
    assert [] + [e] == [e];
    if suppressed { OptOutKeepsKeyed(Row(id, source, input, New, None, None, now, [], [e]), BySuppression); }
  }
}
