/** The timeline of a lead: completed sequences met only silence, and ends are final. */
module Silence {
  import opened Base
  import opened Leads
  import opened Moves
  import opened Coupling

  function BodyAt(row: Row, i: nat): Body
    requires i < |row.timeline|
  {
    row.timeline[i].body
  }

  /** Neither a reply nor the start or end of an enrollment. */
  predicate Neutral(b: Body) {
    !b.ReplyBody? && !b.EnrolledBody? && !b.CompletedBody?
  }

  /** Every enrollment named as started exists. */
  predicate StartsExist(row: Row) {
    forall k :: 0 <= k < |row.timeline| && BodyAt(row, k).EnrolledBody? ==>
      BodyAt(row, k).enrollment.lead == row.id && BodyAt(row, k).enrollment.ordinal < |row.enrollments|
  }

  /** No reply came after the start of a live enrollment. */
  predicate LiveIsUnanswered(row: Row) {
    forall k, j :: 0 <= k < j < |row.timeline|
      && BodyAt(row, k).EnrolledBody? && BodyAt(row, j).ReplyBody?
      && BodyAt(row, k).enrollment.ordinal < |row.enrollments|
      ==> !Live(row.enrollments[BodyAt(row, k).enrollment.ordinal])
  }

  /** No reply lies between the start of an enrollment and its completion. */
  predicate CompletionMeansSilence(row: Row) {
    forall k, j, m :: 0 <= k < j < m < |row.timeline|
      && BodyAt(row, k).EnrolledBody? && BodyAt(row, j).ReplyBody?
      ==> BodyAt(row, m) != CompletedBody(BodyAt(row, k).enrollment)
  }

  /** Completions are recorded exactly for the completed enrollments. */
  predicate CompletionsRecorded(row: Row) {
    && (forall m :: 0 <= m < |row.timeline| && BodyAt(row, m).CompletedBody? ==>
          && BodyAt(row, m).enrollment.lead == row.id
          && BodyAt(row, m).enrollment.ordinal < |row.enrollments|
          && row.enrollments[BodyAt(row, m).enrollment.ordinal].status.Completed?)
    && (forall i :: 0 <= i < |row.enrollments| && row.enrollments[i].status.Completed? ==>
          Note(CompletedBody(EnrollmentId(row.id, i))) in row.timeline)
  }

  predicate Silent(row: Row) {
    OptedOutIsStopped(row) && StartsExist(row) && LiveIsUnanswered(row) && CompletionMeansSilence(row)
  }

  // ----- What a transaction appends -----

  lemma {:induction false} StopNotesAreNeutral(lead: Id, es: seq<Enrollment>, reason: StopReason)
    ensures forall e :: e in StopNotes(lead, es, reason) ==> Neutral(e.body) && e.Note?
  {
    if es == [] {
    } else {
      StopNotesAreNeutral(lead, es[..|es| - 1], reason);
    }
  }

  /** The events a transaction appends. */
  function Appended(row: Row, a: RowAction): seq<Event> {
    var after := Apply(row, a).timeline;
    if |after| >= |row.timeline| then after[|row.timeline|..] else []
  }

  /** Timelines are append-only. */
  lemma TimelineGrows(row: Row, a: RowAction)
    ensures row.timeline <= Apply(row, a).timeline
    ensures Apply(row, a).timeline == row.timeline + Appended(row, a)
    ensures Apply(row, a).id == row.id
  {
  }

  predicate AllNeutral(es: seq<Event>) {
    forall e :: e in es ==> Neutral(e.body)
  }

  lemma AppendedIs(row: Row, a: RowAction, es: seq<Event>)
    requires Apply(row, a).timeline == row.timeline + es
    ensures Appended(row, a) == es
  {
  }

  lemma StoppedTimeline(row: Row, e: Event, reason: StopReason) returns (es: seq<Event>)
    ensures StopEnrollments(Append(row, e), reason).timeline == row.timeline + ([e] + es)
    ensures AllNeutral(es)
  {
    es := StopNotes(row.id, row.enrollments, reason);
    StopNotesAreNeutral(row.id, row.enrollments, reason);
    assert row.timeline + [e] + es == row.timeline + ([e] + es);
  }

  lemma OptOutTimeline(row: Row, source: OptOutSource) returns (es: seq<Event>)
    ensures OptOut(row, source).timeline == row.timeline + es
    ensures AllNeutral(es)
  {
    if row.status.DoNotContact? {
      es := [];
    } else {
      var rest := StoppedTimeline(row, Note(OptedOutBody(source, row.status)), AfterOptOut);
      es := [Note(OptedOutBody(source, row.status))] + rest;
    }
  }

  lemma ReplyShape(row: Row, a: RowAction)
    requires a.OnReply?
    ensures Appended(row, a) != [] && Appended(row, a)[0].body.ReplyBody? && AllNeutral(Appended(row, a)[1..])
  {
    var e := Keyed(a.ev, a.key, ReplyBody(a.optingOut, !a.optingOut && Engageable(row.status)));
    var rest: seq<Event>;
    if a.optingOut {
      rest := OptOutTimeline(Append(row, e), ByReply);
    } else {
      rest := StoppedTimeline(row, e, ReplySeen);
    }
    assert Apply(row, a).timeline == row.timeline + ([e] + rest);
    AppendedIs(row, a, [e] + rest);
    assert ([e] + rest)[1..] == rest;
  }

  lemma CaptureShape(row: Row, a: RowAction)
    requires a.OnCapture?
    ensures AllNeutral(Appended(row, a))
  {
    var e := Keyed(a.ev, a.key, CapturedBody(true));
    var rest: seq<Event> := [];
    if a.suppressed {
      rest := OptOutTimeline(Append(row.(profile := MergeProfile(row.profile, a.input)), e), BySuppression);
    }
    assert Apply(row, a).timeline == row.timeline + ([e] + rest);
    AppendedIs(row, a, [e] + rest);
  }

  lemma CrmShape(row: Row, a: RowAction)
    requires a.OnCrmChange?
    ensures AllNeutral(Appended(row, a))
  {
    if row.status == a.target {
      AppendedIs(row, a, []);
    } else {
      var e := Keyed(a.ev, a.key, StatusBody(row.status, a.target));
      var rest: seq<Event> := [];
      if !Contactable(a.target) { rest := StoppedTimeline(row.(status := a.target), e, CrmRule); }
      assert Apply(row, a).timeline == row.timeline + ([e] + rest);
      AppendedIs(row, a, [e] + rest);
    }
  }

  lemma SentShape(row: Row, a: RowAction)
    requires a.OnSent?
    ensures Enrolls(row, a) ==>
      && |Appended(row, a)| == 2 && Neutral(Appended(row, a)[1].body)
      && Appended(row, a)[0] == Note(EnrolledBody(EnrollmentId(row.id, |row.enrollments|)))
    ensures !Enrolls(row, a) ==> AllNeutral(Appended(row, a))
  {
    var e := Keyed(a.ev, a.job.key, MessageSentBody(a.job.kind, a.job.channel, a.to));
    if Enrolls(row, a) {
      var start := Note(EnrolledBody(EnrollmentId(row.id, |row.enrollments|)));
      assert row.timeline + [start] + [e] == row.timeline + [start, e];
      AppendedIs(row, a, [start, e]);
    } else {
      AppendedIs(row, a, [e]);
    }
  }

  /** A completion stands alone, everything else a step job appends is neutral. */
  lemma StepShape(row: Row, a: RowAction)
    requires a.OnStep?
    ensures
      if a.ordinal < |row.enrollments| && MoveOf(row, a, a.ordinal).Finish?
      then Appended(row, a) == [Note(CompletedBody(EnrollmentId(row.id, a.ordinal)))]
      else AllNeutral(Appended(row, a))
  {
    StopNotesAreNeutral(row.id, row.enrollments, NotContactable);
    if StepIsCurrent(row, a.ordinal, a.step, a.at) && !Contactable(row.status) {
      AppendedIs(row, a, StopNotes(row.id, row.enrollments, NotContactable));
    } else if a.ordinal < |row.enrollments| && MoveOf(row, a, a.ordinal).Finish? {
      AppendedIs(row, a, [Note(CompletedBody(EnrollmentId(row.id, a.ordinal)))]);
    } else {
      AppendedIs(row, a, []);
    }
  }

  /** The transaction completes an enrollment. */
  predicate Completes(row: Row, a: RowAction) {
    a.OnStep? && a.ordinal < |row.enrollments| && MoveOf(row, a, a.ordinal).Finish?
  }

  lemma OtherShape(row: Row, a: RowAction)
    requires !a.OnReply? && !Enrolls(row, a) && !Completes(row, a)
    ensures AllNeutral(Appended(row, a))
  {
    match a
    case OnCapture(_, _, _, _) => CaptureShape(row, a);
    case OnScore(score, tier, key, ev) => AppendedIs(row, a, [Keyed(ev, key, ScoredBody(score, tier))]);
    case OnSent(_, _, _, _, _) => SentShape(row, a);
    case OnSendFailed(job, permanent, ev) =>
      AppendedIs(row, a, [Keyed(ev, Keys.Failed(job.key), MessageFailedBody(job.kind, permanent))]);
    case OnUnsubscribe =>
      var es := OptOutTimeline(row, ByLink);
      AppendedIs(row, a, es);
    case OnCrmChange(_, _, _) => CrmShape(row, a);
    case OnStep(_, _, _) => StepShape(row, a);
    case OnPause(ordinal) =>
      if ordinal < |row.enrollments| && row.enrollments[ordinal].status.Active? {
        AppendedIs(row, a, [Note(PausedBody(EnrollmentId(row.id, ordinal)))]);
      } else {
        AppendedIs(row, a, []);
      }
    case OnResume(ordinal, _) =>
      if ordinal < |row.enrollments| && row.enrollments[ordinal].status.Paused? {
        AppendedIs(row, a, [Note(ResumedBody(EnrollmentId(row.id, ordinal)))]);
      } else {
        AppendedIs(row, a, []);
      }
  }

  // ----- Every transaction keeps silence -----

  /** After a reply nothing is live. */
  lemma ReplyStopsAll(row: Row, a: RowAction)
    requires a.OnReply? && OptedOutIsStopped(row)
    ensures forall i :: 0 <= i < |Apply(row, a).enrollments| ==> !Live(Apply(row, a).enrollments[i])
  {
    ApplyMoves(row, a);
  }

  lemma NeutralKeepsSilent(row: Row, after: Row)
    requires Silent(row) && OptedOutIsStopped(after) && after.id == row.id
    requires row.timeline <= after.timeline && AllNeutral(after.timeline[|row.timeline|..])
    requires |after.enrollments| >= |row.enrollments|
    requires forall i :: 0 <= i < |row.enrollments| && Live(after.enrollments[i]) ==> Live(row.enrollments[i])
    ensures Silent(after)
  {
    forall k | |row.timeline| <= k < |after.timeline| ensures Neutral(BodyAt(after, k)) {
      assert after.timeline[k] == after.timeline[|row.timeline|..][k - |row.timeline|];
    }
    forall k | 0 <= k < |row.timeline| ensures BodyAt(after, k) == BodyAt(row, k) {
      assert after.timeline[k] == after.timeline[..|row.timeline|][k];
    }
  }

  lemma ReplyKeepsSilent(row: Row, after: Row)
    requires Silent(row) && OptedOutIsStopped(after) && after.id == row.id
    requires row.timeline <= after.timeline && |after.timeline| > |row.timeline|
    requires AllNeutral(after.timeline[|row.timeline| + 1..]) && BodyAt(after, |row.timeline|).ReplyBody?
    requires |after.enrollments| >= |row.enrollments|
    requires forall i :: 0 <= i < |after.enrollments| ==> !Live(after.enrollments[i])
    ensures Silent(after)
  {
    forall k | |row.timeline| < k < |after.timeline| ensures Neutral(BodyAt(after, k)) {
      assert after.timeline[k] == after.timeline[|row.timeline| + 1..][k - |row.timeline| - 1];
    }
    forall k | 0 <= k < |row.timeline| ensures BodyAt(after, k) == BodyAt(row, k) {
      assert after.timeline[k] == after.timeline[..|row.timeline|][k];
    }
  }

  lemma EnrollmentKeepsSilent(row: Row, after: Row, e: Enrollment, last: Event)
    requires Silent(row) && OptedOutIsStopped(after) && after.id == row.id
    requires after.timeline == row.timeline + [Note(EnrolledBody(EnrollmentId(row.id, |row.enrollments|))), last]
    requires Neutral(last.body)
    requires after.enrollments == row.enrollments + [e]
    ensures Silent(after)
  {
    var n := |row.timeline|;
    assert BodyAt(after, n) == EnrolledBody(EnrollmentId(row.id, |row.enrollments|)) &&
        BodyAt(after, n + 1) == last.body;
    forall k | 0 <= k < n ensures BodyAt(after, k) == BodyAt(row, k) {
    }
  }

  lemma CompletionKeepsSilent(row: Row, after: Row, ordinal: nat)
    requires Silent(row) && OptedOutIsStopped(after) && after.id == row.id
    requires ordinal < |row.enrollments| && Live(row.enrollments[ordinal])
    requires after.timeline == row.timeline + [Note(CompletedBody(EnrollmentId(row.id, ordinal)))]
    requires |after.enrollments| == |row.enrollments|
    requires forall i :: 0 <= i < |row.enrollments| && Live(after.enrollments[i]) ==> Live(row.enrollments[i])
    ensures Silent(after)
  {
    var n := |row.timeline|;
    assert BodyAt(after, n) == CompletedBody(EnrollmentId(row.id, ordinal));
    forall k | 0 <= k < n ensures BodyAt(after, k) == BodyAt(row, k) {
    }
    forall k, j, m | 0 <= k < j < m < |after.timeline| && BodyAt(after, k).EnrolledBody? && BodyAt(after, j).ReplyBody?
      ensures BodyAt(after, m) != CompletedBody(BodyAt(after, k).enrollment)
    {
      if m == n { assert BodyAt(row, k).EnrolledBody? && BodyAt(row, j).ReplyBody?; }
    }
  }

  /** Whatever happens to a lead, a completed sequence met only silence, for any CRM rules. */
  lemma ApplyKeepsSilent(row: Row, a: RowAction)
    requires Silent(row)
    ensures Silent(Apply(row, a))
  {
    var after := Apply(row, a);
    ApplyKeepsOptedOutStopped(row, a);
    ApplyMoves(row, a);
    TimelineGrows(row, a);
    if a.OnReply? {
      ReplyShape(row, a);
      ReplyStopsAll(row, a);
      assert after.timeline[|row.timeline| + 1..] == Appended(row, a)[1..];
      ReplyKeepsSilent(row, after);
    } else if Enrolls(row, a) {
      SentShape(row, a);
      assert after.enrollments == row.enrollments + [NewEnrollment(a.sequence.value, a.now)];
      EnrollmentKeepsSilent(row, after, NewEnrollment(a.sequence.value, a.now), Appended(row, a)[1]);
    } else if Completes(row, a) {
      StepShape(row, a);
      CompletionKeepsSilent(row, after, a.ordinal);
    } else {
      OtherShape(row, a);
      NeutralKeepsSilent(row, after);
    }
  }

  /** The only completion event a transaction appends is the one of the enrollment it completes. */
  lemma AppendedCompletion(row: Row, a: RowAction)
    ensures forall e :: e in Appended(row, a) && e.body.CompletedBody? ==>
      Completes(row, a) && e == Note(CompletedBody(EnrollmentId(row.id, a.ordinal)))
    ensures Completes(row, a) ==> Appended(row, a) == [Note(CompletedBody(EnrollmentId(row.id, a.ordinal)))]
  {
    if a.OnReply? {
      ReplyShape(row, a);
      var added := Appended(row, a);
      assert added == [added[0]] + added[1..];
    } else if Completes(row, a) {
      StepShape(row, a);
    } else if Enrolls(row, a) {
      SentShape(row, a);
      var added := Appended(row, a);
      assert added == [added[0], added[1]];
    } else {
      OtherShape(row, a);
    }
  }

  /** An enrollment becomes completed only by a transaction that completes it, and then stays so. */
  lemma CompletedBy(row: Row, a: RowAction, i: nat)
    requires i < |Apply(row, a).enrollments|
    ensures Apply(row, a).enrollments[i].status.Completed? <==>
      (i < |row.enrollments| && row.enrollments[i].status.Completed?) || (Completes(row, a) && i == a.ordinal)
  {
    ApplyMoves(row, a);
  }

  /** Completed enrollments and completion events match one to one, whatever happens. */
  lemma ApplyKeepsCompletions(row: Row, a: RowAction)
    requires CompletionsRecorded(row)
    ensures CompletionsRecorded(Apply(row, a))
  {
    var after, added := Apply(row, a), Appended(row, a);
    TimelineGrows(row, a);
    AppendedCompletion(row, a);
    ApplyGrowsEnrollments(row, a);
    forall m | 0 <= m < |after.timeline| && BodyAt(after, m).CompletedBody?
      ensures
        && BodyAt(after, m).enrollment.lead == row.id
        && BodyAt(after, m).enrollment.ordinal < |after.enrollments|
        && after.enrollments[BodyAt(after, m).enrollment.ordinal].status.Completed?
    {
      if m < |row.timeline| {
        assert BodyAt(row, m) == BodyAt(after, m);
      } else {
        assert after.timeline[m] == added[m - |row.timeline|];
      }
      CompletedBy(row, a, BodyAt(after, m).enrollment.ordinal);
    }
    forall i | 0 <= i < |after.enrollments| && after.enrollments[i].status.Completed?
      ensures Note(CompletedBody(EnrollmentId(row.id, i))) in after.timeline
    {
      CompletedBy(row, a, i);
      if Completes(row, a) && i == a.ordinal {
        assert added[0] in after.timeline;
      } else {
        assert Note(CompletedBody(EnrollmentId(row.id, i))) in row.timeline;
      }
    }
  }

  lemma ApplyGrowsEnrollments(row: Row, a: RowAction)
    ensures |Apply(row, a).enrollments| >= |row.enrollments|
  {
    ApplyMoves(row, a);
  }
}
