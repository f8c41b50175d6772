/** Where consent comes from: no message goes out on a channel the lead never agreed to. */
module Consent {
  import opened Base
  import opened Contacts
  import Keys
  import opened Leads
  import opened Machine
  import opened Store
  import opened Suppression

  predicate Allows(p: Profile, channel: Channel) {
    if channel.Email? then p.consentEmail else p.consentMessaging
  }

  /** The action at `i` was a submission of this lead that agreed to the channel. */
  predicate Agreed(cfg: Config, actions: seq<Action>, i: nat, l: Id, channel: Channel)
    requires i < |actions|
  {
    && actions[i].Submit? && Allows(actions[i].input, channel)
    && LeadOf(EffectOf(cfg, Run(cfg, INIT, actions[..i]), actions[i])) == Some(l)
  }

  /** The step opts the lead out: by reply, by link, or because a submission's address is suppressed. */
  predicate OptsOut(cfg: Config, s: State, a: Action, l: Id) {
    match EffectOf(cfg, s, a)
    case Touch(m, ra) =>
      && m == l && l in s.leads && !s.leads[l].status.DoNotContact?
      && (ra.OnUnsubscribe? || (ra.OnReply? && ra.optingOut) || (ra.OnCapture? && ra.suppressed))
    case _ => false
  }

  /** The agreement at `i` was not followed by an opt-out. */
  predicate StillAgreed(cfg: Config, actions: seq<Action>, i: nat, l: Id, channel: Channel)
    requires i < |actions|
  {
    && Agreed(cfg, actions, i, l, channel)
    && forall j :: i <= j < |actions| ==> !OptsOut(cfg, Run(cfg, INIT, actions[..j]), actions[j], l)
  }

  /** An opt-out withdraws all consent. */
  lemma OptingOutWithdraws(cfg: Config, s: State, a: Action, l: Id)
    requires OptsOut(cfg, s, a, l)
    ensures l in Next(cfg, s, a).leads
    ensures !Next(cfg, s, a).leads[l].profile.consentEmail && !Next(cfg, s, a).leads[l].profile.consentMessaging
  {
    NextPerforms(cfg, s, a);
  }

  /** Only a submission that agrees turns a consent flag on. */
  lemma OnlyCapturesAgree(row: Row, a: RowAction, channel: Channel)
    requires Allows(Apply(row, a).profile, channel) && !Allows(row.profile, channel)
    ensures a.OnCapture? && Allows(a.input, channel)
  {
  }

  lemma NewRowAgrees(id: Id, source: string, input: Profile, now: int, key: DedupeKey, ev: Id, suppressed: bool,
                     channel: Channel)
    requires Allows(NewRow(id, source, input, now, key, ev, suppressed).profile, channel)
    ensures Allows(input, channel)
  {
  }

  lemma NextAgrees(cfg: Config, s: State, a: Action, l: Id, channel: Channel)
    requires l in Next(cfg, s, a).leads && Allows(Next(cfg, s, a).leads[l].profile, channel)
    requires !(l in s.leads && Allows(s.leads[l].profile, channel))
    ensures a.Submit? && Allows(a.input, channel) && LeadOf(EffectOf(cfg, s, a)) == Some(l)
  {
    RowCases(cfg, s, a);
    assert RowCase(cfg, s, a, l);
    var e := EffectOf(cfg, s, a);
    if e.Touch? && e.lead == l {
      OnlyCapturesAgree(s.leads[l], e.action, channel);
    } else if e.Create? && e.row.id == l {
      NewRowAgrees(a.lead, a.source, a.input, a.now, Keys.Captured(a.source, a.externalId), a.ev,
                   IsSuppressed(cfg, s, a.input.contact), channel);
    }
  }

  lemma StaysAgreed(cfg: Config, actions: seq<Action>, i: nat, l: Id, channel: Channel)
    requires i + 1 < |actions|
    ensures
      var last := |actions| - 1;
      && StillAgreed(cfg, actions[..last], i, l, channel)
      && !OptsOut(cfg, Run(cfg, INIT, actions[..last]), actions[last], l)
      ==> StillAgreed(cfg, actions, i, l, channel)
  {
    hide Machine.Next;
    var last := |actions| - 1;
    var prefix := actions[..last];
    assert prefix[..i] == actions[..i];
    if StillAgreed(cfg, prefix, i, l, channel) && !OptsOut(cfg, Run(cfg, INIT, prefix), actions[last], l) {
      forall j | i <= j < |actions| ensures !OptsOut(cfg, Run(cfg, INIT, actions[..j]), actions[j], l) {
        if j < |prefix| {
          assert prefix[..j] == actions[..j];
          assert !OptsOut(cfg, Run(cfg, INIT, prefix[..j]), prefix[j], l);
        }
      }
    }
  }

  /**
   In every run a consent flag that is set was given by a submission of that lead, and the lead has
   not opted out since.
   */
  lemma {:induction false} ConsentWasGiven(cfg: Config, actions: seq<Action>, l: Id, channel: Channel)
    requires l in Run(cfg, INIT, actions).leads && Allows(Run(cfg, INIT, actions).leads[l].profile, channel)
    ensures exists i: nat :: i < |actions| && StillAgreed(cfg, actions, i, l, channel)
  {
    hide Machine.Next;
    if actions == [] {
    } else {
      var last := |actions| - 1;
      var s := Run(cfg, INIT, actions[..last]);
      if OptsOut(cfg, s, actions[last], l) { OptingOutWithdraws(cfg, s, actions[last], l); }
      if l in s.leads && Allows(s.leads[l].profile, channel) {
        ConsentWasGiven(cfg, actions[..last], l, channel);
        var i: nat :| i < last && StillAgreed(cfg, actions[..last], i, l, channel);
        StaysAgreed(cfg, actions, i, l, channel);
      } else {
        NextAgrees(cfg, s, actions[last], l, channel);
        assert StillAgreed(cfg, actions, last, l, channel);
      }
    }
  }

  /**
   In every run a first contact or follow-up that goes ahead goes to a lead that is qualified or
   contacted, at its own address, and that agreed to the channel and did not opt out since.
   */
  lemma MessagesHaveConsent(cfg: Config, actions: seq<Action>, job: MessageJob)
    requires !job.kind.RepAlertMessage? && CheckOf(Run(cfg, INIT, actions), job).Proceed?
    ensures exists i: nat :: i < |actions| && StillAgreed(cfg, actions, i, job.lead, job.channel)
    ensures
      var s := Run(cfg, INIT, actions);
      && job.lead in s.leads && (s.leads[job.lead].status.Qualified? || s.leads[job.lead].status.Contacted?)
      && Given(CheckOf(s, job).to)
      && CheckOf(s, job).to
         == if job.channel.Email? then s.leads[job.lead].profile.contact.email
             else s.leads[job.lead].profile.contact.phone
  {
    ConsentWasGiven(cfg, actions, job.lead, job.channel);
  }
}
