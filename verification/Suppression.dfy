/** The suppression list outlives the leads it came from. */
module Suppression {
  import opened Base
  import opened Contacts
  import opened Leads
  import opened Machine
  import opened Schedule
  import opened Coupling
  import opened Store

  /** An erasure request puts every address of the erased leads, and the subject's own, on the list. */
  lemma RequestSuppressesEverything(cfg: Config, s: State, ids: set<Id>, extra: Contact)
    ensures
      var s' := Next(cfg, s, Erase(ids, Request, extra));
      && Hashes(cfg, extra) <= s'.suppressed
      && (forall l :: l in ids && l in s.leads ==>
          l !in s'.leads && Hashes(cfg, s.leads[l].profile.contact) <= s'.suppressed)
      && (forall l :: l in s.leads && l !in ids ==> l in s'.leads && s'.leads[l] == s.leads[l])
  {
  }

  lemma AroundKeepsSuppressed(cfg: Config, s: State, a: Action, e: Effect, s': State)
    requires s'.suppressed == s.suppressed
    ensures s.suppressed <= Around(cfg, s, a, e, s').suppressed
  {
  }

  lemma NextKeepsSuppressed(cfg: Config, s: State, a: Action)
    ensures s.suppressed <= Next(cfg, s, a).suppressed
  {
    var e := EffectOf(cfg, s, a);
    PerformsOnlyRows(s, e);
    AroundKeepsSuppressed(cfg, s, a, e, Perform(s, e));
  }

  lemma {:induction false} SuppressionOnlyGrows(cfg: Config, s: State, actions: seq<Action>)
    ensures s.suppressed <= Run(cfg, s, actions).suppressed
  {
    if actions == [] {
    } else {
      SuppressionOnlyGrows(cfg, s, actions[..|actions| - 1]);
      NextKeepsSuppressed(cfg, Run(cfg, s, actions[..|actions| - 1]), actions[|actions| - 1]);
    }
  }

  /** The lead a submission ends up on. */
  function LeadOf(e: Effect): Option<Id> {
    match e
    case Touch(l, _) => Some(l)
    case Create(row, _) => Some(row.id)
    case _ => None
  }

  /** A submission with a suppressed address leaves its lead opted out, whether merged or new. */
  lemma SuppressedSubmissionOptsOut(cfg: Config, s: State, a: Action)
    requires a.Submit? && IsSuppressed(cfg, s, a.input.contact)
    requires LeadOf(EffectOf(cfg, s, a)).Some?
    ensures
      var l := LeadOf(EffectOf(cfg, s, a)).value;
      l in Next(cfg, s, a).leads && Next(cfg, s, a).leads[l].status.DoNotContact?
  {
    NextPerforms(cfg, s, a);
  }

  /**
   Suppression is permanent: once an address hash is listed, whatever happens in between, a lead
   created from or merged with a submission carrying that address is never sent a first contact or
   a follow-up by any attempt that reads it afterwards.
   */
  lemma SuppressionIsPermanent(cfg: Config, before: seq<Action>, between: seq<Action>, a: Action, after: seq<Action>,
                               h: string, job: MessageJob)
    requires forall t :: t in Targets(cfg) ==> Leaving(t)
    requires h in Run(cfg, INIT, before).suppressed
    requires a.Submit? && h in Hashes(cfg, a.input.contact)
    requires LeadOf(EffectOf(cfg, Run(cfg, INIT, before + between), a)) == Some(job.lead)
    requires !job.kind.RepAlertMessage?
    ensures !CheckOf(Run(cfg, INIT, before + between + [a] + after), job).Proceed?
  {
    var start := before + between;
    RunConcat(cfg, INIT, before, between);
    SuppressionOnlyGrows(cfg, Run(cfg, INIT, before), between);
    var s := Run(cfg, INIT, start);
    assert IsSuppressed(cfg, s, a.input.contact);
    SuppressedSubmissionOptsOut(cfg, s, a);
    assert (start + [a])[..|start|] == start;
    assert Run(cfg, INIT, start + [a]) == Next(cfg, s, a);
    NoContactAfterLeaving(cfg, start + [a], after, job);
  }

  /** Whoever would match an erased lead is on the list after the request. */
  lemma MatchesOfErasedAreSuppressed(cfg: Config, s: State, ids: set<Id>, extra: Contact, l: Id, input: Contact)
    requires l in ids && l in s.leads && Shares(s.leads[l].profile.contact, input)
    ensures exists h :: h in Hashes(cfg, input) && h in Next(cfg, s, Erase(ids, Request, extra)).suppressed
  {
    RequestSuppressesEverything(cfg, s, ids, extra);
    var contact := s.leads[l].profile.contact;
    var key := if SameGiven(input.email, contact.email) then EmailKey(input.email) else PhoneKey(input.phone);
    assert key in KeysOf(input) && key in KeysOf(contact);
    assert cfg.hash(key) in Hashes(cfg, input) && cfg.hash(key) in Hashes(cfg, contact);
  }

  /**
   A person who asked to be forgotten is never contacted again: whatever happens after the erasure,
   the lead of any later submission that would have matched the erased one is sent no first contact
   and no follow-up.
   */
  lemma ErasedPersonIsNeverContacted(cfg: Config, before: seq<Action>, ids: set<Id>, extra: Contact, l: Id,
                                     between: seq<Action>, a: Action, after: seq<Action>, job: MessageJob)
    requires forall t :: t in Targets(cfg) ==> Leaving(t)
    requires l in ids && l in Run(cfg, INIT, before).leads
    requires a.Submit? && Shares(Run(cfg, INIT, before).leads[l].profile.contact, a.input.contact)
    requires !job.kind.RepAlertMessage?
    ensures
      var start := before + [Erase(ids, Request, extra)] + between;
      LeadOf(EffectOf(cfg, Run(cfg, INIT, start), a)) == Some(job.lead) ==>
        !CheckOf(Run(cfg, INIT, start + [a] + after), job).Proceed?
  {
    var erasure := Erase(ids, Request, extra);
    var s := Run(cfg, INIT, before);
    assert (before + [erasure])[..|before|] == before;
    assert Run(cfg, INIT, before + [erasure]) == Next(cfg, s, erasure);
    MatchesOfErasedAreSuppressed(cfg, s, ids, extra, l, a.input.contact);
    var h :| h in Hashes(cfg, a.input.contact) && h in Next(cfg, s, erasure).suppressed;
    if LeadOf(EffectOf(cfg, Run(cfg, INIT, before + [erasure] + between), a)) == Some(job.lead) {
      SuppressionIsPermanent(cfg, before + [erasure], between, a, after, h, job);
    }
  }
}
