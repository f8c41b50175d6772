/** How a lead's status and its enrollments go together, and why nobody is contacted after leaving. */
module Coupling {
  import opened Base
  import opened Contacts
  import opened Leads
  import opened Moves

  /** The lead replied, went silent, bought or opted out: the pipeline is done contacting it. */
  predicate Leaving(s: Status) {
    s.Engaged? || s.Unresponsive? || s.Converted? || s.DoNotContact?
  }

  /**
   What an action may bring from outside: CRM rules set one of the configured statuses, and a
   lead is enrolled only into a sequence configured for some tier.
   */
  predicate Configured(a: RowAction, targets: set<Status>) {
    a.OnCrmChange? ==> a.target in targets
  }

  // ----- The statuses after leaving -----

  /** No transaction brings a lead back from leaving unless a CRM rule does. */
  lemma LeavingIsClosed(row: Row, a: RowAction, targets: set<Status>)
    requires Leaving(row.status) && Configured(a, targets)
    requires forall t :: t in targets ==> Leaving(t)
    ensures Leaving(Apply(row, a).status)
  {
  }

  // ----- Live enrollments and the contacted status -----

  /**
   A lead has at most one enrollment ever; while it is live the lead is contacted, and a lead that
   was enrolled never becomes qualified again.
   */
  predicate Coupled(row: Row) {
    && |row.enrollments| <= 1
    && (row.enrollments != [] ==> row.status.Contacted? || Leaving(row.status))
    && (forall i :: 0 <= i < |row.enrollments| && Live(row.enrollments[i]) ==> row.status.Contacted?)
  }

  /** CRM rules that keep the coupling: they never send a lead back to before its first contact. */
  predicate NoWayBack(targets: set<Status>) {
    forall t :: t in targets ==> t.Contacted? || Leaving(t)
  }

  lemma ApplyKeepsCoupled(row: Row, a: RowAction, targets: set<Status>)
    requires Coupled(row) && Configured(a, targets) && NoWayBack(targets)
    ensures Coupled(Apply(row, a))
  {
    ApplyMoves(row, a);
  }

  /** Hence the step handler's branch for a lead that is no longer contactable is never taken. */
  lemma LeadLeftIsUnreachable(row: Row, ordinal: nat, step: int, at: int)
    requires Coupled(row) && ordinal < |row.enrollments|
    ensures !RunStep(row, ordinal, step, at).1.LeadLeft?
    ensures RunStep(row, ordinal, step, at).1.SequenceCompleted? ==>
        RunStep(row, ordinal, step, at).0.status.Unresponsive?
  {
  }

  // ----- Without any assumption on the CRM rules -----

  /** A live enrollment never belongs to a lead that opted out. */
  predicate OptedOutIsStopped(row: Row) {
    row.status.DoNotContact? ==> forall i :: 0 <= i < |row.enrollments| ==> !Live(row.enrollments[i])
  }

  lemma ApplyKeepsOptedOutStopped(row: Row, a: RowAction)
    requires OptedOutIsStopped(row)
    ensures OptedOutIsStopped(Apply(row, a))
  {
    ApplyMoves(row, a);
  }
}
