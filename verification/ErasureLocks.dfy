/**
 Why an erasure takes the locks of captures and reads its leads again under them: a capture that is
 still running when an erased person's addresses go on the suppression list must see them there.
 */
module ErasureLocks {
  import opened Base
  import opened Contacts
  import opened Order
  import opened ContactLocks
  import opened LockCollisions

  /** The capture has asked the list and found none of its addresses there. */
  predicate FoundClear(pr: Proc) {
    pr.task.Capture? && pr.phase.HasRead? && pr.phase.listed.Some? && !pr.phase.listed.value
  }

  // ----- What a running capture misses -----

  /** The step lists an address of `p`, which has already asked the list, without having that address's lock. */
  predicate ListsUnlocked(s: State, hash: string -> int, a: Step, p: Pid) {
    && a.Write? && Enabled(s, hash, a) && p in s.procs && FoundClear(s.procs[p])
    && exists k :: k in KeysOf(s.procs[p].task.input) && k in Listed(s.procs[a.p]) && k !in PlanOf(s.procs[a.p].phase)
  }

  /** Some erasure of the run did so. */
  predicate Missed(s: State, hash: string -> int, steps: seq<Step>, p: Pid) {
    && steps != []
    && var rest := steps[..|steps| - 1];
       Missed(s, hash, rest, p) || ListsUnlocked(Run(s, hash, rest), hash, steps[|steps| - 1], p)
  }

  lemma HoldsItsPlan(s: State, hash: string -> int, q: Pid, k: string)
    requires LockInv(s, hash) && q in s.procs && s.procs[q].phase.Reread? && k in PlanOf(s.procs[q].phase)
    ensures Holds(s, hash, q, k)
  {
    var plan := PlanOf(s.procs[q].phase);
    var j :| 0 <= j < |plan| && plan[j] == k;
    assert HoldsTaken(s, hash, q, s.procs[q].phase);
    assert j < HeldCount(s.procs[q].phase);
  }

  /** Two transactions never have the lock of the same key. */
  lemma ListedUnderLock(s: State, hash: string -> int, p: Pid, q: Pid, k: string)
    requires LockInv(s, hash) && p in s.procs && q in s.procs && p != q
    requires s.procs[p].task.Capture? && s.procs[p].phase.HasRead? && k in KeysOf(s.procs[p].task.input)
    requires s.procs[q].phase.Reread?
    ensures k !in PlanOf(s.procs[q].phase)
  {
    HoldsItsKeys(s, hash, p, k);
    if k in PlanOf(s.procs[q].phase) { HoldsItsPlan(s, hash, q, k); }
  }

  /** While a capture waits with a clear answer, its addresses get listed only by steps without their locks. */
  lemma StepListsExactly(s: State, hash: string -> int, a: Step, p: Pid)
    requires LockInv(s, hash) && p in s.procs && FoundClear(s.procs[p]) && FoundClear(Next(s, hash, a).procs[p])
    ensures
      var input := s.procs[p].task.input;
      OnList(Next(s, hash, a), input) <==> OnList(s, input) || ListsUnlocked(s, hash, a, p)
  {
    if a.Write? && Enabled(s, hash, a) {
      var q := a.p;
      forall k | k in KeysOf(s.procs[p].task.input) && k in Listed(s.procs[q])
        ensures k !in PlanOf(s.procs[q].phase)
      {
        ListedUnderLock(s, hash, p, q, k);
      }
      var s' := Next(s, hash, a);
      forall k | k in KeysOf(s.procs[p].task.input)
        ensures k in s'.suppressed <==> k in s.suppressed || k in Listed(s.procs[q])
      {
      }
    } else {
      assert Next(s, hash, a).suppressed == s.suppressed;
    }
  }

  /** What the answer of a capture says about the list: it holds an address of the submission, unless one was missed. */
  predicate Explained(s: State, p: Pid, missed: bool) {
    p in s.procs ==>
      var pr := s.procs[p];
      && (missed ==> pr.phase.Finished? || (FoundClear(pr) && OnList(s, pr.task.input)))
      && (FoundClear(pr) && OnList(s, pr.task.input) ==> missed)
      && (pr.task.Capture? && pr.phase.HasRead? && pr.phase.listed.GetOr(false) ==> OnList(s, pr.task.input))
  }

  lemma StepExplains(s: State, hash: string -> int, a: Step, p: Pid, missed: bool)
    requires LockInv(s, hash) && Explained(s, p, missed)
    ensures Explained(Next(s, hash, a), p, missed || ListsUnlocked(s, hash, a, p))
  {
    hide LocksHeld, LocksJustified, PhaseOk, WriteLeads, Release, Wanted;
    var t := Next(s, hash, a);
    assert s.suppressed <= t.suppressed && s.procs.Keys == t.procs.Keys;
    if p in t.procs {
      assert t.procs[p].task == s.procs[p].task;
      if FoundClear(s.procs[p]) && FoundClear(t.procs[p]) { StepListsExactly(s, hash, a, p); }
    }
  }

  lemma {:induction false} AnswersAreExplained(s: State, hash: string -> int, steps: seq<Step>, p: Pid)
    requires Initial(s)
    ensures Explained(Run(s, hash, steps), p, Missed(s, hash, steps, p))
  {
    hide Next, Explained, LockInv, ListsUnlocked;
    if steps == [] {
      NothingExplained(s, p);
    } else {
      var rest := steps[..|steps| - 1];
      AnswersAreExplained(s, hash, rest, p);
      RunKeepsInv(s, hash, rest);
      StepExplains(Run(s, hash, rest), hash, steps[|steps| - 1], p, Missed(s, hash, rest, p));
    }
  }

  lemma NothingExplained(s: State, p: Pid)
    requires Initial(s)
    ensures Explained(s, p, false)
  {
  }

  /** A capture has a positive answer exactly when one of its addresses is listed and none was missed. */
  lemma AnswerIsExact(s: State, hash: string -> int, steps: seq<Step>, p: Pid)
    requires Initial(s)
    ensures
      var t := Run(s, hash, steps);
      p in t.procs && t.procs[p].task.Capture? && t.procs[p].phase.HasRead? && t.procs[p].phase.listed.Some? ==>
        (!FoundClear(t.procs[p]) <==> OnList(t, t.procs[p].task.input) && !Missed(s, hash, steps, p))
  {
    AnswersAreExplained(s, hash, steps, p);
    hide Run, Missed, OnList, Initial;
  }

  // ----- What a capture commits -----

  /** The lead a capture creates or merges into. */
  function Target(pr: Proc, freshId: Id): Id {
    if pr.phase.HasRead? then pr.phase.found.GetOr(freshId) else freshId
  }

  /** The step commits a capture: the lead it read, if it read one, is still there. */
  predicate Commits(s: State, hash: string -> int, a: Step) {
    && a.Write? && Enabled(s, hash, a) && s.procs[a.p].task.Capture?
    && (s.procs[a.p].phase.found.Some? ==> s.procs[a.p].phase.found.value in s.leads)
  }

  predicate OptedOut(leads: map<Id, Lead>, l: Id) {
    l in leads && leads[l].optedOut
  }

  lemma CommitOptsOut(s: State, hash: string -> int, a: Step)
    requires Inv(s, hash) && Commits(s, hash, a)
    ensures
      var l, pr := Target(s.procs[a.p], a.freshId), s.procs[a.p];
      OptedOut(Next(s, hash, a).leads, l) <==> OptedOut(s.leads, l) || !FoundClear(pr)
  {
  }

  /**
   In every interleaving, a capture that commits leaves its lead opted out exactly when the lead was
   so before, or an address of the submission is on the list and no erasure put one there, after the
   capture had asked, without having its lock.
   */
  lemma CommitsFollowTheList(s: State, hash: string -> int, steps: seq<Step>, a: Step)
    requires Initial(s)
    ensures
      var t := Run(s, hash, steps);
      Commits(t, hash, a) ==>
        var l := Target(t.procs[a.p], a.freshId);
        OptedOut(Next(t, hash, a).leads, l) <==>
          OptedOut(t.leads, l) || (OnList(t, t.procs[a.p].task.input) && !Missed(s, hash, steps, a.p))
  {
    RunKeepsInv(s, hash, steps);
    AnswerIsExact(s, hash, steps, a.p);
    var t := Run(s, hash, steps);
    hide Run, Missed, OnList, Initial, Next, Inv, OptedOut;
    if Commits(t, hash, a) { CommitOptsOut(t, hash, a); }
  }

  // ----- Erasures that lock what they list -----

  /** The erasure's second read found no address it has not locked. */
  predicate Covers(s: State, hash: string -> int, a: Step) {
    a.Write? && Enabled(s, hash, a) ==>
      forall k :: k in Listed(s.procs[a.p]) ==> k in PlanOf(s.procs[a.p].phase)
  }

  predicate Locked(c: Contact, plan: seq<string>) {
    forall k :: k in KeysOf(c) ==> k in plan
  }

  /** Nothing an erasure read under the locks of its addresses has changed when it writes. */
  predicate RowsStillTrue(s: State, pr: Proc) {
    pr.phase.Reread? ==>
      && pr.phase.rows.Keys <= s.used
      && forall l :: l in pr.phase.rows && l in s.leads && Locked(pr.phase.rows[l], pr.phase.plan) ==>
           s.leads[l].contact == pr.phase.rows[l]
  }

  /** A merge into a lead would need the lock of an address the erasure has locked. */
  lemma MergeKeepsRow(s: State, hash: string -> int, a: Step, q: Pid, l: Id)
    requires Inv(s, hash) && Enabled(s, hash, a) && q in s.procs && a.p != q && s.procs[q].phase.Reread?
    requires l in s.procs[q].phase.rows && RowsStillTrue(s, s.procs[q]) && l in Next(s, hash, a).leads
    requires Locked(s.procs[q].phase.rows[l], s.procs[q].phase.plan)
    ensures Next(s, hash, a).leads[l].contact == s.procs[q].phase.rows[l]
  {
    var pr := s.procs[a.p];
    if a.Write? && pr.task.Capture? && l in s.leads && pr.phase.found == Some(l) {
      assert ReadStillTrue(s, pr) && Shares(pr.phase.snapshot, pr.task.input);
      MatchesShareAKey(pr.phase.snapshot, pr.task.input);
      var k :| k in KeysOf(pr.phase.snapshot) && k in KeysOf(pr.task.input);
      ListedUnderLock(s, hash, a.p, q, k);
    }
  }

  lemma StepKeepsRows(s: State, hash: string -> int, a: Step, q: Pid)
    requires Inv(s, hash) && q in s.procs && RowsStillTrue(s, s.procs[q])
    ensures RowsStillTrue(Next(s, hash, a), Next(s, hash, a).procs[q])
  {
    if Enabled(s, hash, a) && a.p != q && s.procs[q].phase.Reread? {
      var s', ph := Next(s, hash, a), s.procs[q].phase;
      forall l | l in ph.rows && l in s'.leads && Locked(ph.rows[l], ph.plan)
        ensures s'.leads[l].contact == ph.rows[l]
      {
        MergeKeepsRow(s, hash, a, q, l);
      }
    }
  }

  lemma {:induction false} RowsStayTrue(s: State, hash: string -> int, steps: seq<Step>, q: Pid)
    requires Initial(s) && q in s.procs
    ensures q in Run(s, hash, steps).procs && RowsStillTrue(Run(s, hash, steps), Run(s, hash, steps).procs[q])
  {
    if steps == [] {
    } else {
      RowsStayTrue(s, hash, steps[..|steps| - 1], q);
      RunKeepsInv(s, hash, steps[..|steps| - 1]);
      StepKeepsRows(Run(s, hash, steps[..|steps| - 1]), hash, steps[|steps| - 1], q);
    }
  }

  /** No step adds a transaction. */
  lemma {:induction false} RunKeepsProcs(s: State, hash: string -> int, steps: seq<Step>)
    ensures Run(s, hash, steps).procs.Keys == s.procs.Keys
  {
    if steps == [] {
    } else {
      RunKeepsProcs(s, hash, steps[..|steps| - 1]);
    }
  }

  /** The step is an erasure's, and removes the lead. */
  predicate Erases(s: State, hash: string -> int, a: Step, l: Id) {
    && a.Write? && Enabled(s, hash, a) && s.procs[a.p].phase.Reread?
    && l in s.leads && l in s.procs[a.p].phase.rows
  }

  /** The lead has this address at that moment. */
  predicate ErasesAddress(s: State, hash: string -> int, a: Step, l: Id, k: string) {
    Erases(s, hash, a, l) && k in KeysOf(s.leads[l].contact)
  }

  /** An erasure that locks what it lists puts every address its leads have at that moment on the list. */
  lemma ErasureListsAddresses(s: State, hash: string -> int, steps: seq<Step>, e: Step, l: Id, k: string)
    requires Initial(s)
    ensures
      var u := Run(s, hash, steps);
      Covers(u, hash, e) && ErasesAddress(u, hash, e, l, k) ==>
        k in Listed(u.procs[e.p]) && k in Next(u, hash, e).suppressed && l !in Next(u, hash, e).leads
  {
    var u := Run(s, hash, steps);
    if Covers(u, hash, e) && ErasesAddress(u, hash, e, l, k) {
      RunKeepsProcs(s, hash, steps);
      RunKeepsInv(s, hash, steps);
      RowsStayTrue(s, hash, steps, e.p);
      var pr := u.procs[e.p];
      assert PhaseOk(pr);
      forall key | key in KeysOf(pr.phase.rows[l]) ensures key in pr.phase.plan {
        assert key in Listed(pr);
      }
      assert u.leads[l].contact == pr.phase.rows[l];
      assert k in Listed(pr);
    }
  }

  lemma StaysUnclear(s: State, hash: string -> int, a: Step, p: Pid, k: string)
    requires p in s.procs && s.procs[p].task.Capture? && k in KeysOf(s.procs[p].task.input)
    requires k in s.suppressed && !FoundClear(s.procs[p])
    ensures
      var t := Next(s, hash, a);
      p in t.procs && t.procs[p].task == s.procs[p].task && k in t.suppressed && !FoundClear(t.procs[p])
  {
    hide WriteLeads, Release, Wanted, IsPlan, KeysOf;
  }

  /** Once an address of a capture is listed and its answer is not a clear one, it never is. */
  lemma {:induction false} NeverClearAgain(s: State, hash: string -> int, steps: seq<Step>, more: seq<Step>, p: Pid,
      k: string)
    requires p in s.procs && p in Run(s, hash, steps).procs && k in Run(s, hash, steps).suppressed
    requires s.procs[p].task.Capture? && k in KeysOf(s.procs[p].task.input)
    requires !FoundClear(Run(s, hash, steps).procs[p])
    ensures
      var t := Run(s, hash, steps + more);
      p in t.procs && t.procs[p].task == s.procs[p].task && k in t.suppressed && !FoundClear(t.procs[p])
  {
    hide Next, FoundClear, KeysOf;
    if more == [] {
      assert steps + more == steps;
      TasksStay(s, hash, steps, p);
    } else {
      var rest := more[..|more| - 1];
      NeverClearAgain(s, hash, steps, rest, p, k);
      assert (steps + more)[..|steps + more| - 1] == steps + rest;
      StaysUnclear(Run(s, hash, steps + rest), hash, more[|more| - 1], p, k);
    }
  }

  lemma {:induction false} TasksStay(s: State, hash: string -> int, steps: seq<Step>, p: Pid)
    requires p in s.procs
    ensures p in Run(s, hash, steps).procs && Run(s, hash, steps).procs[p].task == s.procs[p].task
  {
    if steps == [] {
    } else {
      TasksStay(s, hash, steps[..|steps| - 1], p);
    }
  }

  lemma InvHoldsLocks(s: State, hash: string -> int)
    requires Inv(s, hash)
    ensures LockInv(s, hash)
  {
  }

  /** A capture with an address that such an erasure lists has no clear answer then: it has not read yet. */
  lemma ListingFindsNobodyClear(s: State, hash: string -> int, e: Step, p: Pid, k: string)
    requires LockInv(s, hash) && e.Write? && Enabled(s, hash, e) && Covers(s, hash, e) && k in Listed(s.procs[e.p])
    requires p in s.procs && s.procs[p].task.Capture? && k in KeysOf(s.procs[p].task.input)
    ensures !FoundClear(Next(s, hash, e).procs[p])
  {
    if FoundClear(s.procs[p]) { ListedUnderLock(s, hash, p, e.p, k); }
  }

  /**
   In every interleaving, after an erasure that locks what it lists, a capture with an address of an
   erased lead leaves its own lead opted out when it commits, whatever the other transactions do.
   */
  lemma CaptureAfterErasureOptsOut(s: State, hash: string -> int, steps: seq<Step>, e: Step, more: seq<Step>, a: Step,
      l: Id, k: string)
    requires Initial(s)
    ensures
      var u, t := Run(s, hash, steps), Run(s, hash, steps + [e] + more);
      Covers(u, hash, e) && ErasesAddress(u, hash, e, l, k) && Commits(t, hash, a)
      && k in KeysOf(t.procs[a.p].task.input) ==>
        OptedOut(Next(t, hash, a).leads, Target(t.procs[a.p], a.freshId))
  {
    hide Run, Next, Inv, LockInv, Listed, Initial, OptedOut, Covers;
    var u, t := Run(s, hash, steps), Run(s, hash, steps + [e] + more);
    if Covers(u, hash, e) && ErasesAddress(u, hash, e, l, k) && Commits(t, hash, a)
       && k in KeysOf(t.procs[a.p].task.input)
    {
      RunKeepsProcs(s, hash, steps + [e] + more);
      TasksStay(s, hash, steps, a.p);
      TasksStay(s, hash, steps + [e], a.p);
      TasksStay(s, hash, steps + [e] + more, a.p);
      RunKeepsInv(s, hash, steps);
      RunKeepsInv(s, hash, steps + [e] + more);
      ErasureListsAddresses(s, hash, steps, e, l, k);
      InvHoldsLocks(u, hash);
      ListingFindsNobodyClear(u, hash, e, a.p, k);
      RunTakes(s, hash, steps, u, e);
      NeverClearAgain(s, hash, steps + [e], more, a.p, k);
      CommitOptsOut(t, hash, a);
    }
  }

  // ----- An erasure that lists what it has not locked -----

  ghost predicate Reachable(s: State, hash: string -> int, t: State) {
    exists steps :: Run(s, hash, steps) == t
  }

  lemma Reaches(s: State, hash: string -> int, t: State, a: Step)
    requires Reachable(s, hash, t)
    ensures Reachable(s, hash, Next(t, hash, a))
  {
    var steps :| Run(s, hash, steps) == t;
    RunTakes(s, hash, steps, t, a);
  }

  /** Two people; the second one is also known, later, by the phone that the first one gives. */
  const OLDER := Contact(Some("b"), None)
  const NEWER := Contact(Some("a"), None)
  const OLDER_AGAIN := Contact(Some("b"), Some("1"))
  const NEWER_AGAIN := Contact(Some("a"), Some("1"))

  const ERASURE := Erase({"newer"}, NOBODY)

  /** Each submits twice, and the second one asks to be erased. */
  const TWO_PEOPLE := State(map[], {}, {}, map[],
    map["1" := Proc(Capture(OLDER), Waiting), "2" := Proc(Capture(NEWER), Waiting),
        "3" := Proc(Capture(NEWER_AGAIN), Waiting), "4" := Proc(Capture(OLDER_AGAIN), Waiting),
        "5" := Proc(ERASURE, Waiting)])

  function BothCaptured(): State {
    WithLead(WithLead(TWO_PEOPLE, "1", OLDER, "older"), "2", NEWER, "newer")
  }

  lemma KeysAre()
    ensures KeysOf(OLDER) == {"email:b"} && KeysOf(OLDER_AGAIN) == {"email:b", "phone:1"}
    ensures KeysOf(NEWER) == {"email:a"} && KeysOf(NEWER_AGAIN) == {"email:a", "phone:1"}
  {
    assert EmailKey(Some("b")) == "email:b" && EmailKey(Some("a")) == "email:a" && PhoneKey(Some("1")) == "phone:1";
  }

  lemma ReachBothCaptured(hash: string -> int)
    ensures Reachable(TWO_PEOPLE, hash, BothCaptured())
  {
    KeysAre();
    var first := CaptureSteps("1", "email:b", "older");
    assert [] + first == first;
    AfterCapture(TWO_PEOPLE, hash, [], TWO_PEOPLE, "1", OLDER, "email:b", "older");
    var t := WithLead(TWO_PEOPLE, "1", OLDER, "older");
    AfterCapture(TWO_PEOPLE, hash, first, t, "2", NEWER, "email:a", "newer");
  }

  /** The capture has its two locks, has read the lead it merges into, and has a clear answer from the list. */
  function Merging(t: State, hash: string -> int, p: Pid, c: Contact, plan: seq<string>, l: Id): State
    requires |plan| == 2 && l in t.leads
  {
    Moved(t, p, Capture(c), HasRead(plan, Some(l), t.leads[l].contact, Some(false)),
          map[hash(plan[0]) := p, hash(plan[1]) := p])
  }

  lemma ReachChecked(hash: string -> int, t: State, p: Pid, c: Contact, plan: seq<string>, l: Id)
    requires Reachable(TWO_PEOPLE, hash, t) && t.suppressed == {} && |plan| == 2
    requires t.locks == map[hash(plan[0]) := p, hash(plan[1]) := p]
    requires p in t.procs && t.procs[p] == Proc(Capture(c), Locking(plan, 2))
    requires l in t.leads && Shares(t.leads[l].contact, c)
    ensures Reachable(TWO_PEOPLE, hash, Merging(t, hash, p, c, plan, l))
  {
    Reaches(TWO_PEOPLE, hash, t, Read(p, Some(l)));
    var t1 := Moved(t, p, Capture(c), HasRead(plan, Some(l), t.leads[l].contact, None), t.locks);
    assert Next(t, hash, Read(p, Some(l))) == t1;
    Reaches(TWO_PEOPLE, hash, t1, CheckList(p));
    assert Next(t1, hash, CheckList(p)) == Merging(t, hash, p, c, plan, l);
  }

  lemma ReachMerging(hash: string -> int, t: State, p: Pid, c: Contact, plan: seq<string>, l: Id)
    requires Reachable(TWO_PEOPLE, hash, t) && t.locks == map[] && t.suppressed == {}
    requires p in t.procs && t.procs[p] == Proc(Capture(c), Waiting) && |plan| == 2 && IsPlan(plan, KeysOf(c))
    requires l in t.leads && Shares(t.leads[l].contact, c)
    ensures Reachable(TWO_PEOPLE, hash, Merging(t, hash, p, c, plan, l))
  {
    Reaches(TWO_PEOPLE, hash, t, Begin(p, plan));
    var t1 := Moved(t, p, Capture(c), Locking(plan, 0), map[]);
    assert Next(t, hash, Begin(p, plan)) == t1;
    Reaches(TWO_PEOPLE, hash, t1, TakeLock(p));
    var t2 := Moved(t, p, Capture(c), Locking(plan, 1), map[hash(plan[0]) := p]);
    assert Next(t1, hash, TakeLock(p)) == t2;
    Reaches(TWO_PEOPLE, hash, t2, TakeLock(p));
    var t3 := Moved(t, p, Capture(c), Locking(plan, 2), map[hash(plan[0]) := p, hash(plan[1]) := p]);
    assert Next(t2, hash, TakeLock(p)) == t3;
    ReachChecked(hash, t3, p, c, plan, l);
    assert Merging(t3, hash, p, c, plan, l) == Merging(t, hash, p, c, plan, l);
  }

  lemma EmailThenPhone(email: string, phone: string)
    requires email != "" && phone != "" && email[0] == 'e' && phone[0] == 'p'
    ensures IsPlan([email, phone], {email, phone})
  {
    assert [email, phone][0] == email && [email, phone][1] == phone;
  }

  /** What the table looks like once such a capture has committed. */
  function Merged(t: State, p: Pid, c: Contact, l: Id, unused: Id): State
    requires l in t.leads
  {
    var row := t.leads[l];
    t.(leads := t.leads[l := row.(contact := Merge(row.contact, c))], used := t.used + {unused}, locks := map[],
       procs := t.procs[p := Proc(Capture(c), Finished)])
  }

  lemma ReachMerged(hash: string -> int, t: State, p: Pid, c: Contact, plan: seq<string>, l: Id, unused: Id)
    requires |plan| == 2 && l in t.leads && Reachable(TWO_PEOPLE, hash, Merging(t, hash, p, c, plan, l))
    requires p in t.procs && unused !in t.used
    ensures Reachable(TWO_PEOPLE, hash, Merged(t, p, c, l, unused))
  {
    var t1 := Merging(t, hash, p, c, plan, l);
    Reaches(TWO_PEOPLE, hash, t1, Write(p, unused));
    assert Release(t1.locks, p) == map[];
    assert t1.suppressed + Listed(t1.procs[p]) == t1.suppressed;
    assert Next(t1, hash, Write(p, unused)) == Merged(t, p, c, l, unused);
  }

  function ErasureBegun(): State {
    Moved(BothCaptured(), "5", ERASURE, Locking(["email:a"], 0), map[])
  }

  lemma ReachErasureBegun(hash: string -> int)
    ensures Reachable(TWO_PEOPLE, hash, ErasureBegun())
  {
    ReachBothCaptured(hash);
    KeysAre();
    SingleKeyPlan("email:a");
    var t := BothCaptured();
    assert t.leads["newer"].contact == NEWER;
    assert ContactLocks.Wanted(t, ERASURE) == {"email:a"};
    Reaches(TWO_PEOPLE, hash, t, Begin("5", ["email:a"]));
  }

  /** The erasure has looked its lead up; then the second person's phone is merged into that lead. */
  function PhoneAdded(): State {
    Merged(ErasureBegun(), "3", NEWER_AGAIN, "newer", "x")
  }

  lemma ReachPhoneAdded(hash: string -> int)
    ensures Reachable(TWO_PEOPLE, hash, PhoneAdded())
  {
    ReachErasureBegun(hash);
    KeysAre();
    var plan := ["email:a", "phone:1"];
    EmailThenPhone("email:a", "phone:1");
    ReachMerging(hash, ErasureBegun(), "3", NEWER_AGAIN, plan, "newer");
    ReachMerged(hash, ErasureBegun(), "3", NEWER_AGAIN, plan, "newer", "x");
  }

  const OLDER_WAITS :=
    Proc(Capture(OLDER_AGAIN), HasRead(["email:b", "phone:1"], Some("older"), OLDER, Some(false)))

  /** The first person's second submission is under way. */
  function OlderMerging(hash: string -> int): State {
    Merging(PhoneAdded(), hash, "4", OLDER_AGAIN, ["email:b", "phone:1"], "older")
  }

  lemma ReachOlderMerging(hash: string -> int)
    ensures Reachable(TWO_PEOPLE, hash, OlderMerging(hash))
  {
    ReachPhoneAdded(hash);
    KeysAre();
    EmailThenPhone("email:b", "phone:1");
    ReachMerging(hash, PhoneAdded(), "4", OLDER_AGAIN, ["email:b", "phone:1"], "older");
  }

  /** The erasure takes its one lock and reads the lead again, with the phone. */
  function Found(t: State, hash: string -> int): State {
    Moved(t, "5", ERASURE, Reread(["email:a"], map["newer" := NEWER_AGAIN]), t.locks[hash("email:a") := "5"])
  }

  function PhoneFound(hash: string -> int): State {
    Found(OlderMerging(hash), hash)
  }

  lemma ReachFound(hash: string -> int, t: State)
    requires Reachable(TWO_PEOPLE, hash, t) && "newer" in t.leads && t.leads["newer"].contact == NEWER_AGAIN
    requires "5" in t.procs && t.procs["5"] == Proc(ERASURE, Locking(["email:a"], 0)) && hash("email:a") !in t.locks
    ensures Reachable(TWO_PEOPLE, hash, Found(t, hash))
  {
    Reaches(TWO_PEOPLE, hash, t, TakeLock("5"));
    var t1 := Moved(t, "5", ERASURE, Locking(["email:a"], 1), t.locks[hash("email:a") := "5"]);
    assert Next(t, hash, TakeLock("5")) == t1;
    Reaches(TWO_PEOPLE, hash, t1, ReadAgain("5"));
    assert (map l | l in t1.leads && l in ERASURE.leads :: t1.leads[l].contact) == map["newer" := NEWER_AGAIN];
    assert Next(t1, hash, ReadAgain("5")) == Found(t, hash);
  }

  lemma ReachPhoneFound(hash: string -> int)
    requires hash("email:a") != hash("email:b") && hash("email:a") != hash("phone:1")
    ensures Reachable(TWO_PEOPLE, hash, PhoneFound(hash))
  {
    ReachOlderMerging(hash);
    hide Next, Run;
    ReachFound(hash, OlderMerging(hash));
  }

  /** It lists the phone and removes the lead. */
  const LISTING := Write("5", "x")

  predicate FoundPhone(t: State) {
    && "newer" in t.leads && t.leads["newer"].contact == NEWER_AGAIN
    && "5" in t.procs && t.procs["5"] == Proc(ERASURE, Reread(["email:a"], map["newer" := NEWER_AGAIN]))
    && "older" in t.leads && t.leads["older"] == Lead(OLDER, OLDER, false)
    && "4" in t.procs && t.procs["4"] == OLDER_WAITS && "x" in t.used && "y" !in t.used
  }

  lemma PhoneIsFound(hash: string -> int)
    ensures FoundPhone(PhoneFound(hash))
  {
  }

  /** The commit of the first person's second submission. */
  const COMMIT := Write("4", "y")

  lemma ListingMissesOlder(hash: string -> int, t: State)
    requires FoundPhone(t)
    ensures ErasesAddress(t, hash, LISTING, "newer", "phone:1") && !Covers(t, hash, LISTING)
    ensures
      var u := Next(t, hash, LISTING);
      && Commits(u, hash, COMMIT) && "phone:1" in KeysOf(u.procs[COMMIT.p].task.input)
      && !OptedOut(Next(u, hash, COMMIT).leads, Target(u.procs[COMMIT.p], COMMIT.freshId))
  {
    KeysAre();
    assert "phone:1" in KeysOf(t.procs["5"].phase.rows["newer"]);
    assert "phone:1" in Listed(t.procs["5"]) && "phone:1" != "email:a";
  }

  /**
   Without that condition the promise fails. A phone is merged into a lead after its erasure has looked
   it up, so the erasure lists the phone without its lock. A capture that merges the same phone into
   another, older lead has asked the list already; it commits afterwards, and its lead is not opted out.
   */
  lemma UnlockedListingIsMissed(hash: string -> int) returns (s: State, steps: seq<Step>, e: Step, a: Step)
    requires hash("email:a") != hash("email:b") && hash("email:a") != hash("phone:1")
    ensures Initial(s)
    ensures
      var u, t := Run(s, hash, steps), Run(s, hash, steps + [e]);
      && ErasesAddress(u, hash, e, "newer", "phone:1") && !Covers(u, hash, e)
      && Commits(t, hash, a) && "phone:1" in KeysOf(t.procs[a.p].task.input)
      && !OptedOut(Next(t, hash, a).leads, Target(t.procs[a.p], a.freshId))
  {
    hide Run, Next, PhoneFound, FoundPhone, ErasesAddress, Covers, Commits, OptedOut;
    ReachPhoneFound(hash);
    PhoneIsFound(hash);
    s, e, a := TWO_PEOPLE, LISTING, COMMIT;
    steps :| Run(TWO_PEOPLE, hash, steps) == PhoneFound(hash);
    RunTakes(s, hash, steps, PhoneFound(hash), e);
    ListingMissesOlder(hash, PhoneFound(hash));
  }
}
