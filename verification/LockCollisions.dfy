/**
 When the contact-key locks can deadlock: exactly when the lock hash gives two keys one lock and a key
 between them, in lock order, another.
 */
module LockCollisions {
  import opened Base
  import opened Contacts
  import opened Order
  import opened ContactLocks

  /** The key of some email or phone. */
  ghost predicate AddressKey(key: string) {
    exists c :: OnlyKey(c, key)
  }

  /** A contact with this key and no other. */
  predicate OnlyKey(c: Contact, key: string) {
    KeysOf(c) == {key}
  }

  ghost predicate UnbrokenHash(hash: string -> int) {
    forall a, b, c :: AddressKey(a) && AddressKey(b) && AddressKey(c) ==> Unbroken(hash, a, b, c)
  }

  // ----- An unbroken hash never deadlocks -----

  lemma KeysAreAddressKeys(c: Contact, key: string)
    requires key in KeysOf(c)
    ensures AddressKey(key)
  {
    var only := if Given(c.email) && key == EmailKey(c.email) then Contact(c.email, None) else Contact(None, c.phone);
    assert OnlyKey(only, key);
  }

  ghost predicate PlansAreAddresses(s: State) {
    forall p, key :: p in s.procs && key in PlanOf(s.procs[p].phase) ==> AddressKey(key)
  }

  lemma WantedAreAddressKeys(s: State, t: Task, key: string)
    requires key in ContactLocks.Wanted(s, t)
    ensures AddressKey(key)
  {
    match t
    case Capture(input) => KeysAreAddressKeys(input, key);
    case Erase(ids, extra) =>
      if key in KeysOf(extra) {
        KeysAreAddressKeys(extra, key);
      } else {
        var l :| l in ids && l in s.leads && key in KeysOf(s.leads[l].contact);
        KeysAreAddressKeys(s.leads[l].contact, key);
      }
  }

  lemma StepKeepsAddresses(s: State, hash: string -> int, a: Step)
    requires PlansAreAddresses(s)
    ensures PlansAreAddresses(Next(s, hash, a))
  {
    var s' := Next(s, hash, a);
    forall p, key | p in s'.procs && key in PlanOf(s'.procs[p].phase) ensures AddressKey(key) {
      if a.Begin? && Enabled(s, hash, a) && p == a.p {
        WantedAreAddressKeys(s, s.procs[p].task, key);
      } else {
        assert key in PlanOf(s.procs[p].phase);
      }
    }
  }

  lemma {:induction false} RunKeepsAddresses(s: State, hash: string -> int, steps: seq<Step>)
    requires Initial(s)
    ensures PlansAreAddresses(Run(s, hash, steps))
  {
    if steps == [] {
    } else {
      RunKeepsAddresses(s, hash, steps[..|steps| - 1]);
      StepKeepsAddresses(Run(s, hash, steps[..|steps| - 1]), hash, steps[|steps| - 1]);
    }
  }

  lemma UnbrokenHashNeverDeadlocks(s: State, hash: string -> int, steps: seq<Step>)
    requires Initial(s) && UnbrokenHash(hash)
    ensures !Deadlocked(Run(s, hash, steps), hash)
    ensures forall ps :: !WaitCycle(Run(s, hash, steps), hash, ps)
  {
    RunKeepsAddresses(s, hash, steps);
    TransactionsNeverDeadlock(s, hash, steps);
    var t := Run(s, hash, steps);
    forall a, b, c | InPlay(t, a) && InPlay(t, b) && InPlay(t, c) ensures Unbroken(hash, a, b, c) {
      assert AddressKey(a) && AddressKey(b) && AddressKey(c);
    }
  }

  // ----- A broken hash deadlocks some run -----

  const NOBODY: Contact := Contact(None, None)

  lemma RunTakes(s: State, hash: string -> int, steps: seq<Step>, t: State, a: Step)
    requires Run(s, hash, steps) == t
    ensures Run(s, hash, steps + [a]) == Next(t, hash, a)
  {
    assert (steps + [a])[..|steps + [a]| - 1] == steps;
  }

  /** A table in which one transaction moved on and the locks are these. */
  function Moved(t: State, p: Pid, task: Task, phase: Phase, locks: map<int, Pid>): State {
    t.(locks := locks, procs := t.procs[p := Proc(task, phase)])
  }

  lemma RunBegins(s: State, hash: string -> int, steps: seq<Step>, t: State, p: Pid, task: Task, plan: seq<string>)
    requires Run(s, hash, steps) == t && p in t.procs && t.procs[p] == Proc(task, Waiting)
    requires IsPlan(plan, ContactLocks.Wanted(t, task))
    ensures Run(s, hash, steps + [Begin(p, plan)]) == Moved(t, p, task, Locking(plan, 0), t.locks)
  {
    RunTakes(s, hash, steps, t, Begin(p, plan));
  }

  lemma RunLocks(s: State, hash: string -> int, steps: seq<Step>, t: State, p: Pid, task: Task, plan: seq<string>,
      held: nat)
    requires Run(s, hash, steps) == t && p in t.procs && t.procs[p] == Proc(task, Locking(plan, held))
    requires held < |plan| && hash(plan[held]) !in t.locks
    ensures Run(s, hash, steps + [TakeLock(p)]) ==
        Moved(t, p, task, Locking(plan, held + 1), t.locks[hash(plan[held]) := p])
  {
    RunTakes(s, hash, steps, t, TakeLock(p));
  }

  lemma RunReads(s: State, hash: string -> int, steps: seq<Step>, t: State, p: Pid, c: Contact, plan: seq<string>)
    requires Run(s, hash, steps) == t && p in t.procs && t.procs[p] == Proc(Capture(c), Locking(plan, |plan|))
    requires forall l :: l in t.leads ==> !Shares(t.leads[l].contact, c)
    ensures Run(s, hash, steps + [Read(p, None)]) == Moved(t, p, Capture(c), HasRead(plan, None, NOBODY, None), t.locks)
  {
    RunTakes(s, hash, steps, t, Read(p, None));
  }

  lemma RunChecks(s: State, hash: string -> int, steps: seq<Step>, t: State, p: Pid, c: Contact, plan: seq<string>)
    requires Run(s, hash, steps) == t && p in t.procs
    requires t.procs[p] == Proc(Capture(c), HasRead(plan, None, NOBODY, None)) && t.suppressed == {}
    ensures Run(s, hash, steps + [CheckList(p)])
         == Moved(t, p, Capture(c), HasRead(plan, None, NOBODY, Some(false)), t.locks)
  {
    RunTakes(s, hash, steps, t, CheckList(p));
  }

  /** The table after an undisturbed capture. */
  function WithLead(s: State, p: Pid, c: Contact, id: Id): State {
    State(s.leads[id := Lead(c, c, false)], s.used + {id}, {}, map[], s.procs[p := Proc(Capture(c), Finished)])
  }

  lemma RunWrites(s: State, hash: string -> int, steps: seq<Step>, t: State, p: Pid, c: Contact, plan: seq<string>,
      id: Id)
    requires Run(s, hash, steps) == t && p in t.procs
    requires t.procs[p] == Proc(Capture(c), HasRead(plan, None, NOBODY, Some(false))) && t.suppressed == {}
    requires id !in t.used && forall h :: h in t.locks ==> t.locks[h] == p
    ensures Run(s, hash, steps + [Write(p, id)]) == WithLead(t, p, c, id)
  {
    RunTakes(s, hash, steps, t, Write(p, id));
    forall h ensures h !in Release(t.locks, p) {
    }
    assert Release(t.locks, p).Keys == {};
    assert Release(t.locks, p) == map[];
  }

  lemma SingleKeyPlan(key: string)
    ensures IsPlan([key], {key})
  {
    assert [key][0] == key;
  }

  /** The five steps of a capture that nobody disturbs. */
  function CaptureSteps(p: Pid, key: string, id: Id): seq<Step> {
    [Begin(p, [key]), TakeLock(p), Read(p, None), CheckList(p), Write(p, id)]
  }

  predicate CanCapture(s: State, p: Pid, c: Contact, key: string, id: Id) {
    && p in s.procs && s.procs[p] == Proc(Capture(c), Waiting) && OnlyKey(c, key)
    && s.locks == map[] && s.suppressed == {} && id !in s.used
    && forall l :: l in s.leads ==> !Shares(s.leads[l].contact, c)
  }

  lemma AfterCapture(s: State, hash: string -> int, steps: seq<Step>, t: State, p: Pid, c: Contact, key: string, id: Id)
    requires Run(s, hash, steps) == t && CanCapture(t, p, c, key, id)
    ensures Run(s, hash, steps + CaptureSteps(p, key, id)) == WithLead(t, p, c, id)
  {
    hide Run, Next;
    SingleKeyPlan(key);
    RunBegins(s, hash, steps, t, p, Capture(c), [key]);
    var s1, t1 := steps + [Begin(p, [key])], Moved(t, p, Capture(c), Locking([key], 0), t.locks);
    RunLocks(s, hash, s1, t1, p, Capture(c), [key], 0);
    var s2, t2 := s1 + [TakeLock(p)], Moved(t1, p, Capture(c), Locking([key], 1), t1.locks[hash(key) := p]);
    RunReads(s, hash, s2, t2, p, c, [key]);
    var s3, t3 := s2 + [Read(p, None)], Moved(t2, p, Capture(c), HasRead([key], None, NOBODY, None), t2.locks);
    RunChecks(s, hash, s3, t3, p, c, [key]);
    var s4, t4 := s3 + [CheckList(p)], Moved(t3, p, Capture(c), HasRead([key], None, NOBODY, Some(false)), t3.locks);
    RunWrites(s, hash, s4, t4, p, c, [key], id);
    assert s4 + [Write(p, id)] == steps + CaptureSteps(p, key, id);
  }

  lemma DifferentKeysDontMatch(c: Contact, key: string, d: Contact, other: string)
    requires OnlyKey(c, key) && OnlyKey(d, other) && key != other
    ensures !Shares(c, d)
  {
    if Shares(c, d) { MatchesShareAKey(c, d); }
  }

  /** Three people with one address each, in lock order. */
  datatype Trio = Trio(ca: Contact, a: string, cb: Contact, b: string, cc: Contact, c: string)

  predicate InOrder(t: Trio) {
    OnlyKey(t.ca, t.a) && OnlyKey(t.cb, t.b) && OnlyKey(t.cc, t.c) && Less(t.a, t.b) && Less(t.b, t.c)
  }

  lemma TrioIsDistinct(t: Trio)
    requires InOrder(t)
    ensures t.a != t.b && t.b != t.c && t.a != t.c
    ensures !Shares(t.ca, t.cb) && !Shares(t.ca, t.cc) && !Shares(t.cb, t.cc)
  {
    LessTotal(t.a, t.b);
    LessTotal(t.b, t.c);
    LessTransitive(t.a, t.b, t.c);
    LessTotal(t.a, t.c);
    DifferentKeysDontMatch(t.ca, t.a, t.cb, t.b);
    DifferentKeysDontMatch(t.ca, t.a, t.cc, t.c);
    DifferentKeysDontMatch(t.cb, t.b, t.cc, t.c);
  }

  /** Names of five transactions and three leads. */
  datatype Names = Names(p0: Pid, p1: Pid, p2: Pid, q0: Pid, q1: Pid, l0: Id, l1: Id, l2: Id)

  predicate Distinct(n: Names) {
    && n.p0 != n.p1 && n.p0 != n.p2 && n.p0 != n.q0 && n.p0 != n.q1
    && n.p1 != n.p2 && n.p1 != n.q0 && n.p1 != n.q1
    && n.p2 != n.q0 && n.p2 != n.q1 && n.q0 != n.q1
    && n.l0 != n.l1 && n.l0 != n.l2 && n.l1 != n.l2
  }

  function FirstErasure(n: Names): Task { Erase({n.l0, n.l1}, NOBODY) }

  function SecondErasure(n: Names): Task { Erase({n.l1, n.l2}, NOBODY) }

  /** Three captures to come, and two erasures that overlap in the lead of the second. */
  function Start(t: Trio, n: Names): State {
    State(map[], {}, {}, map[],
          map[n.p0 := Proc(Capture(t.ca), Waiting), n.p1 := Proc(Capture(t.cb), Waiting),
              n.p2 := Proc(Capture(t.cc), Waiting),
              n.q0 := Proc(FirstErasure(n), Waiting), n.q1 := Proc(SecondErasure(n), Waiting)])
  }

  function Captures(t: Trio, n: Names): seq<Step> {
    CaptureSteps(n.p0, t.a, n.l0) + CaptureSteps(n.p1, t.b, n.l1) + CaptureSteps(n.p2, t.c, n.l2)
  }

  function Captured(t: Trio, n: Names): State {
    WithLead(WithLead(WithLead(Start(t, n), n.p0, t.ca, n.l0), n.p1, t.cb, n.l1), n.p2, t.cc, n.l2)
  }

  lemma AfterCaptures(hash: string -> int, t: Trio, n: Names)
    requires InOrder(t) && Distinct(n)
    ensures Run(Start(t, n), hash, Captures(t, n)) == Captured(t, n)
  {
    TrioIsDistinct(t);
    var s := Start(t, n);
    assert Run(s, hash, []) == s;
    hide Run, Next, InOrder, CaptureSteps;
    var first := CaptureSteps(n.p0, t.a, n.l0);
    assert [] + first == first;
    AfterCapture(s, hash, [], s, n.p0, t.ca, t.a, n.l0);
    var t1 := WithLead(s, n.p0, t.ca, n.l0);
    AfterCapture(s, hash, first, t1, n.p1, t.cb, t.b, n.l1);
    AfterCapture(s, hash, first + CaptureSteps(n.p1, t.b, n.l1), WithLead(t1, n.p1, t.cb, n.l1), n.p2, t.cc, t.c, n.l2);
  }

  /** The leads are there, no lock is taken, and only the two erasures are left to do. */
  predicate ReadyToErase(s: State, t: Trio, n: Names) {
    && n.l0 in s.leads && s.leads[n.l0].contact == t.ca
    && n.l1 in s.leads && s.leads[n.l1].contact == t.cb
    && n.l2 in s.leads && s.leads[n.l2].contact == t.cc
    && s.locks == map[]
    && n.q0 in s.procs && s.procs[n.q0] == Proc(FirstErasure(n), Waiting)
    && n.q1 in s.procs && s.procs[n.q1] == Proc(SecondErasure(n), Waiting)
    && forall p :: p in s.procs && p != n.q0 && p != n.q1 ==> s.procs[p].phase.Finished?
  }

  lemma CapturedIsReady(t: Trio, n: Names)
    requires Distinct(n)
    ensures ReadyToErase(Captured(t, n), t, n)
  {
  }

  /** Each erasure takes its first lock; the first wants what the second holds, and the other way round. */
  function Erasures(t: Trio, n: Names): seq<Step> {
    [Begin(n.q0, [t.a, t.b]), TakeLock(n.q0), Begin(n.q1, [t.b, t.c]), TakeLock(n.q1)]
  }

  /** Both erasures hold one lock each. */
  function AfterErasures(s: State, hash: string -> int, t: Trio, n: Names): State {
    var s1 := Moved(s, n.q0, FirstErasure(n), Locking([t.a, t.b], 1), s.locks[hash(t.a) := n.q0]);
    Moved(s1, n.q1, SecondErasure(n), Locking([t.b, t.c], 1), s1.locks[hash(t.b) := n.q1])
  }

  lemma TwoKeyPlan(s: State, l: Id, cl: Contact, m: Id, cm: Contact, k: string, k': string)
    requires l in s.leads && m in s.leads && s.leads[l].contact == cl && s.leads[m].contact == cm
    requires OnlyKey(cl, k) && OnlyKey(cm, k') && Less(k, k')
    ensures IsPlan([k, k'], ContactLocks.Wanted(s, Erase({l, m}, NOBODY)))
  {
    assert k in KeysOf(cl) && k' in KeysOf(cm);
    assert [k, k'][0] == k && [k, k'][1] == k';
  }

  /** An erasure begins and takes its first lock. */
  lemma RunHolds(s: State, hash: string -> int, steps: seq<Step>, t: State, p: Pid, task: Task, plan: seq<string>)
    requires Run(s, hash, steps) == t && p in t.procs && t.procs[p] == Proc(task, Waiting)
    requires IsPlan(plan, ContactLocks.Wanted(t, task)) && plan != [] && hash(plan[0]) !in t.locks
    ensures Run(s, hash, steps + [Begin(p, plan), TakeLock(p)])
         == Moved(t, p, task, Locking(plan, 1), t.locks[hash(plan[0]) := p])
  {
    RunBegins(s, hash, steps, t, p, task, plan);
    RunLocks(s, hash, steps + [Begin(p, plan)], Moved(t, p, task, Locking(plan, 0), t.locks), p, task, plan, 0);
    assert steps + [Begin(p, plan), TakeLock(p)] == steps + [Begin(p, plan)] + [TakeLock(p)];
  }

  lemma RunOfErasures(s: State, hash: string -> int, steps: seq<Step>, s0: State, t: Trio, n: Names)
    requires Run(s, hash, steps) == s0 && InOrder(t) && Distinct(n) && ReadyToErase(s0, t, n) && hash(t.a) != hash(t.b)
    ensures Run(s, hash, steps + Erasures(t, n)) == AfterErasures(s0, hash, t, n)
  {
    hide Run, Next;
    TwoKeyPlan(s0, n.l0, t.ca, n.l1, t.cb, t.a, t.b);
    RunHolds(s, hash, steps, s0, n.q0, FirstErasure(n), [t.a, t.b]);
    var s1 := Moved(s0, n.q0, FirstErasure(n), Locking([t.a, t.b], 1), s0.locks[hash(t.a) := n.q0]);
    TwoKeyPlan(s1, n.l1, t.cb, n.l2, t.cc, t.b, t.c);
    var steps1 := steps + [Begin(n.q0, [t.a, t.b]), TakeLock(n.q0)];
    RunHolds(s, hash, steps1, s1, n.q1, SecondErasure(n), [t.b, t.c]);
    assert steps + Erasures(t, n) == steps1 + [Begin(n.q1, [t.b, t.c]), TakeLock(n.q1)];
  }

  lemma ErasuresBlock(s: State, hash: string -> int, t: Trio, n: Names)
    requires Distinct(n) && ReadyToErase(s, t, n) && hash(t.a) == hash(t.c) != hash(t.b)
    ensures Deadlocked(AfterErasures(s, hash, t, n), hash)
    ensures WaitCycle(AfterErasures(s, hash, t, n), hash, [n.q0, n.q1])
  {
    var s' := AfterErasures(s, hash, t, n);
    assert WaitsFor(s', hash, n.q0, n.q1) && WaitsFor(s', hash, n.q1, n.q0);
  }

  /** Three leads are captured; an erasure of the first two and one of the last two then block each other. */
  lemma BrokenHashDeadlocks(hash: string -> int, t: Trio, n: Names)
    requires InOrder(t) && Distinct(n) && hash(t.a) == hash(t.c) != hash(t.b)
    ensures Initial(Start(t, n))
    ensures
      var s := Run(Start(t, n), hash, Captures(t, n) + Erasures(t, n));
      Deadlocked(s, hash) && WaitCycle(s, hash, [n.q0, n.q1])
  {
    hide Run, Next;
    AfterCaptures(hash, t, n);
    CapturedIsReady(t, n);
    RunOfErasures(Start(t, n), hash, Captures(t, n), Captured(t, n), t, n);
    ErasuresBlock(Captured(t, n), hash, t, n);
  }

  lemma SomeNames() returns (n: Names)
    ensures Distinct(n)
  {
    n := Names("", "1", "22", "333", "4444", "", "1", "22");
    assert |n.p0| == 0 && |n.p1| == 1 && |n.p2| == 2 && |n.q0| == 3 && |n.q1| == 4;
    assert |n.l0| == 0 && |n.l1| == 1 && |n.l2| == 2;
  }

  lemma BrokenHash(hash: string -> int) returns (s: State, steps: seq<Step>, ps: seq<Pid>)
    requires !UnbrokenHash(hash)
    ensures Initial(s) && Deadlocked(Run(s, hash, steps), hash) && WaitCycle(Run(s, hash, steps), hash, ps)
  {
    var a, b, c :| AddressKey(a) && AddressKey(b) && AddressKey(c) && !Unbroken(hash, a, b, c);
    var ca :| OnlyKey(ca, a);
    var cb :| OnlyKey(cb, b);
    var cc :| OnlyKey(cc, c);
    var n := SomeNames();
    BrokenHashDeadlocks(hash, Trio(ca, a, cb, b, cc, c), n);
    var t := Trio(ca, a, cb, b, cc, c);
    s, steps, ps := Start(t, n), Captures(t, n) + Erasures(t, n), [n.q0, n.q1];
  }

  // ----- The exact condition -----

  /** This interleaving, if it starts from an empty table, does not end with everybody waiting. */
  predicate NoDeadlockIn(s: State, hash: string -> int, steps: seq<Step>) {
    Initial(s) ==> !Deadlocked(Run(s, hash, steps), hash)
  }

  /** Nor with these processes waiting for each other, whatever the others can do. */
  predicate NoCycleIn(s: State, hash: string -> int, steps: seq<Step>, ps: seq<Pid>) {
    Initial(s) ==> !WaitCycle(Run(s, hash, steps), hash, ps)
  }

  /**
   No captures and erasures ever deadlock on the contact-key locks, in any interleaving, if and only
   if no two addresses share a lock that an address between them does not. The same condition rules
   out every circle of transactions waiting for each other while the rest of the system runs on.
   */
  lemma NeverDeadlocksExactly(hash: string -> int)
    ensures (forall s, steps :: NoDeadlockIn(s, hash, steps)) <==> UnbrokenHash(hash)
    ensures (forall s, steps, ps :: NoCycleIn(s, hash, steps, ps)) <==> UnbrokenHash(hash)
  {
    if UnbrokenHash(hash) {
      forall s, steps ensures NoDeadlockIn(s, hash, steps) {
        if Initial(s) { UnbrokenHashNeverDeadlocks(s, hash, steps); }
      }
      forall s, steps, ps ensures NoCycleIn(s, hash, steps, ps) {
        if Initial(s) { UnbrokenHashNeverDeadlocks(s, hash, steps); }
      }
    } else {
      var s, steps, ps := BrokenHash(hash);
      assert !NoDeadlockIn(s, hash, steps) && !NoCycleIn(s, hash, steps, ps);
    }
  }
}
