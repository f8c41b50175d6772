/**
 Captures and erasures take advisory locks on the addresses they touch, read, and then write. Here
 every lock, read and write is a separate step and the transactions interleave freely.
 */
module ContactLocks {
  import opened Base
  import opened Contacts
  import opened Order

  type Id = string
  /** Names a transaction. */
  type Pid = string

  predicate StrictlySorted(keys: seq<string>) {
    forall i, j :: 0 <= i < j < |keys| ==> Less(keys[i], keys[j])
  }

  // ----- The key list -----

  function AllKeys(contacts: seq<Contact>): set<string> {
    if contacts == [] then {} else AllKeys(contacts[..|contacts| - 1]) + KeysOf(contacts[|contacts| - 1])
  }

  /** Inserts a key in order, once. */
  function InsertKey(keys: seq<string>, k: string): seq<string> {
    if keys == [] then [k]
    else if k == keys[0] then keys
    else if Less(k, keys[0]) then [k] + keys
    else [keys[0]] + InsertKey(keys[1..], k)
  }

  lemma {:induction false} InsertKeyFacts(keys: seq<string>, k: string)
    requires StrictlySorted(keys)
    ensures StrictlySorted(InsertKey(keys, k))
    ensures forall x :: x in InsertKey(keys, k) <==> x == k || x in keys
  {
    var r := InsertKey(keys, k);
    if keys == [] || k == keys[0] {
    } else if Less(k, keys[0]) {
      forall i, j | 0 <= i < j < |r| ensures Less(r[i], r[j]) {
        if i == 0 && j > 1 { LessTransitive(k, keys[0], r[j]); }
      }
    } else {
      LessTotal(k, keys[0]);
      InsertKeyFacts(keys[1..], k);
      forall i, j | 0 <= i < j < |r| ensures Less(r[i], r[j]) {
        if i == 0 { assert r[j] in InsertKey(keys[1..], k); }
      }
    }
  }

  /** The order in which a transaction takes the locks of its contacts: sorted, each key once. */
  method LockOrder(contacts: seq<Contact>) returns (keys: seq<string>)
    ensures IsPlan(keys, AllKeys(contacts))
  {
    keys := [];
    var i := 0;
    while i < |contacts|
      invariant 0 <= i <= |contacts|
      invariant IsPlan(keys, AllKeys(contacts[..i]))
    {
      assert contacts[..i + 1][..i] == contacts[..i];
      var c := contacts[i];
      if Given(c.email) {
        InsertKeyFacts(keys, EmailKey(c.email));
        keys := InsertKey(keys, EmailKey(c.email));
      }
      if Given(c.phone) {
        InsertKeyFacts(keys, PhoneKey(c.phone));
        keys := InsertKey(keys, PhoneKey(c.phone));
      }
      i := i + 1;
    }
    assert contacts[..i] == contacts;
  }

  predicate IsPlan(keys: seq<string>, wanted: set<string>) {
    StrictlySorted(keys) && (forall k :: k in keys ==> k in wanted) && (forall k :: k in wanted ==> k in keys)
  }

  // ----- The step system -----

  datatype Task = Capture(input: Contact) | Erase(leads: set<Id>, extra: Contact)

  datatype Phase =
    | Waiting
    /** Holds the locks of `plan[..held]`. */
    | Locking(plan: seq<string>, held: nat)
    /**
     A capture that holds every lock and has read the lead it merges into, if any, and perhaps already
     asked whether the submission has an address on the suppression list.
     */
    | HasRead(plan: seq<string>, found: Option<Id>, snapshot: Contact, listed: Option<bool>)
    /** An erasure that holds every lock and has read its leads again. */
    | Reread(plan: seq<string>, rows: map<Id, Contact>)
    | Finished

  datatype Proc = Proc(task: Task, phase: Phase)

  /** `origin` is the contact at creation; no step changes it. */
  datatype Lead = Lead(origin: Contact, contact: Contact, optedOut: bool)

  /**
   `used` remembers every lead id ever issued: ids are never reused. `suppressed` is the suppression
   list, with the keys of addresses in place of their hashes.
   */
  datatype State = State(leads: map<Id, Lead>, used: set<Id>, suppressed: set<string>, locks: map<int, Pid>,
    procs: map<Pid, Proc>)

  datatype Step =
    | Begin(p: Pid, plan: seq<string>)
    | TakeLock(p: Pid)
    | Read(p: Pid, found: Option<Id>)
    | CheckList(p: Pid)
    | ReadAgain(p: Pid)
    | Write(p: Pid, freshId: Id)
    /** The transaction fails or its client dies: nothing is written, the locks go. */
    | Abort(p: Pid)

  /** The keys a transaction sets out to lock; an erasure looks its leads up first. */
  function Wanted(s: State, t: Task): set<string> {
    match t
    case Capture(input) => KeysOf(input)
    case Erase(ids, extra) =>
      KeysOf(extra) + set l, k | l in ids && l in s.leads && k in KeysOf(s.leads[l].contact) :: k
  }

  predicate OnList(s: State, input: Contact) {
    exists k :: k in KeysOf(input) && k in s.suppressed
  }

  /** What an erasure request puts on the list: the addresses its second read found, and the subject's. */
  function Listed(pr: Proc): set<string> {
    if pr.task.Erase? && pr.phase.Reread?
    then KeysOf(pr.task.extra) + set l, k | l in pr.phase.rows && k in KeysOf(pr.phase.rows[l]) :: k
    else {}
  }

  function PlanOf(ph: Phase): seq<string> {
    match ph
    case Locking(plan, _) => plan
    case HasRead(plan, _, _, _) => plan
    case Reread(plan, _) => plan
    case _ => []
  }

  function HeldCount(ph: Phase): nat {
    match ph
    case Locking(_, held) => held
    case HasRead(plan, _, _, _) => |plan|
    case Reread(plan, _) => |plan|
    case _ => 0
  }

  /** `hash` maps a key to its advisory lock. A session may take a lock it already has. */
  predicate Enabled(s: State, hash: string -> int, a: Step) {
    && a.p in s.procs
    && var pr := s.procs[a.p];
       match a
       case Begin(_, plan) => pr.phase.Waiting? && IsPlan(plan, Wanted(s, pr.task))
       case TakeLock(_) =>
         && pr.phase.Locking? && pr.phase.held < |pr.phase.plan|
         && var lock := hash(pr.phase.plan[pr.phase.held]);
            lock in s.locks ==> s.locks[lock] == a.p
       // The oldest match in the source; here any match.
       case Read(_, m) =>
         && pr.task.Capture? && pr.phase.Locking? && pr.phase.held == |pr.phase.plan|
         && (if m.Some? then m.value in s.leads && Shares(s.leads[m.value].contact, pr.task.input)
             else forall l :: l in s.leads ==> !Shares(s.leads[l].contact, pr.task.input))
       case CheckList(_) => pr.task.Capture? && pr.phase.HasRead? && pr.phase.listed.None?
       case ReadAgain(_) => pr.task.Erase? && pr.phase.Locking? && pr.phase.held == |pr.phase.plan|
       case Write(_, id) =>
         if pr.task.Capture? then pr.phase.HasRead? && pr.phase.listed.Some? && id !in s.used else pr.phase.Reread?
       case Abort(_) => !pr.phase.Finished?
  }

  function Release(locks: map<int, Pid>, p: Pid): map<int, Pid> {
    map h | h in locks && locks[h] != p :: locks[h]
  }

  function WriteLeads(leads: map<Id, Lead>, pr: Proc, freshId: Id): map<Id, Lead> {
    match pr.task
    case Erase(_, _) => if pr.phase.Reread? then leads - pr.phase.rows.Keys else leads
    case Capture(input) =>
      if !pr.phase.HasRead? then leads
      else if pr.phase.found.None? then leads[freshId := Lead(input, input, pr.phase.listed.GetOr(false))]
      // The row that was read may be gone by now: the update fails and nothing is written.
      else if pr.phase.found.value !in leads then leads
      else
        var l := pr.phase.found.value;
        leads[l := leads[l].(contact := Merge(pr.phase.snapshot, input),
                             optedOut := leads[l].optedOut || pr.phase.listed.GetOr(false))]
  }

  function Next(s: State, hash: string -> int, a: Step): State {
    if !Enabled(s, hash, a) then s
    else
      var pr := s.procs[a.p];
      match a
      case Begin(p, plan) => s.(procs := s.procs[p := pr.(phase := Locking(plan, 0))])
      case TakeLock(p) =>
        s.(locks := s.locks[hash(pr.phase.plan[pr.phase.held]) := p],
           procs := s.procs[p := pr.(phase := Locking(pr.phase.plan, pr.phase.held + 1))])
      case Read(p, m) =>
        var snapshot := if m.Some? then s.leads[m.value].contact else Contact(None, None);
        s.(procs := s.procs[p := pr.(phase := HasRead(pr.phase.plan, m, snapshot, None))])
      case CheckList(p) =>
        s.(procs := s.procs[p := pr.(phase := pr.phase.(listed := Some(OnList(s, pr.task.input))))])
      case ReadAgain(p) =>
        var rows := map l | l in s.leads && l in pr.task.leads :: s.leads[l].contact;
        s.(procs := s.procs[p := pr.(phase := Reread(pr.phase.plan, rows))])
      case Write(p, id) =>
        State(WriteLeads(s.leads, pr, id), s.used + {id}, s.suppressed + Listed(pr), Release(s.locks, p),
              s.procs[p := pr.(phase := Finished)])
      case Abort(p) =>
        s.(locks := Release(s.locks, p), procs := s.procs[p := pr.(phase := Finished)])
  }

  function Run(s: State, hash: string -> int, steps: seq<Step>): State {
    if steps == [] then s else Next(Run(s, hash, steps[..|steps| - 1]), hash, steps[|steps| - 1])
  }

  /** Any set of transactions, none started, over an empty table. */
  predicate Initial(s: State) {
    && s.leads == map[] && s.used == {} && s.suppressed == {} && s.locks == map[]
    && forall p :: p in s.procs ==> s.procs[p].phase.Waiting?
  }

  // ----- Locks are held exactly as the phases say -----

  predicate Holds(s: State, hash: string -> int, p: Pid, key: string) {
    hash(key) in s.locks && s.locks[hash(key)] == p
  }

  predicate HoldsTaken(s: State, hash: string -> int, p: Pid, ph: Phase) {
    forall j :: 0 <= j < HeldCount(ph) && j < |PlanOf(ph)| ==> Holds(s, hash, p, PlanOf(ph)[j])
  }

  predicate LocksHeld(s: State, hash: string -> int) {
    forall p :: p in s.procs ==> HoldsTaken(s, hash, p, s.procs[p].phase)
  }

  /** One of the keys taken so far has this lock. */
  predicate LockTaken(hash: string -> int, h: int, ph: Phase) {
    exists j :: 0 <= j < HeldCount(ph) <= |PlanOf(ph)| && hash(PlanOf(ph)[j]) == h
  }

  predicate LocksJustified(s: State, hash: string -> int) {
    forall h :: h in s.locks ==> s.locks[h] in s.procs && LockTaken(hash, h, s.procs[s.locks[h]].phase)
  }

  predicate PhaseOk(pr: Proc) {
    && StrictlySorted(PlanOf(pr.phase))
    && HeldCount(pr.phase) <= |PlanOf(pr.phase)|
    && (pr.task.Capture? && !pr.phase.Waiting? && !pr.phase.Finished? ==>
          forall k :: k in KeysOf(pr.task.input) ==> k in PlanOf(pr.phase))
    && (pr.phase.HasRead? ==> pr.task.Capture?)
    && (pr.phase.Reread? ==> pr.task.Erase?)
  }

  predicate LockInv(s: State, hash: string -> int) {
    && LocksHeld(s, hash) && LocksJustified(s, hash)
    && forall p :: p in s.procs ==> PhaseOk(s.procs[p])
  }

  lemma StepKeepsLocksHeld(s: State, hash: string -> int, a: Step)
    requires LockInv(s, hash) && Enabled(s, hash, a)
    ensures LocksHeld(Next(s, hash, a), hash)
  {
    var s' := Next(s, hash, a);
    forall p | p in s'.procs ensures HoldsTaken(s', hash, p, s'.procs[p].phase) {
      assert HoldsTaken(s, hash, p, s.procs[p].phase) && PhaseOk(s.procs[p]);
      var ph, ph' := s.procs[p].phase, s'.procs[p].phase;
      forall j | 0 <= j < HeldCount(ph') && j < |PlanOf(ph')| ensures Holds(s', hash, p, PlanOf(ph')[j]) {
        if j < HeldCount(ph) { assert Holds(s, hash, p, PlanOf(ph)[j]); }
      }
    }
  }

  lemma StepKeepsLocksJustified(s: State, hash: string -> int, a: Step)
    requires LockInv(s, hash) && Enabled(s, hash, a)
    ensures LocksJustified(Next(s, hash, a), hash)
  {
    var s' := Next(s, hash, a);
    forall h | h in s'.locks ensures s'.locks[h] in s'.procs && LockTaken(hash, h, s'.procs[s'.locks[h]].phase) {
      var p := s'.locks[h];
      if a.TakeLock? && h == hash(s.procs[a.p].phase.plan[s.procs[a.p].phase.held]) {
        assert hash(PlanOf(s'.procs[p].phase)[s.procs[p].phase.held]) == h;
      } else {
        assert h in s.locks && s.locks[h] == p;
        assert LockTaken(hash, h, s.procs[p].phase);
        var j :| 0 <= j < HeldCount(s.procs[p].phase) <= |PlanOf(s.procs[p].phase)| &&
            hash(PlanOf(s.procs[p].phase)[j]) == h;
        assert 0 <= j < HeldCount(s'.procs[p].phase) <= |PlanOf(s'.procs[p].phase)|;
        assert hash(PlanOf(s'.procs[p].phase)[j]) == h;
      }
    }
  }

  lemma StepKeepsLockInv(s: State, hash: string -> int, a: Step)
    requires LockInv(s, hash)
    ensures LockInv(Next(s, hash, a), hash)
  {
    if Enabled(s, hash, a) {
      StepKeepsLocksHeld(s, hash, a);
      StepKeepsLocksJustified(s, hash, a);
      StepKeepsPhases(s, hash, a);
    }
  }

  lemma StepKeepsPhases(s: State, hash: string -> int, a: Step)
    requires LockInv(s, hash) && Enabled(s, hash, a)
    ensures forall p :: p in Next(s, hash, a).procs ==> PhaseOk(Next(s, hash, a).procs[p])
  {
    hide LocksHeld, LocksJustified, Release, WriteLeads, Listed, OnList;
  }

  // ----- No deadlock -----

  /** Some transaction under way has this key in its plan. */
  predicate InPlay(s: State, key: string) {
    exists p :: p in s.procs && key in PlanOf(s.procs[p].phase)
  }

  /** Keys that share a lock are not separated, in lock order, by a key with another lock. */
  predicate Unbroken(hash: string -> int, a: string, b: string, c: string) {
    Less(a, b) && Less(b, c) && hash(a) == hash(c) ==> hash(b) == hash(a)
  }

  /** The lock hash keeps the keys in play together; it may well map neighbouring keys to one lock. */
  ghost predicate UnbrokenInPlay(s: State, hash: string -> int) {
    forall a, b, c :: InPlay(s, a) && InPlay(s, b) && InPlay(s, c) ==> Unbroken(hash, a, b, c)
  }

  /** The process waits for a lock another process holds. */
  predicate Blocked(s: State, hash: string -> int, p: Pid) {
    && p in s.procs
    && var ph := s.procs[p].phase;
       && ph.Locking? && ph.held < |ph.plan|
       && hash(ph.plan[ph.held]) in s.locks && s.locks[hash(ph.plan[ph.held])] != p
  }

  predicate CanProgress(s: State, hash: string -> int, p: Pid) {
    p in s.procs && !s.procs[p].phase.Finished? && !Blocked(s, hash, p)
  }

  /** A process that is neither finished nor blocked has a step of its own to take. */
  lemma ProgressMeansEnabled(s: State, hash: string -> int, p: Pid, freshId: Id) returns (a: Step)
    requires LockInv(s, hash) && CanProgress(s, hash, p) && freshId !in s.used
    ensures a.p == p && !a.Abort? && Enabled(s, hash, a)
  {
    var pr := s.procs[p];
    match pr.phase
    case Waiting =>
      var plan := PlanFor(Wanted(s, pr.task));
      a := Begin(p, plan);
    case Locking(plan, held) =>
      if held < |plan| {
        a := TakeLock(p);
      } else if pr.task.Erase? {
        a := ReadAgain(p);
      } else if l :| l in s.leads && Shares(s.leads[l].contact, pr.task.input) {
        a := Read(p, Some(l));
      } else {
        a := Read(p, None);
      }
    case HasRead(_, _, _, listed) =>
      a := if listed.None? then CheckList(p) else Write(p, freshId);
    case Reread(_, _) =>
      a := Write(p, freshId);
  }

  /** Every finite set of keys has a lock order. */
  lemma PlanFor(keys: set<string>) returns (plan: seq<string>)
    ensures IsPlan(plan, keys)
  {
    if keys == {} {
      plan := [];
    } else {
      var k :| k in keys;
      var rest := PlanFor(keys - {k});
      InsertKeyFacts(rest, k);
      plan := InsertKey(rest, k);
    }
  }

  function Awaited(s: State, p: Pid): string {
    if p in s.procs && s.procs[p].phase.Locking? && s.procs[p].phase.held < |s.procs[p].phase.plan|
    then s.procs[p].phase.plan[s.procs[p].phase.held] else ""
  }

  lemma {:induction false} GreatestAwaited(s: State, ps: set<Pid>) returns (p: Pid)
    requires |ps| > 0
    ensures p in ps && forall q :: q in ps ==> !Less(Awaited(s, p), Awaited(s, q))
  {
    var first :| first in ps;
    p := first;
    LessTotal(Awaited(s, p), Awaited(s, p));
    if ps != {p} {
      assert ps == (ps - {p}) + {p};
      var q := GreatestAwaited(s, ps - {p});
      if Less(Awaited(s, p), Awaited(s, q)) {
        LessTotal(Awaited(s, p), Awaited(s, q));
        p := q;
      } else {
        forall r | r in ps ensures !Less(Awaited(s, p), Awaited(s, r)) {
          if r != p && Less(Awaited(s, p), Awaited(s, r)) {
            LessTotal(Awaited(s, q), Awaited(s, r));
            LessTotal(Awaited(s, p), Awaited(s, q));
            if Awaited(s, q) != Awaited(s, p) { LessTransitive(Awaited(s, q), Awaited(s, p), Awaited(s, r)); }
          }
        }
      }
    }
  }

  /** Whoever holds the lock a blocked process waits for is past that key in its own order. */
  lemma HolderIsAhead(s: State, hash: string -> int, p: Pid)
    requires LockInv(s, hash) && UnbrokenInPlay(s, hash) && Blocked(s, hash, p)
    ensures
      var q := s.locks[hash(Awaited(s, p))];
      q in s.procs && !s.procs[q].phase.Finished? && (Blocked(s, hash, q) ==> Less(Awaited(s, p), Awaited(s, q)))
  {
    var h := hash(Awaited(s, p));
    var q := s.locks[h];
    var ph := s.procs[q].phase;
    assert LockTaken(hash, h, ph);
    var j :| 0 <= j < HeldCount(ph) <= |PlanOf(ph)| && hash(PlanOf(ph)[j]) == h;
    assert PlanOf(s.procs[p].phase)[s.procs[p].phase.held] == Awaited(s, p);
    assert PhaseOk(s.procs[q]);
    if Blocked(s, hash, q) {
      var taken, next := PlanOf(ph)[j], Awaited(s, q);
      assert next == PlanOf(ph)[ph.held] && Less(taken, next);
      assert InPlay(s, taken) && InPlay(s, next) && InPlay(s, Awaited(s, p));
      assert Unbroken(hash, taken, next, Awaited(s, p));
      LessTotal(Awaited(s, p), next);
    }
  }

  /** While some transaction is unfinished, some transaction can take a step. */
  lemma NoDeadlock(s: State, hash: string -> int)
    requires LockInv(s, hash) && UnbrokenInPlay(s, hash)
    requires exists p :: p in s.procs && !s.procs[p].phase.Finished?
    ensures exists p :: CanProgress(s, hash, p)
  {
    var stuck := set p | p in s.procs && !s.procs[p].phase.Finished?;
    var p0 :| p0 in s.procs && !s.procs[p0].phase.Finished?;
    assert p0 in stuck;
    var p := GreatestAwaited(s, stuck);
    if Blocked(s, hash, p) {
      HolderIsAhead(s, hash, p);
      var q := s.locks[hash(Awaited(s, p))];
      assert q in stuck;
      assert CanProgress(s, hash, q);
    } else {
      assert CanProgress(s, hash, p);
    }
  }

  /** `p` waits for a lock of `q`. */
  predicate WaitsFor(s: State, hash: string -> int, p: Pid, q: Pid) {
    Blocked(s, hash, p) && s.locks[hash(Awaited(s, p))] == q
  }

  predicate WaitsForNext(s: State, hash: string -> int, ps: seq<Pid>, i: nat)
    requires i < |ps|
  {
    WaitsFor(s, hash, ps[i], if i + 1 < |ps| then ps[i + 1] else ps[0])
  }

  /** Each process waits for the one after it, and the last for the first. */
  predicate WaitCycle(s: State, hash: string -> int, ps: seq<Pid>) {
    ps != [] && forall i :: 0 <= i < |ps| ==> WaitsForNext(s, hash, ps, i)
  }

  /** Along a cycle every process waits for a later key than the first one does. */
  lemma {:induction false} CycleClimbs(s: State, hash: string -> int, ps: seq<Pid>, i: nat)
    requires LockInv(s, hash) && UnbrokenInPlay(s, hash) && WaitCycle(s, hash, ps) && 0 < i < |ps|
    ensures Less(Awaited(s, ps[0]), Awaited(s, ps[i]))
  {
    assert WaitsForNext(s, hash, ps, i - 1) && WaitsForNext(s, hash, ps, i);
    HolderIsAhead(s, hash, ps[i - 1]);
    if i == 1 {
    } else {
      CycleClimbs(s, hash, ps, i - 1);
      LessTransitive(Awaited(s, ps[0]), Awaited(s, ps[i - 1]), Awaited(s, ps[i]));
    }
  }

  lemma NoWaitCycle(s: State, hash: string -> int, ps: seq<Pid>)
    requires LockInv(s, hash) && UnbrokenInPlay(s, hash)
    ensures !WaitCycle(s, hash, ps)
  {
    if WaitCycle(s, hash, ps) {
      var last := |ps| - 1;
      assert WaitsForNext(s, hash, ps, last) && WaitsForNext(s, hash, ps, 0);
      if last > 0 {
        CycleClimbs(s, hash, ps, last);
        HolderIsAhead(s, hash, ps[last]);
        LessTotal(Awaited(s, ps[0]), Awaited(s, ps[last]));
      }
    }
  }

  // ----- Addresses -----

  /** What a capture read is still true when it writes, whatever the others did meanwhile. */
  predicate ReadStillTrue(s: State, pr: Proc) {
    pr.phase.HasRead? && pr.task.Capture? ==>
      match pr.phase.found
      case None => forall l :: l in s.leads ==> !Shares(s.leads[l].contact, pr.task.input)
      case Some(l) =>
        && Shares(pr.phase.snapshot, pr.task.input)
        && (l in s.leads ==> s.leads[l].contact == pr.phase.snapshot)
  }

  predicate KeepsOrigin(l: Lead) {
    && (l.origin.email.Some? ==> l.contact.email == l.origin.email)
    && (l.origin.phone.Some? ==> l.contact.phone == l.origin.phone)
  }

  /** No two leads were created with the same email, and no two with the same phone. */
  predicate OriginsUnique(leads: map<Id, Lead>) {
    forall l, m :: l in leads && m in leads && l != m ==>
      !SameGiven(leads[l].origin.email, leads[m].origin.email) &&
          !SameGiven(leads[l].origin.phone, leads[m].origin.phone)
  }

  predicate Inv(s: State, hash: string -> int) {
    && LockInv(s, hash)
    && (forall p :: p in s.procs ==> ReadStillTrue(s, s.procs[p]))
    && (forall l :: l in s.leads ==> KeepsOrigin(s.leads[l]))
    && OriginsUnique(s.leads)
    && s.leads.Keys <= s.used
    && (forall p :: p in s.procs && s.procs[p].phase.HasRead? && s.procs[p].phase.found.Some? ==>
          s.procs[p].phase.found.value in s.used)
  }

  /** Two captures that have both read share no address. */
  lemma ReadersShareNoKey(s: State, hash: string -> int, p: Pid, q: Pid)
    requires LockInv(s, hash) && p in s.procs && q in s.procs && p != q
    requires s.procs[p].phase.HasRead? && s.procs[q].phase.HasRead?
    ensures s.procs[p].task.Capture? && s.procs[q].task.Capture?
    ensures !SameGiven(s.procs[p].task.input.email, s.procs[q].task.input.email)
    ensures !SameGiven(s.procs[p].task.input.phone, s.procs[q].task.input.phone)
  {
    var a, b := s.procs[p].task.input, s.procs[q].task.input;
    if SameGiven(a.email, b.email) {
      HoldsItsKeys(s, hash, p, EmailKey(a.email));
      HoldsItsKeys(s, hash, q, EmailKey(b.email));
    }
    if SameGiven(a.phone, b.phone) {
      HoldsItsKeys(s, hash, p, PhoneKey(a.phone));
      HoldsItsKeys(s, hash, q, PhoneKey(b.phone));
    }
  }

  lemma HoldsItsKeys(s: State, hash: string -> int, p: Pid, key: string)
    requires LockInv(s, hash) && p in s.procs && s.procs[p].phase.HasRead?
    requires s.procs[p].task.Capture? && key in KeysOf(s.procs[p].task.input)
    ensures Holds(s, hash, p, key)
  {
    var plan := PlanOf(s.procs[p].phase);
    assert PhaseOk(s.procs[p]);
    var j :| 0 <= j < |plan| && plan[j] == key;
    assert HoldsTaken(s, hash, p, s.procs[p].phase);
    assert j < HeldCount(s.procs[p].phase);
  }

  /** A write of one capture leaves every other capture's read true. */
  lemma WriteKeepsReads(s: State, hash: string -> int, a: Step, q: Pid)
    requires Inv(s, hash) && a.Write? && Enabled(s, hash, a) && q in s.procs && q != a.p
    ensures ReadStillTrue(Next(s, hash, a), s.procs[q])
  {
    var pr, other := s.procs[a.p], s.procs[q];
    assert ReadStillTrue(s, pr) && ReadStillTrue(s, other);
    if pr.task.Capture? && other.phase.HasRead? && other.task.Capture? {
      ReadersShareNoKey(s, hash, a.p, q);
      if pr.phase.found.Some? && pr.phase.found == other.phase.found && pr.phase.found.value in s.leads {
        DisjointMatches(pr.phase.snapshot, pr.task.input, other.task.input);
      }
    }
  }

  /** A lead that two submissions match by different addresses has both, so a merge changes neither. */
  lemma DisjointMatches(lead: Contact, a: Contact, b: Contact)
    requires Shares(lead, a) && Shares(lead, b)
    requires !SameGiven(a.email, b.email) && !SameGiven(a.phone, b.phone)
    ensures Merge(lead, a) == lead
  {
  }

  lemma WriteKeepsOrigins(s: State, hash: string -> int, a: Step)
    requires Inv(s, hash) && a.Write? && Enabled(s, hash, a)
    ensures
      var leads := Next(s, hash, a).leads;
      (forall l :: l in leads ==> KeepsOrigin(leads[l])) && OriginsUnique(leads)
  {
    var pr := s.procs[a.p];
    var leads := Next(s, hash, a).leads;
    assert ReadStillTrue(s, pr);
    if pr.task.Capture? && pr.phase.found.None? {
      forall l | l in s.leads
        ensures !SameGiven(pr.task.input.email, s.leads[l].origin.email)
        ensures !SameGiven(pr.task.input.phone, s.leads[l].origin.phone)
      {
        assert KeepsOrigin(s.leads[l]);
        assert !Shares(s.leads[l].contact, pr.task.input);
      }
    }
  }

  lemma StepKeepsInv(s: State, hash: string -> int, a: Step)
    requires Inv(s, hash)
    ensures Inv(Next(s, hash, a), hash)
  {
    StepKeepsLockInv(s, hash, a);
    if Enabled(s, hash, a) {
      var s' := Next(s, hash, a);
      forall q | q in s'.procs ensures ReadStillTrue(s', s'.procs[q]) {
        assert ReadStillTrue(s, s.procs[q]);
        if a.Write? && q != a.p { WriteKeepsReads(s, hash, a, q); }
      }
      if a.Write? { WriteKeepsOrigins(s, hash, a); }
    }
  }

  lemma {:induction false} RunKeepsInv(s: State, hash: string -> int, steps: seq<Step>)
    requires Initial(s)
    ensures Inv(Run(s, hash, steps), hash)
  {
    if steps == [] {
      assert forall p :: p in s.procs ==> HeldCount(s.procs[p].phase) == 0 && PhaseOk(s.procs[p]);
    } else {
      RunKeepsInv(s, hash, steps[..|steps| - 1]);
      StepKeepsInv(Run(s, hash, steps[..|steps| - 1]), hash, steps[|steps| - 1]);
    }
  }

  // ----- Main results -----

  /** In every interleaving an address is the creation-time address of at most one existing lead. */
  lemma OneLeadPerNewAddress(s: State, hash: string -> int, steps: seq<Step>)
    requires Initial(s)
    ensures OriginsUnique(Run(s, hash, steps).leads)
  {
    RunKeepsInv(s, hash, steps);
  }

  /** In every interleaving no step changes an address that is set. */
  lemma AddressesAreNeverOverwritten(s: State, hash: string -> int, steps: seq<Step>, a: Step, l: Id)
    requires Initial(s)
    ensures
      var before, after := Run(s, hash, steps).leads, Next(Run(s, hash, steps), hash, a).leads;
      l in before && l in after ==>
        && after[l].origin == before[l].origin
        && (before[l].contact.email.Some? ==> after[l].contact.email == before[l].contact.email)
        && (before[l].contact.phone.Some? ==> after[l].contact.phone == before[l].contact.phone)
  {
    RunKeepsInv(s, hash, steps);
    var before := Run(s, hash, steps);
    if Enabled(before, hash, a) { assert ReadStillTrue(before, before.procs[a.p]); }
  }

  predicate Deadlocked(s: State, hash: string -> int) {
    (exists p :: p in s.procs && !s.procs[p].phase.Finished?) && forall p :: p in s.procs ==> !CanProgress(s, hash, p)
  }

  /**
   In every interleaving, while a transaction is unfinished some transaction can take a step, and no
   transactions at all wait for each other in a circle, unless two keys in play share a lock and a
   third key in play between them has another.
   */
  lemma TransactionsNeverDeadlock(s: State, hash: string -> int, steps: seq<Step>)
    requires Initial(s)
    ensures
      var t := Run(s, hash, steps);
      UnbrokenInPlay(t, hash) ==> !Deadlocked(t, hash) && forall ps :: !WaitCycle(t, hash, ps)
  {
    RunKeepsInv(s, hash, steps);
    var t := Run(s, hash, steps);
    if UnbrokenInPlay(t, hash) && exists p :: p in t.procs && !t.procs[p].phase.Finished? {
      NoDeadlock(t, hash);
    }
    if UnbrokenInPlay(t, hash) {
      forall ps ensures !WaitCycle(t, hash, ps) {
        NoWaitCycle(t, hash, ps);
      }
    }
  }
}
