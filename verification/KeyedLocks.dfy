/** One mutex per key whose entry disappears once unused (internal/recorder/locks.go). Locking and unlocking are two
    atomic parts each: register under the table's mutex, then take the record's; release the record's, then deregister.
    The parts of any number of threads interleave freely. */
module KeyedLocks {
  type Key = string
  type Thread = nat
  type Id = nat

  /** A keyedLock: how many threads are registered with it, and whether its mutex is held. */
  datatype Record = Record(refs: nat, held: bool)

  /** Where a thread is: between registering and taking the mutex, holding it, or between releasing it and
      deregistering. */
  datatype Pc = Waiting(key: Key, id: Id) | Holding(key: Key, id: Id) | Leaving(key: Key, id: Id)

  /** `records` are the keyedLock values ever made; an idle thread has no entry in `threads`. */
  datatype State = State(locks: map<Key, Id>, records: map<Id, Record>, threads: map<Thread, Pc>)

  function Init(): (s: State) {
    State(map[], map[], map[])
  }

  datatype Step = Register(t: Thread, key: Key, spare: Id) | Acquire(t: Thread) | Release(t: Thread)
    | Deregister(t: Thread)

  predicate Enabled(s: State, step: Step) {
    match step
    case Register(t, key, spare) => t !in s.threads && spare !in s.records
    case Acquire(t) =>
      t in s.threads && s.threads[t].Waiting? && s.threads[t].id in s.records && !s.records[s.threads[t].id].held
    case Release(t) => t in s.threads && s.threads[t].Holding? && s.threads[t].id in s.records
    case Deregister(t) =>
      t in s.threads && s.threads[t].Leaving? && s.threads[t].id in s.records && s.records[s.threads[t].id].refs > 0
  }

  /** lock, under the table's mutex. */
  function Registered(s: State, t: Thread, key: Key, spare: Id): (s': State)
  {
    var id := if key in s.locks then s.locks[key] else spare;
    var r := if id in s.records then s.records[id] else Record(0, false);
    State(s.locks[key := id], s.records[id := r.(refs := r.refs + 1)], s.threads[t := Waiting(key, id)])
  }

  function WithHeld(s: State, pc: Pc, held: bool): (records: map<Id, Record>)
    requires pc.id in s.records
  {
    s.records[pc.id := s.records[pc.id].(held := held)]
  }

  /** The end of unlock, under the table's mutex. */
  function Deregistered(s: State, t: Thread): (s': State)
    requires Enabled(s, Deregister(t))
  {
    var pc := s.threads[t];
    var r := s.records[pc.id].(refs := s.records[pc.id].refs - 1);
    State(if r.refs == 0 then s.locks - {pc.key} else s.locks, s.records[pc.id := r], s.threads - {t})
  }

  function Do(s: State, step: Step): (s': State)
    requires Enabled(s, step)
  {
    match step
    case Register(t, key, spare) => Registered(s, t, key, spare)
    case Acquire(t) =>
      var pc := s.threads[t];
      s.(records := WithHeld(s, pc, true), threads := s.threads[t := Holding(pc.key, pc.id)])
    case Release(t) =>
      var pc := s.threads[t];
      s.(records := WithHeld(s, pc, false), threads := s.threads[t := Leaving(pc.key, pc.id)])
    case Deregister(t) => Deregistered(s, t)
  }

  /** A step that is not enabled does not happen. */
  function After(steps: seq<Step>): (s: State)
  {
    if steps == [] then Init()
    else
      var s, step := After(steps[..|steps| - 1]), steps[|steps| - 1];
      if Enabled(s, step) then Do(s, step) else s
  }

  // ---------------------------------------------------------------------------------------------------------------
  // The table as the program keeps it
  // ---------------------------------------------------------------------------------------------------------------

  /** The four parts on mutable fields; `threads` is what the goroutines' stacks know. */
  class Table {
    var locks: map<Key, Id>
    var records: map<Id, Record>
    var threads: map<Thread, Pc>

    function Value(): (s: State)
      reads this
    {
      State(locks, records, threads)
    }

    constructor ()
      ensures Value() == Init()
    {
      locks, records, threads := map[], map[], map[];
    }

    method Register(t: Thread, key: Key, spare: Id)
      requires Enabled(Value(), Step.Register(t, key, spare)) && Used(Value())
      modifies this
      ensures Value() == Do(old(Value()), Step.Register(t, key, spare))
    {
      var l := spare;
      if key in locks {
        l := locks[key];
      } else {
        records := records[l := Record(0, false)];
        locks := locks[key := l];
      }
      records := records[l := records[l].(refs := records[l].refs + 1)];
      assert locks == old(locks)[key := l];
      threads := threads[t := Waiting(key, l)];
    }

    /** Blocks until the record's mutex is free: called only then. */
    method Acquire(t: Thread)
      requires Enabled(Value(), Step.Acquire(t))
      modifies this
      ensures Value() == Do(old(Value()), Step.Acquire(t))
    {
      var pc := threads[t];
      records := records[pc.id := records[pc.id].(held := true)];
      threads := threads[t := Holding(pc.key, pc.id)];
    }

    method Release(t: Thread)
      requires Enabled(Value(), Step.Release(t))
      modifies this
      ensures Value() == Do(old(Value()), Step.Release(t))
    {
      var pc := threads[t];
      records := records[pc.id := records[pc.id].(held := false)];
      threads := threads[t := Leaving(pc.key, pc.id)];
    }

    method Deregister(t: Thread)
      requires Enabled(Value(), Step.Deregister(t))
      modifies this
      ensures Value() == Do(old(Value()), Step.Deregister(t))
    {
      var pc := threads[t];
      records := records[pc.id := records[pc.id].(refs := records[pc.id].refs - 1)];
      if records[pc.id].refs == 0 {
        locks := locks - {pc.key};
      }
      threads := threads - {t};
    }
  }

  // ---------------------------------------------------------------------------------------------------------------
  // The invariant
  // ---------------------------------------------------------------------------------------------------------------

  /** The threads registered with a record. */
  function Users(s: State, id: Id): (r: set<Thread>)
  {
    set t | t in s.threads && s.threads[t].id == id
  }

  /** Every registered thread uses the record its key has in the table. */
  predicate Shared(s: State) {
    forall t :: t in s.threads ==> s.threads[t].key in s.locks && s.locks[s.threads[t].key] == s.threads[t].id
  }

  /** A record in the table belongs to one key and has registered threads. */
  predicate Used(s: State) {
    && (forall k :: k in s.locks ==> s.locks[k] in s.records && s.records[s.locks[k]].refs > 0)
    && (forall k, l :: k in s.locks && l in s.locks && k != l ==> s.locks[k] != s.locks[l])
  }

  /** A record counts exactly the threads that are registered with it. */
  predicate Counted(s: State) {
    forall id :: id in s.records ==> s.records[id].refs == |Users(s, id)|
  }

  /** The mutex is held exactly while one thread holds it. */
  ghost predicate Exclusive(s: State) {
    && (forall t, id :: Holds(s, t, id) ==> id in s.records && s.records[id].held)
    && (forall t, u, id :: Holds(s, t, id) && Holds(s, u, id) ==> t == u)
    && (forall id :: id in s.records && s.records[id].held ==> exists t :: Holds(s, t, id))
  }

  predicate Holds(s: State, t: Thread, id: Id) {
    t in s.threads && s.threads[t].Holding? && s.threads[t].id == id
  }

  ghost predicate Inv(s: State) {
    Shared(s) && Used(s) && Counted(s) && Exclusive(s)
  }

  lemma RegisteredUsers(s: State, t: Thread, key: Key, spare: Id, i: Id)
    requires t !in s.threads
    ensures var s' := Registered(s, t, key, spare);
            Users(s', i) == if i == s'.threads[t].id then Users(s, i) + {t} else Users(s, i)
    ensures t !in Users(s, i)
  {
  }

  lemma RegisterCounts(s: State, t: Thread, key: Key, spare: Id)
    requires Shared(s) && Used(s) && Counted(s) && Enabled(s, Register(t, key, spare))
    ensures Counted(Registered(s, t, key, spare))
  {
    var s' := Registered(s, t, key, spare);
    assert Users(s, spare) == {};
    hide Users, Shared;
    forall i | i in s'.records
      ensures s'.records[i].refs == |Users(s', i)|
    {
      RegisteredUsers(s, t, key, spare, i);
    }
  }

  lemma RegisterUses(s: State, t: Thread, key: Key, spare: Id)
    requires Shared(s) && Used(s) && Enabled(s, Register(t, key, spare))
    ensures var s' := Registered(s, t, key, spare); Shared(s') && Used(s')
  {
  }

  lemma RegisterExcludes(s: State, t: Thread, key: Key, spare: Id)
    requires Shared(s) && Used(s) && Exclusive(s) && Enabled(s, Register(t, key, spare))
    ensures Exclusive(Registered(s, t, key, spare))
  {
    var s' := Registered(s, t, key, spare);
    assert forall u, i :: Holds(s', u, i) <==> Holds(s, u, i);
    assert forall i :: i in s'.records && s'.records[i].held ==> i in s.records && s.records[i].held;
    hide Holds, Shared, Used;
    assert forall i :: i in s.records ==> i in s'.records && s'.records[i].held == s.records[i].held;
  }

  lemma SwitchCounts(s: State, t: Thread, step: Step)
    requires Shared(s) && Used(s) && Counted(s) && Enabled(s, step) && (step == Acquire(t) || step == Release(t))
    ensures Shared(Do(s, step)) && Used(Do(s, step)) && Counted(Do(s, step))
  {
    var s' := Do(s, step);
    assert Shared(s') && Used(s') by {
      hide Counted;
    }
    hide Shared, Used;
    forall i | i in s'.records
      ensures s'.records[i].refs == |Users(s', i)|
    {
      assert Users(s', i) == Users(s, i);
    }
  }

  lemma AcquireExcludes(s: State, t: Thread)
    requires Exclusive(s) && Enabled(s, Acquire(t))
    ensures Exclusive(Do(s, Acquire(t)))
  {
    var s' := Do(s, Acquire(t));
    var id := s.threads[t].id;
    assert forall u, i :: Holds(s', u, i) <==> Holds(s, u, i) || (u == t && i == id);
    assert forall u :: !Holds(s, u, id);
    assert Holds(s', t, id);
    hide Holds;
    forall i | i in s'.records && s'.records[i].held
      ensures exists u :: Holds(s', u, i)
    {
      if i != id {
        var u :| Holds(s, u, i);
        assert Holds(s', u, i);
      }
    }
  }

  lemma ReleaseExcludes(s: State, t: Thread)
    requires Exclusive(s) && Enabled(s, Release(t))
    ensures Exclusive(Do(s, Release(t)))
  {
    var s' := Do(s, Release(t));
    var id := s.threads[t].id;
    assert Holds(s, t, id);
    assert forall u, i :: Holds(s', u, i) <==> Holds(s, u, i) && u != t;
    assert forall u, i :: Holds(s, u, i) && i == id ==> u == t;
    assert forall i :: Holds(s, t, i) ==> i == id;
    hide Holds;
  }

  lemma DeregisterCounts(s: State, t: Thread)
    requires Counted(s) && Enabled(s, Deregister(t))
    ensures Counted(Deregistered(s, t))
  {
    var s' := Deregistered(s, t);
    var id := s.threads[t].id;
    assert t in Users(s, id);
    forall i | i in s'.records
      ensures s'.records[i].refs == |Users(s', i)|
    {
      assert Users(s', i) == if i == id then Users(s, i) - {t} else Users(s, i);
    }
  }

  lemma DeregisterUses(s: State, t: Thread)
    requires Shared(s) && Used(s) && Enabled(s, Deregister(t)) && Counted(Deregistered(s, t))
    ensures var s' := Deregistered(s, t); Shared(s') && Used(s')
  {
    var s' := Deregistered(s, t);
    var pc := s.threads[t];
    if s'.records[pc.id].refs == 0 {
      assert Users(s', pc.id) == {};
      forall u | u in s'.threads
        ensures s'.threads[u].key != pc.key
      {
        assert u !in Users(s', pc.id);
      }
    }
    hide Users, Counted;
  }

  lemma DeregisterExcludes(s: State, t: Thread)
    requires Exclusive(s) && Enabled(s, Deregister(t))
    ensures Exclusive(Deregistered(s, t))
  {
    var s' := Deregistered(s, t);
    assert forall u, i :: Holds(s', u, i) <==> Holds(s, u, i);
    hide Holds;
  }

  lemma {:induction false} Always(steps: seq<Step>)
    ensures Inv(After(steps))
    decreases |steps|
  {
    if steps != [] {
      hide Inv, Enabled, Do;
      var n := |steps| - 1;
      var s := After(steps[..n]);
      Always(steps[..n]);
      if Enabled(s, steps[n]) {
        StepKeeps(s, steps[n]);
      }
    } else {
      assert Users(Init(), 0) == {};
    }
  }

  lemma StepKeeps(s: State, step: Step)
    requires Inv(s) && Enabled(s, step)
    ensures Inv(Do(s, step))
  {
    hide Shared, Used, Counted, Exclusive;
    match step
    case Register(t, key, spare) =>
      RegisterCounts(s, t, key, spare);
      RegisterUses(s, t, key, spare);
      RegisterExcludes(s, t, key, spare);
    case Acquire(t) =>
      SwitchCounts(s, t, step);
      AcquireExcludes(s, t);
    case Release(t) =>
      SwitchCounts(s, t, step);
      ReleaseExcludes(s, t);
    case Deregister(t) =>
      DeregisterCounts(s, t);
      DeregisterUses(s, t);
      DeregisterExcludes(s, t);
  }

  // ---------------------------------------------------------------------------------------------------------------
  // What the locks promise, in every run
  // ---------------------------------------------------------------------------------------------------------------

  /** At most one thread holds a key. */
  lemma MutualExclusion(steps: seq<Step>, t: Thread, u: Thread)
    requires var s := After(steps);
             && t in s.threads && u in s.threads && s.threads[t].Holding? && s.threads[u].Holding?
             && s.threads[t].key == s.threads[u].key
    ensures t == u
  {
    hide After;
    Always(steps);
    var s := After(steps);
    assert Holds(s, t, s.threads[t].id) && Holds(s, u, s.threads[t].id);
  }

  /** All contenders for a key share one record, and its counter is exactly their number. */
  lemma ContendersShare(steps: seq<Step>, t: Thread)
    requires t in After(steps).threads
    ensures var s := After(steps);
            var key := s.threads[t].key;
            && key in s.locks && s.locks[key] in s.records
            && s.records[s.locks[key]].refs == |set u | u in s.threads && s.threads[u].key == key|
  {
    hide After;
    Always(steps);
    var s := After(steps);
    var key := s.threads[t].key;
    assert Users(s, s.locks[key]) == set u | u in s.threads && s.threads[u].key == key;
  }

  /** An idle system has an empty table: nothing leaks. */
  lemma IdleIsEmpty(steps: seq<Step>)
    requires After(steps).threads == map[]
    ensures After(steps).locks == map[]
  {
    hide After;
    Always(steps);
    var s := After(steps);
    assert forall id :: Users(s, id) == {};
    assert forall id :: id in s.records ==> s.records[id].refs == 0;
    assert forall k :: k !in s.locks;
  }

  /** Nobody waits for a mutex that nobody holds, and nobody who has left it is stuck. */
  lemma NeverStuck(steps: seq<Step>, t: Thread)
    requires t in After(steps).threads
    ensures var s := After(steps);
            || Enabled(s, Acquire(t)) || Enabled(s, Release(t)) || Enabled(s, Deregister(t))
            || (s.threads[t].Waiting?
                && exists u :: Holds(s, u, s.threads[t].id) && s.threads[u].key == s.threads[t].key)
  {
    hide After;
    Always(steps);
    var s := After(steps);
    var id := s.threads[t].id;
    assert s.locks[s.threads[t].key] == id && id in s.records;
    if s.threads[t].Waiting? && s.records[id].held {
      var u :| Holds(s, u, id);
      assert s.locks[s.threads[u].key] == id;
    }
  }
}
