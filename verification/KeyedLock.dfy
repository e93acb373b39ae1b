/**
 * VolumeLocks (pkg/util/idlocker.go): one mutex per key, made on first use. The
 * three steps of a critical section (LoadOrStore, Lock, Unlock) of any number of
 * threads interleave freely.
 */
module KeyedLock {
  import opened Common

  /** The controller locks volume names, the node locks volume IDs. */
  datatype Key = Name(name: Text) | Id(id: string)

  type ThreadId = nat
  type MutexId = nat

  datatype Phase =
    | Idle
    | Calling(key: Key)                  // inside Lock, before LoadOrStore
    | Waiting(key: Key, mutex: MutexId)  // at mtx.Lock()
    | Holding(key: Key, mutex: MutexId)  // until the returned closure is called

  datatype Locks = Locks(
    mutexes: map<Key, MutexId>,
    owner: map<MutexId, ThreadId>,
    fresh': MutexId,                     // the next mutex to be allocated
    phase: map<ThreadId, Phase>)

  datatype Event = Call(thread: ThreadId, key: Key) | Load(thread: ThreadId) | Acquire(thread: ThreadId) | Unlock(thread: ThreadId)

  function PhaseOf(l: Locks, t: ThreadId): Phase {
    if t in l.phase then l.phase[t] else Idle
  }

  predicate Enabled(l: Locks, e: Event) {
    match e
    case Call(t, _) => PhaseOf(l, t).Idle?
    case Load(t) => PhaseOf(l, t).Calling?
    case Acquire(t) => PhaseOf(l, t).Waiting? && PhaseOf(l, t).mutex !in l.owner
    case Unlock(t) => PhaseOf(l, t).Holding?
  }

  /** sync.Map.LoadOrStore with a newly allocated mutex; the new one is dropped if the key is present. */
  function LoadOrStore(mutexes: map<Key, MutexId>, k: Key, m: MutexId): map<Key, MutexId> {
    if k in mutexes then mutexes else mutexes[k := m]
  }

  function Next(l: Locks, e: Event): Locks {
    if !Enabled(l, e) then l
    else
      match e
      case Call(t, k) => l.(phase := l.phase[t := Calling(k)])
      case Load(t) =>
        var k := l.phase[t].key;
        var mutexes := LoadOrStore(l.mutexes, k, l.fresh');
        l.(mutexes := mutexes, fresh' := l.fresh' + 1, phase := l.phase[t := Waiting(k, mutexes[k])])
      case Acquire(t) =>
        var Waiting(k, m) := l.phase[t];
        l.(owner := l.owner[m := t], phase := l.phase[t := Holding(k, m)])
      case Unlock(t) =>
        l.(owner := l.owner - {l.phase[t].mutex}, phase := l.phase[t := Idle])
  }

  function Run(l: Locks, es: seq<Event>): Locks
    decreases |es|
  {
    if es == [] then l else Run(Next(l, es[0]), es[1..])
  }

  const NEW := Locks(map[], map[], 0, map[])

  // ---------------------------------------------------------------------

  ghost predicate ThreadOk(l: Locks, t: ThreadId) {
    var ph := PhaseOf(l, t);
    && (ph.Waiting? || ph.Holding? ==> ph.key in l.mutexes && l.mutexes[ph.key] == ph.mutex)
    && (ph.Holding? ==> ph.mutex in l.owner && l.owner[ph.mutex] == t)
  }

  ghost predicate Inv(l: Locks) {
    && (forall k :: k in l.mutexes ==> l.mutexes[k] < l.fresh')
    && (forall j, k :: j in l.mutexes && k in l.mutexes && l.mutexes[j] == l.mutexes[k] ==> j == k)
    && (forall t :: ThreadOk(l, t))
    && (forall m :: m in l.owner ==> PhaseOf(l, l.owner[m]).Holding? && PhaseOf(l, l.owner[m]).mutex == m)
  }

  lemma NextKeepsThreadOk(l: Locks, e: Event, t: ThreadId)
    requires Inv(l)
    ensures ThreadOk(Next(l, e), t)
  {
    assert ThreadOk(l, t) && ThreadOk(l, e.thread);
  }

  lemma NextKeepsOwners(l: Locks, e: Event, m: MutexId)
    requires Inv(l) && m in Next(l, e).owner
    ensures var l' := Next(l, e);
            PhaseOf(l', l'.owner[m]).Holding? && PhaseOf(l', l'.owner[m]).mutex == m
  {
  }

  lemma NextKeepsInv(l: Locks, e: Event)
    requires Inv(l)
    ensures Inv(Next(l, e))
  {
    var l' := Next(l, e);
    forall t
      ensures ThreadOk(l', t)
    {
      NextKeepsThreadOk(l, e, t);
    }
    forall m | m in l'.owner
      ensures PhaseOf(l', l'.owner[m]).Holding? && PhaseOf(l', l'.owner[m]).mutex == m
    {
      NextKeepsOwners(l, e, m);
    }
  }

  /** A step concerns its own thread, which keeps its key until it is idle again. */
  lemma NextPhase(l: Locks, e: Event, t: ThreadId)
    ensures t != e.thread ==> PhaseOf(Next(l, e), t) == PhaseOf(l, t)
    ensures t == e.thread && Next(l, e) != l ==>
              match e
              case Call(_, k) => PhaseOf(Next(l, e), t) == Calling(k)
              case Unlock(_) => PhaseOf(Next(l, e), t).Idle?
              case _ => !PhaseOf(l, t).Idle? && !PhaseOf(Next(l, e), t).Idle? && PhaseOf(Next(l, e), t).key == PhaseOf(l, t).key
  {
  }

  lemma {:induction false} RunKeepsInv(l: Locks, es: seq<Event>)
    requires Inv(l)
    ensures Inv(Run(l, es))
    decreases |es|
  {
    if es != [] {
      NextKeepsInv(l, es[0]);
      RunKeepsInv(Next(l, es[0]), es[1..]);
    }
  }

  /** A key keeps its mutex for ever: whoever uses the key later locks the same one. */
  lemma {:induction false} OneMutexForever(l: Locks, es: seq<Event>, k: Key)
    requires k in l.mutexes
    ensures k in Run(l, es).mutexes && Run(l, es).mutexes[k] == l.mutexes[k]
    decreases |es|
  {
    if es != [] {
      OneMutexForever(Next(l, es[0]), es[1..], k);
    }
  }

  /** In every reachable state at most one thread holds a key. */
  lemma MutualExclusion(es: seq<Event>, t: ThreadId, u: ThreadId)
    requires PhaseOf(Run(NEW, es), t).Holding? && PhaseOf(Run(NEW, es), u).Holding?
    requires PhaseOf(Run(NEW, es), t).key == PhaseOf(Run(NEW, es), u).key
    ensures t == u
  {
    assert Inv(NEW);
    RunKeepsInv(NEW, es);
    var l := Run(NEW, es);
    assert ThreadOk(l, t) && ThreadOk(l, u);
  }

  /** A thread that cannot go on waits for a thread that holds the very key it wants. */
  lemma WaitsForOwnKey(es: seq<Event>, t: ThreadId)
    requires PhaseOf(Run(NEW, es), t).Waiting? && !Enabled(Run(NEW, es), Acquire(t))
    ensures var l := Run(NEW, es);
            var h := l.owner[PhaseOf(l, t).mutex];
            h != t && PhaseOf(l, h) == Holding(PhaseOf(l, t).key, PhaseOf(l, t).mutex)
  {
    assert Inv(NEW);
    RunKeepsInv(NEW, es);
    var l := Run(NEW, es);
    var h := l.owner[PhaseOf(l, t).mutex];
    assert ThreadOk(l, t) && ThreadOk(l, h);
  }

  lemma SomeoneCanMove(l: Locks, t: ThreadId) returns (e: Event)
    requires Inv(l) && !PhaseOf(l, t).Idle?
    ensures Enabled(l, e) && !e.Call?
  {
    match PhaseOf(l, t) {
      case Calling(_) => e := Load(t);
      case Holding(_, _) => e := Unlock(t);
      case Waiting(_, m) => e := if m in l.owner then Unlock(l.owner[m]) else Acquire(t);
    }
  }

  ghost function CallingSet(l: Locks): set<ThreadId> { set t | t in l.phase && l.phase[t].Calling? }
  ghost function WaitingSet(l: Locks): set<ThreadId> { set t | t in l.phase && l.phase[t].Waiting? }
  ghost function HoldingSet(l: Locks): set<ThreadId> { set t | t in l.phase && l.phase[t].Holding? }

  /** Steps still to be taken before every thread is idle again. */
  ghost function Pending(l: Locks): nat {
    3 * |CallingSet(l)| + 2 * |WaitingSet(l)| + |HoldingSet(l)|
  }

  lemma MovesLowerPending(l: Locks, e: Event)
    requires Enabled(l, e) && !e.Call?
    ensures Pending(Next(l, e)) < Pending(l)
  {
    match e {
      case Load(_) => LoadLowersPending(l, e.thread);
      case Acquire(_) => AcquireLowersPending(l, e.thread);
      case Unlock(_) => UnlockLowersPending(l, e.thread);
    }
  }

  lemma LoadLowersPending(l: Locks, t: ThreadId)
    requires Enabled(l, Load(t))
    ensures Pending(Next(l, Load(t))) < Pending(l)
  {
    var l' := Next(l, Load(t));
    assert t in CallingSet(l) && t !in WaitingSet(l);
    assert CallingSet(l') == CallingSet(l) - {t};
    assert WaitingSet(l') == WaitingSet(l) + {t};
    assert HoldingSet(l') == HoldingSet(l);
  }

  lemma AcquireLowersPending(l: Locks, t: ThreadId)
    requires Enabled(l, Acquire(t))
    ensures Pending(Next(l, Acquire(t))) < Pending(l)
  {
    var l' := Next(l, Acquire(t));
    assert t in WaitingSet(l) && t !in HoldingSet(l);
    assert CallingSet(l') == CallingSet(l);
    assert WaitingSet(l') == WaitingSet(l) - {t};
    assert HoldingSet(l') == HoldingSet(l) + {t};
  }

  lemma UnlockLowersPending(l: Locks, t: ThreadId)
    requires Enabled(l, Unlock(t))
    ensures Pending(Next(l, Unlock(t))) < Pending(l)
  {
    var l' := Next(l, Unlock(t));
    assert t in HoldingSet(l);
    assert CallingSet(l') == CallingSet(l);
    assert WaitingSet(l') == WaitingSet(l);
    assert HoldingSet(l') == HoldingSet(l) - {t};
  }

  lemma {:induction false} Drain(l: Locks) returns (es: seq<Event>)
    requires Inv(l)
    ensures forall i :: 0 <= i < |es| ==> !es[i].Call?
    ensures forall t :: PhaseOf(Run(l, es), t).Idle?
    decreases Pending(l)
  {
    if t :| !PhaseOf(l, t).Idle? {
      var e := SomeoneCanMove(l, t);
      MovesLowerPending(l, e);
      NextKeepsInv(l, e);
      var rest := Drain(Next(l, e));
      es := [e] + rest;
      assert es[1..] == rest;
    } else {
      es := [];
    }
  }

  /**
   * No deadlock: from every reachable state the threads inside the locks can all run
   * to the end of their critical sections, with no new call being made.
   */
  lemma NoDeadlock(es: seq<Event>) returns (finish: seq<Event>)
    ensures forall i :: 0 <= i < |finish| ==> !finish[i].Call?
    ensures forall t :: PhaseOf(Run(Run(NEW, es), finish), t).Idle?
  {
    assert Inv(NEW);
    RunKeepsInv(NEW, es);
    finish := Drain(Run(NEW, es));
  }

  // ---------------------------------------------------------------------

  /** The lock table itself, updated in place. A blocked mtx.Lock() is an Acquire that does not succeed yet. */
  class VolumeLocks {
    var mutexes: map<Key, MutexId>
    var owner: map<MutexId, ThreadId>
    var allocated': MutexId

    constructor ()
      ensures mutexes == map[] && owner == map[] && allocated' == 0
    {
      mutexes, owner, allocated' := map[], map[], 0;
    }

    ghost function State(phase: map<ThreadId, Phase>): Locks
      reads this
    {
      Locks(mutexes, owner, allocated', phase)
    }

    method LoadMutex(k: Key, t: ThreadId, ghost phase: map<ThreadId, Phase>) returns (m: MutexId)
      requires t in phase && phase[t] == Calling(k)
      modifies this
      ensures k in mutexes && m == mutexes[k]
      ensures State(phase[t := Waiting(k, m)]) == Next(old(State(phase)), Load(t))
    {
      var created := allocated';
      allocated' := allocated' + 1;
      if k !in mutexes {
        mutexes := mutexes[k := created];
      }
      m := mutexes[k];
    }

    method TryAcquire(k: Key, m: MutexId, t: ThreadId, ghost phase: map<ThreadId, Phase>) returns (acquired: bool)
      requires t in phase && phase[t] == Waiting(k, m)
      modifies this
      ensures acquired <==> Enabled(old(State(phase)), Acquire(t))
      ensures State(if acquired then phase[t := Holding(k, m)] else phase) == Next(old(State(phase)), Acquire(t))
    {
      acquired := m !in owner;
      if acquired {
        owner := owner[m := t];
      }
    }

    method Release(k: Key, m: MutexId, t: ThreadId, ghost phase: map<ThreadId, Phase>)
      requires t in phase && phase[t] == Holding(k, m)
      modifies this
      ensures State(phase[t := Idle]) == Next(old(State(phase)), Unlock(t))
    {
      owner := owner - {m};
    }
  }
}
