/**
 * The node's handlers as concurrent threads that take the lock of their volume
 * (pkg/util/idlocker.go) before they touch the host: every such run is a run of NodeRuns,
 * where requests for one volume are served one at a time.
 */
module NodeLocking {
  import opened Common
  import opened NodeProtocol
  import NodeRuns
  import opened KeyedLock

  datatype Job = Job(volume: string, handler: Handler)

  datatype Shop = Shop(locks: Locks, host: Host, job: map<ThreadId, Job>)

  /**
   * A request comes in on an idle thread; a thread makes a step on the lock; a thread that holds
   * its lock makes a step of its handler. The lock is released when the handler is done.
   */
  datatype ShopEvent =
    | Receive(thread: ThreadId, volume: string, request: Request)
    | Move(event: KeyedLock.Event)
    | Work(thread: ThreadId, input: Input)

  predicate Working(s: Shop, t: ThreadId) { PhaseOf(s.locks, t).Holding? && t in s.job }

  /** Moves on the lock that the handlers' code makes. */
  predicate MayMove(s: Shop, e: KeyedLock.Event) {
    && !e.Call? && Enabled(s.locks, e) && e.thread in s.job
    && (e.Unlock? ==> s.job[e.thread].handler.pc.Done?)
  }

  function NextShop(s: Shop, e: ShopEvent): Shop {
    match e
    case Receive(t, v, r) =>
      if PhaseOf(s.locks, t).Idle?
      then s.(locks := KeyedLock.Next(s.locks, Call(t, Id(v))), job := s.job[t := Job(v, Begin(r))])
      else s
    case Move(l) => if MayMove(s, l) then s.(locks := KeyedLock.Next(s.locks, l)) else s
    case Work(t, i) =>
      if !Working(s, t) then s
      else
        var r := Step(State(s.host, s.job[t].handler), i);
        s.(host := r.host, job := s.job[t := s.job[t].(handler := r.handler)])
  }

  function RunShop(s: Shop, es: seq<ShopEvent>): Shop
    decreases |es|
  {
    if es == [] then s else RunShop(NextShop(s, es[0]), es[1..])
  }

  /** What the event is in a world that serves one request per volume: a request begins when its lock is acquired. */
  function Seen(s: Shop, e: ShopEvent): seq<NodeRuns.Event> {
    match e
    case Move(l) =>
      if l.Acquire? && MayMove(s, l)
      then [NodeRuns.Arrive(s.job[l.thread].volume, s.job[l.thread].handler.request)] else []
    case Work(t, i) => if Working(s, t) then [NodeRuns.Take(s.job[t].volume, i)] else []
    case Receive(_, _, _) => []
  }

  function SeenAll(s: Shop, es: seq<ShopEvent>): seq<NodeRuns.Event>
    decreases |es|
  {
    if es == [] then [] else Seen(s, es[0]) + SeenAll(NextShop(s, es[0]), es[1..])
  }

  // ---------------------------------------------------------------------

  /** Every thread in or at the lock is there for its job's volume, and has not begun before it holds the lock. */
  ghost predicate JobOk(s: Shop, w: NodeRuns.World, t: ThreadId) {
    var ph := PhaseOf(s.locks, t);
    !ph.Idle? ==>
      && t in s.job && ph.key == Id(s.job[t].volume)
      && (if ph.Holding? then s.job[t].volume in w.handlers && w.handlers[s.job[t].volume] == s.job[t].handler
          else s.job[t].handler == Begin(s.job[t].handler.request))
  }

  /** A volume that is being served is being served by the thread that holds its lock. */
  ghost predicate Served(s: Shop, w: NodeRuns.World, v: string) {
    NodeRuns.Busy(w, v) ==> exists t :: Working(s, t) && s.job[t].volume == v
  }

  ghost predicate Refines(s: Shop, w: NodeRuns.World) {
    && s.host == w.host && KeyedLock.Inv(s.locks)
    && (forall t :: JobOk(s, w, t))
    && (forall v :: Served(s, w, v))
  }

  /** Two threads that hold the same volume's lock are one. */
  lemma OneWorker(s: Shop, w: NodeRuns.World, t: ThreadId, u: ThreadId)
    requires Refines(s, w) && Working(s, t) && Working(s, u) && s.job[t].volume == s.job[u].volume
    ensures t == u
  {
    assert JobOk(s, w, t) && JobOk(s, w, u);
    assert ThreadOk(s.locks, t) && ThreadOk(s.locks, u);
  }

  lemma ReceiveRefines(s: Shop, w: NodeRuns.World, e: ShopEvent)
    requires Refines(s, w) && e.Receive?
    ensures Refines(NextShop(s, e), w)
  {
    var s' := NextShop(s, e);
    if PhaseOf(s.locks, e.thread).Idle? {
      var l := Call(e.thread, Id(e.volume));
      NextKeepsInv(s.locks, l);
      forall t
        ensures JobOk(s', w, t)
      {
        assert JobOk(s, w, t);
        NextPhase(s.locks, l, t);
      }
      forall v
        ensures Served(s', w, v)
      {
        assert Served(s, w, v);
        if NodeRuns.Busy(w, v) {
          var t :| Working(s, t) && s.job[t].volume == v;
          NextPhase(s.locks, l, t);
          assert Working(s', t) && s'.job[t].volume == v;
        }
      }
    }
  }

  /** A lock that can be acquired is held by nobody. */
  lemma NobodyWorks(s: Shop, w: NodeRuns.World, t: ThreadId, u: ThreadId)
    requires Refines(s, w) && MayMove(s, Acquire(t)) && Working(s, u)
    ensures s.job[u].volume != s.job[t].volume
  {
    assert JobOk(s, w, t) && JobOk(s, w, u);
    assert ThreadOk(s.locks, t) && ThreadOk(s.locks, u);
  }

  lemma AcquireIsFree(s: Shop, w: NodeRuns.World, t: ThreadId)
    requires Refines(s, w) && MayMove(s, Acquire(t))
    ensures !NodeRuns.Busy(w, s.job[t].volume)
  {
    assert Served(s, w, s.job[t].volume);
    forall u | Working(s, u)
      ensures s.job[u].volume != s.job[t].volume
    {
      NobodyWorks(s, w, t, u);
    }
  }

  lemma AcquireRefines(s: Shop, w: NodeRuns.World, t: ThreadId)
    requires Refines(s, w) && MayMove(s, Acquire(t))
    ensures Refines(NextShop(s, Move(Acquire(t))), NodeRuns.Next(w, NodeRuns.Arrive(s.job[t].volume, s.job[t].handler.request)))
  {
    var v, s' := s.job[t].volume, NextShop(s, Move(Acquire(t)));
    var w' := NodeRuns.Next(w, NodeRuns.Arrive(v, s.job[t].handler.request));
    AcquireIsFree(s, w, t);
    NextKeepsInv(s.locks, Acquire(t));
    forall u
      ensures JobOk(s', w', u)
    {
      assert JobOk(s, w, u) && JobOk(s, w, t);
      NextPhase(s.locks, Acquire(t), u);
      if Working(s, u) {
        NobodyWorks(s, w, t, u);
      }
    }
    forall x
      ensures Served(s', w', x)
    {
      assert Served(s, w, x);
      if x == v {
        assert Working(s', t);
      } else if NodeRuns.Busy(w', x) {
        var u :| Working(s, u) && s.job[u].volume == x;
        NextPhase(s.locks, Acquire(t), u);
        assert Working(s', u) && s'.job[u].volume == x;
      }
    }
  }

  lemma OtherMoveRefines(s: Shop, w: NodeRuns.World, l: KeyedLock.Event)
    requires Refines(s, w) && MayMove(s, l) && !l.Acquire?
    ensures Refines(NextShop(s, Move(l)), w)
  {
    var s' := NextShop(s, Move(l));
    NextKeepsInv(s.locks, l);
    forall u
      ensures JobOk(s', w, u)
    {
      assert JobOk(s, w, u);
      NextPhase(s.locks, l, u);
    }
    forall v
      ensures Served(s', w, v)
    {
      assert Served(s, w, v);
      if NodeRuns.Busy(w, v) {
        var u :| Working(s, u) && s.job[u].volume == v;
        assert JobOk(s, w, u);
        NextPhase(s.locks, l, u);
        assert Working(s', u) && s'.job[u].volume == v;
      }
    }
  }

  lemma WorkRefines(s: Shop, w: NodeRuns.World, t: ThreadId, i: Input)
    requires Refines(s, w) && Working(s, t)
    ensures Refines(NextShop(s, Work(t, i)), NodeRuns.Next(w, NodeRuns.Take(s.job[t].volume, i)))
  {
    var v, s' := s.job[t].volume, NextShop(s, Work(t, i));
    var w' := NodeRuns.Next(w, NodeRuns.Take(v, i));
    assert JobOk(s, w, t);
    forall u
      ensures JobOk(s', w', u)
    {
      assert JobOk(s, w, u);
      if u != t && Working(s, u) && s.job[u].volume == v {
        OneWorker(s, w, t, u);
      }
    }
    forall x
      ensures Served(s', w', x)
    {
      assert Served(s, w, x);
      if NodeRuns.Busy(w', x) {
        assert NodeRuns.Busy(w, x);
        var u :| Working(s, u) && s.job[u].volume == x;
        assert Working(s', u) && s'.job[u].volume == x;
      }
    }
  }

  lemma NextRefines(s: Shop, w: NodeRuns.World, e: ShopEvent)
    requires Refines(s, w)
    ensures Refines(NextShop(s, e), NodeRuns.Run(w, Seen(s, e)))
  {
    RunOne(w, Seen(s, e));
    match e {
      case Receive(_, _, _) => ReceiveRefines(s, w, e);
      case Move(l) =>
        if MayMove(s, l) {
          if l.Acquire? {
            AcquireRefines(s, w, l.thread);
          } else {
            OtherMoveRefines(s, w, l);
          }
        }
      case Work(t, i) =>
        if Working(s, t) {
          WorkRefines(s, w, t, i);
        }
    }
  }

  lemma RunOne(w: NodeRuns.World, es: seq<NodeRuns.Event>)
    ensures es == [] ==> NodeRuns.Run(w, es) == w
    ensures |es| == 1 ==> NodeRuns.Run(w, es) == NodeRuns.Next(w, es[0])
  {
  }

  /** Every run of threads with locks is a run in which each volume's requests are served one at a time. */
  lemma {:induction false} RunRefines(s: Shop, w: NodeRuns.World, es: seq<ShopEvent>)
    requires Refines(s, w)
    ensures Refines(RunShop(s, es), NodeRuns.Run(w, SeenAll(s, es)))
    decreases |es|
  {
    if es != [] {
      NextRefines(s, w, es[0]);
      RunRefines(NextShop(s, es[0]), NodeRuns.Run(w, Seen(s, es[0])), es[1..]);
      NodeRuns.RunConcat(w, Seen(s, es[0]), SeenAll(NextShop(s, es[0]), es[1..]));
    }
  }

  /** From an idle service on any host. */
  lemma ThreadsRefineRuns(h: Host, es: seq<ShopEvent>)
    ensures var s := Shop(NEW, h, map[]);
            RunShop(s, es).host == NodeRuns.Run(NodeRuns.World(h, map[]), SeenAll(s, es)).host
  {
    var s, w := Shop(NEW, h, map[]), NodeRuns.World(h, map[]);
    assert forall t :: JobOk(s, w, t);
    assert forall v :: Served(s, w, v);
    RunRefines(s, w, es);
  }
}
