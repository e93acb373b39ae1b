/**
 * Device identity: in runs that follow the CSI volume lifecycle, a published
 * target path shows the device of its own volume's namespace.
 */
module NodeIdentity {
  import opened Common
  import opened NodeProtocol
  import opened NodeRuns
  import opened Initiator

  // ---------------------------------------------------------------------
  // The links under /dev/disk/by-id.

  /** The directory is in order, and every link leads into a connection that is open. */
  ghost predicate LinksOk(h: Host) {
    DirOk(h.byId) && forall l :: l in h.byId ==> l.nqn in h.connected && l.epoch == Epoch(h, l.nqn)
  }

  /** Arrivals add links of the namespaces that arrive, and no others. */
  lemma {:induction false} PlugAllKeepsLinks(h: Host, news: seq<Arrival>)
    requires LinksOk(h)
    ensures LinksOk(PlugAll(h, news))
    ensures forall l :: l in PlugAll(h, news).byId ==>
              l in h.byId || exists i :: 0 <= i < |news| && l.uuid == news[i].uuid && l.nqn == news[i].nqn
    decreases |news|
  {
    if news != [] {
      var a := news[0];
      var h1 := if a.nqn in h.connected then h.(byId := Plug(h.byId, a, Epoch(h, a.nqn))) else h;
      if a.nqn in h.connected {
        PlugKeepsOk(h.byId, a, Epoch(h, a.nqn));
      }
      assert LinksOk(h1);
      PlugAllKeepsLinks(h1, news[1..]);
      forall l | l in PlugAll(h, news).byId && l !in h.byId
        ensures exists i :: 0 <= i < |news| && l.uuid == news[i].uuid && l.nqn == news[i].nqn
      {
        if l in h1.byId {
          assert l.uuid == news[0].uuid && l.nqn == news[0].nqn;
        } else {
          var i :| 0 <= i < |news[1..]| && l.uuid == news[1..][i].uuid && l.nqn == news[1..][i].nqn;
          assert news[1..][i] == news[i + 1];
        }
      }
    }
  }

  lemma DisconnectedKeepsLinks(h: Host, nqn: Text)
    requires LinksOk(h)
    ensures LinksOk(Disconnected(h, nqn))
  {
    if nqn in h.connected {
      WithoutKeepsOk(h.byId, nqn);
    }
  }

  lemma StepKeepsLinks(s: State, i: Input)
    requires LinksOk(s.host)
    ensures LinksOk(Step(s, i).host)
    ensures forall l :: l in Step(s, i).host.byId ==>
              l in s.host.byId || exists k :: 0 <= k < |i.news| && l.uuid == i.news[k].uuid && l.nqn == i.news[k].nqn
  {
    if s.handler.request.Stage? && s.handler.pc.Disconnect? {
      DisconnectedKeepsLinks(s.host, Nqn(s.handler.request));
    } else if s.handler.request.Stage? && s.handler.pc.AwaitDevice? {
      StepAwait(s, i);
      PlugAllKeepsLinks(s.host, i.news);
    } else {
      StepLinksFrame(s, i);
    }
  }

  // ---------------------------------------------------------------------

  /**
   * What the orchestrator passes for each volume (publish context, staging path),
   * and the volume each target path is for.
   */
  datatype Plan = Plan(
    context: map<string, map<string, Text>>,
    staging: map<string, string>,
    owner: map<string, string>)

  function UuidOf(p: Plan, v: string): Text
    requires v in p.context
  {
    Get(p.context[v], "uuid")
  }

  function NqnOf(p: Plan, v: string): Text
    requires v in p.context
  {
    Get(p.context[v], "nqn")
  }

  ghost predicate PlanOk(p: Plan) {
    && p.context.Keys == p.staging.Keys
    && (forall v :: v in p.context ==> IsUuid(UuidOf(p, v)))
    && (forall u, v :: u in p.staging && v in p.staging && u != v ==> p.staging[u] != p.staging[v])
    && (forall t :: t in p.owner ==> p.owner[t] in p.staging)
    && (forall t, v :: t in p.owner && v in p.staging ==> p.staging[v] != t)
  }

  /** A run, with the volumes whose latest stage succeeded and that have not been touched by an unstage since. */
  datatype Course = Course(world: World, ready: set<string>)

  predicate Belongs(p: Plan, v: string, r: Request) {
    v in p.staging && v in p.context &&
    match r
    case Stage(path, context) => path == p.staging[v] && context == p.context[v]
    case Unstage(path) => path == p.staging[v]
    case Publish(source, path, _) => source == p.staging[v] && path in p.owner && p.owner[path] == v
    case Unpublish(path) => path in p.owner && p.owner[path] == v
  }

  /** A UUID in the plan names one namespace: it shows up in its own subsystem only. */
  predicate AtHome(p: Plan, uuid: Text, nqn: Text) {
    forall v :: v in p.context && UuidOf(p, v) == uuid ==> NqnOf(p, v) == nqn
  }

  /** Section "Volume Lifecycle" of the CSI specification: a volume is published only while it is staged. */
  predicate InOrder(p: Plan, c: Course, e: Event) {
    match e
    case Arrive(v, r) => Belongs(p, v, r) && (r.Publish? ==> v in c.ready)
    case Take(_, i) => forall k :: 0 <= k < |i.news| ==> AtHome(p, i.news[k].uuid, i.news[k].nqn)
  }

  function Go(c: Course, e: Event): Course {
    var w' := Next(c.world, e);
    match e
    case Arrive(v, r) =>
      Course(w', if !Busy(c.world, v) && IsStaging(r) then c.ready - {v} else c.ready)
    case Take(v, _) =>
      Course(w', if Busy(c.world, v) && w'.handlers[v].request.Stage? && w'.handlers[v].pc == Done(Success)
                 then c.ready + {v} else c.ready)
  }

  function Follow(c: Course, es: seq<Event>): Course
    decreases |es|
  {
    if es == [] then c else Follow(Go(c, es[0]), es[1..])
  }

  ghost predicate FollowsLifecycle(p: Plan, c: Course, es: seq<Event>)
    decreases |es|
  {
    es == [] || (InOrder(p, c, es[0]) && FollowsLifecycle(p, Go(c, es[0]), es[1..]))
  }

  lemma FollowsOne(p: Plan, c: Course, e: Event, es: seq<Event>)
    requires InOrder(p, c, e) && FollowsLifecycle(p, Go(c, e), es)
    ensures FollowsLifecycle(p, c, [e] + es)
  {
    assert ([e] + es)[1..] == es;
  }

  // ---------------------------------------------------------------------

  predicate IsDeviceOf(p: Plan, c: Content, v: string)
    requires v in p.context
  {
    c.Device? && c.uuid == UuidOf(p, v) && c.nqn == NqnOf(p, v)
  }

  ghost predicate AllOf(p: Plan, stack: seq<Content>, v: string)
    requires v in p.context
  {
    forall i :: 0 <= i < |stack| ==> IsDeviceOf(p, stack[i], v)
  }

  ghost predicate HandlerFits(p: Plan, v: string, d: Handler, ready: set<string>) {
    && Belongs(p, v, d.request)
    && (d.request.Stage? && d.link.Some? ==> d.link.value == OwnName(UuidOf(p, v)))
    && (!d.pc.Done? && d.request.Publish? ==> v in ready)
    && (!d.pc.Done? && IsStaging(d.request) ==> v !in ready)
  }

  ghost predicate Inv(p: Plan, c: Course) {
    var h := c.world.host;
    && PlanOk(p) && LinksOk(h)
    && (forall l :: l in h.byId ==> AtHome(p, l.uuid, l.nqn))
    && (forall v :: v in p.staging ==> AllOf(p, Stack(h, p.staging[v]), v))
    && (forall t :: t in p.owner ==> AllOf(p, Stack(h, t), p.owner[t]))
    && (forall v :: v in c.ready ==> v in p.staging && IsMountPoint(h, p.staging[v]))
    && (forall v :: v in c.world.handlers ==> HandlerFits(p, v, c.world.handlers[v], c.ready))
  }

  /** What a look at the links finds is the link of the volume's own namespace. */
  lemma FoundLink(p: Plan, v: string, h: Host, d: Handler, i: Input)
    requires PlanOk(p) && LinksOk(h) && Belongs(p, v, d.request) && d.request.Stage?
    requires d.link.Some? ==> d.link.value == OwnName(UuidOf(p, v))
    ensures var d' := Step(State(h, d), i).handler;
            d'.link.Some? ==> d'.link.value == OwnName(UuidOf(p, v))
  {
    if !d.pc.AwaitDevice? {
      NoNewLink(h, d, i);
    } else {
      StepAwait(State(h, d), i);
      PlugAllKeepsLinks(h, i.news);
      FoundIsOwn(PlugAll(h, i.news).byId, UuidOf(p, v));
    }
  }

  lemma NoNewLink(h: Host, d: Handler, i: Input)
    requires !d.pc.AwaitDevice?
    ensures Step(State(h, d), i).handler.link == d.link
  {
  }

  /** What that link leads to is the device of that namespace. */
  lemma BehindOwnLink(p: Plan, v: string, h: Host)
    requires PlanOk(p) && LinksOk(h) && v in p.context && forall l :: l in h.byId ==> AtHome(p, l.uuid, l.nqn)
    ensures var c := Behind(h, OwnName(UuidOf(p, v)));
            c.Some? ==> IsDeviceOf(p, c.value, v) && Live(h, c.value)
  {
    var l := Lookup(h.byId, OwnName(UuidOf(p, v)));
    if l.Some? {
      OwnLink(l.value, UuidOf(p, v));
    }
  }

  lemma OwnPathShows(p: Plan, h: Host, v: string, d: Handler, i: Input)
    requires Belongs(p, v, d.request) && AllOf(p, Stack(h, d.request.path), v)
    requires d.request.Stage? && Source(h, d).Some? ==> IsDeviceOf(p, Source(h, d).value, v)
    requires d.request.Publish? ==>
               AllOf(p, Stack(h, d.request.source), v) && IsMountPoint(h, d.request.source)
    ensures AllOf(p, Stack(Step(State(h, d), i).host, d.request.path), v)
  {
    StepStack(State(h, d), i, d.request.path);
  }

  lemma StageSuccessMounts(h: Host, d: Handler, i: Input)
    requires d.request.Stage? && !d.pc.Done? && HistoryOk(d)
    requires Step(State(h, d), i).handler.pc == Done(Success)
    ensures IsMountPoint(Step(State(h, d), i).host, d.request.path)
  {
  }

  lemma TakeShows(p: Plan, c: Course, e: Event)
    requires Inv(p, c) && e.Take? && Busy(c.world, e.volume)
    ensures var h' := Go(c, e).world.host;
            && (forall v :: v in p.staging ==> AllOf(p, Stack(h', p.staging[v]), v))
            && (forall t :: t in p.owner ==> AllOf(p, Stack(h', t), p.owner[t]))
  {
    var v, d, h := e.volume, c.world.handlers[e.volume], c.world.host;
    BehindOwnLink(p, v, h);
    OwnPathShows(p, h, v, d, e.input);
    forall u | u in p.staging
      ensures AllOf(p, Stack(Go(c, e).world.host, p.staging[u]), u)
    {
      if p.staging[u] != d.request.path {
        StepMountFrame(State(h, d), e.input, p.staging[u]);
      }
    }
    forall t | t in p.owner
      ensures AllOf(p, Stack(Go(c, e).world.host, t), p.owner[t])
    {
      if t != d.request.path {
        StepMountFrame(State(h, d), e.input, t);
      }
    }
  }

  lemma TakeReady(p: Plan, c: Course, e: Event, v: string)
    requires Inv(p, c) && e.Take? && Busy(c.world, e.volume) && v in Go(c, e).ready
    requires HistoryOk(c.world.handlers[e.volume])
    ensures v in p.staging && IsMountPoint(Go(c, e).world.host, p.staging[v])
  {
    var d, h := c.world.handlers[e.volume], c.world.host;
    if v in c.ready {
      assert d.request.path != p.staging[v];
      StepMountFrame(State(h, d), e.input, p.staging[v]);
    } else {
      StageSuccessMounts(h, d, e.input);
    }
  }

  lemma TakeKeepsLinks(p: Plan, c: Course, e: Event)
    requires Inv(p, c) && e.Take? && Busy(c.world, e.volume) && InOrder(p, c, e)
    ensures var h' := Go(c, e).world.host;
            LinksOk(h') && forall l :: l in h'.byId ==> AtHome(p, l.uuid, l.nqn)
  {
    StepKeepsLinks(State(c.world.host, c.world.handlers[e.volume]), e.input);
  }

  lemma TakeKeepsInv(p: Plan, c: Course, e: Event)
    requires Inv(p, c) && e.Take? && Busy(c.world, e.volume) && InOrder(p, c, e)
    requires HistoryOk(c.world.handlers[e.volume])
    ensures Inv(p, Go(c, e))
  {
    var c' := Go(c, e);
    TakeShows(p, c, e);
    TakeKeepsLinks(p, c, e);
    forall v | v in c'.ready
      ensures v in p.staging && IsMountPoint(c'.world.host, p.staging[v])
    {
      TakeReady(p, c, e, v);
    }
    forall v | v in c'.world.handlers
      ensures HandlerFits(p, v, c'.world.handlers[v], c'.ready)
    {
      assert HandlerFits(p, v, c.world.handlers[v], c.ready);
      if v == e.volume && c.world.handlers[v].request.Stage? {
        FoundLink(p, v, c.world.host, c.world.handlers[v], e.input);
      }
    }
  }

  lemma ArriveKeepsInv(p: Plan, c: Course, e: Event)
    requires Inv(p, c) && e.Arrive? && InOrder(p, c, e)
    ensures Inv(p, Go(c, e))
  {
    var c' := Go(c, e);
    forall v | v in c'.world.handlers
      ensures HandlerFits(p, v, c'.world.handlers[v], c'.ready)
    {
      if v in c.world.handlers {
        assert HandlerFits(p, v, c.world.handlers[v], c.ready);
      }
    }
  }

  lemma GoKeepsInv(p: Plan, c: Course, e: Event)
    requires Inv(p, c) && InOrder(p, c, e)
    requires forall v :: v in c.world.handlers ==> HistoryOk(c.world.handlers[v])
    ensures Inv(p, Go(c, e))
  {
    if e.Arrive? {
      ArriveKeepsInv(p, c, e);
    } else if Busy(c.world, e.volume) {
      TakeKeepsInv(p, c, e);
    } else {
      assert Go(c, e) == c;
    }
  }

  lemma FreshInv(p: Plan, c: Course)
    requires PlanOk(p) && c.ready == {} && c.world.handlers == map[] && c.world.host.mounts == map[] && c.world.host.byId == []
    ensures Inv(p, c)
  {
  }

  /**
   * In every run that follows the lifecycle, whatever fails and however requests
   * interleave, every mount on a target path is the device of the namespace whose UUID
   * was in the publish context of the target's own volume: the device that the glob found.
   */
  lemma {:induction false} TargetsShowTheirVolume(p: Plan, c: Course, es: seq<Event>)
    requires Inv(p, c) && FollowsLifecycle(p, c, es)
    requires forall v :: v in c.world.handlers ==> HistoryOk(c.world.handlers[v])
    ensures Inv(p, Follow(c, es))
    decreases |es|
  {
    if es != [] {
      GoKeepsInv(p, c, es[0]);
      RunKeepsHistory(c.world, [es[0]]);
      assert Run(c.world, [es[0]]) == Next(c.world, es[0]);
      TargetsShowTheirVolume(p, Go(c, es[0]), es[1..]);
    }
  }

  // ---------------------------------------------------------------------
  // Whether the device still works.

  predicate Live(h: Host, c: Content) {
    c.Device? && c.nqn in h.connected && c.epoch == Epoch(h, c.nqn)
  }

  /** A step of `d` tears down the connection to `nqn`. */
  predicate CutsOff(d: Handler, i: Input, nqn: Text) {
    d.pc.Disconnect? && d.request.Stage? && Nqn(d.request) == nqn && !i.fault.Lost?
  }

  /** One step ends the life of a device exactly when it disconnects the whole NQN, whichever volume it is for. */
  lemma StepKeepsLive(s: State, i: Input, c: Content)
    requires Live(s.host, c)
    ensures Live(Step(s, i).host, c) <==> !CutsOff(s.handler, i, c.nqn)
  {
  }

  ghost predicate NeverCutOff(w: World, es: seq<Event>, nqn: Text)
    decreases |es|
  {
    es == [] || (
      && (es[0].Take? && Busy(w, es[0].volume) ==> !CutsOff(w.handlers[es[0].volume], es[0].input, nqn))
      && NeverCutOff(Next(w, es[0]), es[1..], nqn))
  }

  /** Everything mounted from `nqn` anywhere is live. */
  ghost predicate MountsLive(h: Host, nqn: Text) {
    forall p, k :: 0 <= k < |Stack(h, p)| && Stack(h, p)[k].Device? && Stack(h, p)[k].nqn == nqn ==>
      Live(h, Stack(h, p)[k])
  }

  lemma SourceIsLive(h: Host, d: Handler, nqn: Text)
    requires MountsLive(h, nqn) && LinksOk(h) && Source(h, d).Some?
    ensures var c := Source(h, d).value;
            c.Device? && c.nqn == nqn ==> Live(h, c)
  {
  }

  lemma StepKeepsMountsLive(s: State, i: Input, nqn: Text)
    requires MountsLive(s.host, nqn) && LinksOk(s.host) && !CutsOff(s.handler, i, nqn)
    ensures MountsLive(Step(s, i).host, nqn)
  {
    var t := Step(s, i).host;
    forall p, k | 0 <= k < |Stack(t, p)| && Stack(t, p)[k].Device? && Stack(t, p)[k].nqn == nqn
      ensures Live(t, Stack(t, p)[k])
    {
      var c := Stack(t, p)[k];
      StepStack(s, i, p);
      if k < |Stack(s.host, p)| {
        assert c == Stack(s.host, p)[k];
      } else {
        SourceIsLive(s.host, s.handler, nqn);
      }
      StepKeepsLive(s, i, c);
    }
  }

  /** As long as no failed stage disconnects the NQN, every device mounted from it keeps working. */
  lemma {:induction false} DevicesStayLive(w: World, es: seq<Event>, nqn: Text)
    requires MountsLive(w.host, nqn) && LinksOk(w.host) && NeverCutOff(w, es, nqn)
    ensures MountsLive(Run(w, es).host, nqn)
    decreases |es|
  {
    if es != [] {
      var e := es[0];
      if e.Take? && Busy(w, e.volume) {
        var s := State(w.host, w.handlers[e.volume]);
        StepKeepsMountsLive(s, e.input, nqn);
        StepKeepsLinks(s, e.input);
      }
      DevicesStayLive(Next(w, e), es[1..], nqn);
    }
  }

  /** Disconnecting is for ever: a device of an earlier connection does not come back. */
  lemma {:induction false} StaysDead(w: World, es: seq<Event>, c: Content)
    requires c.Device? && c.epoch < Epoch(w.host, c.nqn)
    ensures !Live(Run(w, es).host, c)
    decreases |es|
  {
    if es != [] {
      StaysDead(Next(w, es[0]), es[1..], c);
    }
  }

  /**
   * A device that works now works at the end of a run if and only if no failed stage, of
   * whichever volume, disconnects its NQN in between.
   */
  lemma {:induction false} LiveUntilCutOff(w: World, es: seq<Event>, c: Content)
    requires Live(w.host, c)
    ensures Live(Run(w, es).host, c) <==> NeverCutOff(w, es, c.nqn)
    decreases |es|
  {
    if es != [] {
      var e := es[0];
      var w' := Next(w, e);
      if e.Take? && Busy(w, e.volume) && CutsOff(w.handlers[e.volume], e.input, c.nqn) {
        assert c.epoch < Epoch(w'.host, c.nqn);
        StaysDead(w', es[1..], c);
      } else {
        if e.Take? && Busy(w, e.volume) {
          StepKeepsLive(State(w.host, w.handlers[e.volume]), e.input, c);
        }
        LiveUntilCutOff(w', es[1..], c);
      }
    }
  }

  lemma {:induction false} FollowIsRun(c: Course, es: seq<Event>)
    ensures Follow(c, es).world == Run(c.world, es)
    decreases |es|
  {
    if es != [] {
      FollowIsRun(Go(c, es[0]), es[1..]);
    }
  }

  /** A stage served to its success makes its volume ready; serving any other request changes nothing about that. */
  lemma {:induction false} ScriptReady(c: Course, v: string, env: Pc -> Input)
    requires Busy(c.world, v)
    ensures var s := State(c.world.host, c.world.handlers[v]);
            Follow(c, Script(v, s, env)).ready ==
              if s.handler.request.Stage? && RunAlone(s, env).handler.pc == Done(Success) then c.ready + {v} else c.ready
    decreases Rank(c.world.handlers[v].pc)
  {
    var s := State(c.world.host, c.world.handlers[v]);
    var e := Take(v, env(s.handler.pc));
    var t, es := Step(s, e.input), Script(v, s, env);
    assert es[0] == e && es[1..] == Script(v, t, env);
    assert RunAlone(s, env) == RunAlone(t, env);
    if !t.handler.pc.Done? {
      assert Go(c, e).ready == c.ready;
      ScriptReady(Go(c, e), v, env);
    } else {
      assert es[1..] == [];
    }
  }

  /** A request that arrives and is then served with nobody else around. */
  lemma {:induction false} FollowServed(c: Course, v: string, r: Request, env: Pc -> Input)
    requires !Busy(c.world, v)
    ensures var s := State(c.world.host, Begin(r));
            var done, end := RunAlone(s, env), Follow(Go(c, Arrive(v, r)), Script(v, s, env));
            && end.world == World(done.host, c.world.handlers[v := done.handler])
            && (r.Stage? && done.handler.pc == Done(Success) ==> v in end.ready)
  {
    var s, c1 := State(c.world.host, Begin(r)), Go(c, Arrive(v, r));
    FollowIsRun(c1, Script(v, s, env));
    ScriptIsCall(c1.world, v, env);
    ScriptReady(c1, v, env);
    var done := RunAlone(s, env);
    assert c.world.handlers[v := s.handler][v := done.handler] == c.world.handlers[v := done.handler];
  }
}
