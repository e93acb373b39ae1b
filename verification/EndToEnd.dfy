/**
 * From CreateVolume to the block device a workload sees, in runs of the whole system: own
 * device, no other volume's device, and for how long it works.
 */
module EndToEnd {
  import opened Common
  import opened NodeProtocol
  import NodeRuns
  import NodeIdentity
  import Controller
  import opened WholeSystem
  import VolumeIdentity
  import Paths

  /** What the node sees of a run. */
  function NodeEvents(es: seq<Event>): seq<NodeRuns.Event> {
    if es == [] then []
    else
      match es[0]
      case Receive(id, call) => [NodeRuns.Arrive(id, ToRequest(id, call))] + NodeEvents(es[1..])
      case Take(id, i) => [NodeRuns.Take(id, i)] + NodeEvents(es[1..])
      case _ => NodeEvents(es[1..])
  }

  lemma {:induction false} CourseFollows(s: System, es: seq<Event>)
    ensures Run(s, es).course == NodeIdentity.Follow(s.course, NodeEvents(es))
    decreases |es|
  {
    if es != [] {
      CourseFollows(Next(s, es[0]), es[1..]);
      if es[0].Receive? || es[0].Take? {
        assert NodeEvents(es)[1..] == NodeEvents(es[1..]);
      }
    }
  }

  /** What the node is told about each volume, by the end of a run. */
  function PlanOf(d: Deployment, s: System): NodeIdentity.Plan {
    NodeIdentity.Plan(
      map id | id in s.contexts && id in d.dir :: s.contexts[id],
      map id | id in s.contexts && id in d.dir :: d.dir[id] + "/" + id,
      map t | t in d.owner && d.owner[t] in s.contexts :: d.owner[t])
  }

  lemma IdHasNoSlash(s: System, id: string)
    requires SystemOk(s) && id in s.volumes
    ensures '/' !in id
  {
    var r := s.volumes[id];
    assert RecordOk(id, r);
    VolumeIdentity.VolumeIDIsOneComponent(VolumeIdentity.VolumeIdentifier(r.nsid, NqnOf(r), r.request.name));
  }

  /** The publish context names the UUID and the subsystem of the volume's own create. */
  lemma ContextIsOwn(s: System, id: string)
    requires SystemOk(s) && id in s.contexts
    ensures id in s.volumes && IsUuid(s.volumes[id].uuid)
    ensures Get(s.contexts[id], "uuid") == s.volumes[id].uuid && Get(s.contexts[id], "nqn") == NqnOf(s.volumes[id])
  {
    assert Fits(s.contexts[id], s.volumes[id]) && RecordOk(id, s.volumes[id]);
    RecordContext(id, s.volumes[id]);
  }

  lemma RecordContext(id: string, r: Record)
    requires RecordOk(id, r)
    ensures Get(ContextOf(r), "uuid") == r.uuid && Get(ContextOf(r), "nqn") == NqnOf(r)
  {
    Controller.ContextKept(r.request, r.nsid);
    Controller.PublishContextHas(r.volume.context, r.uuid);
  }

  lemma SameLastComponent(a: string, u: string, b: string, v: string)
    requires '/' !in u && '/' !in v && a + "/" + u == b + "/" + v
    ensures u == v
  {
    assert Paths.EndsIn(a + "/" + u, u);
    assert Paths.EndsIn(b + "/" + v, v);
    Paths.OneOwner(a + "/" + u, u, v);
  }

  /** Two volumes never share a staging path. */
  lemma StagingIsDistinct(d: Deployment, s: System, u: string, v: string)
    requires SystemOk(s) && u in s.volumes && v in s.volumes && u in d.dir && v in d.dir
    requires d.dir[u] + "/" + u == d.dir[v] + "/" + v
    ensures u == v
  {
    IdHasNoSlash(s, u);
    IdHasNoSlash(s, v);
    SameLastComponent(d.dir[u], u, d.dir[v], v);
  }

  lemma PlanUuids(d: Deployment, s: System)
    requires SystemOk(s)
    ensures forall v :: v in PlanOf(d, s).context ==> IsUuid(NodeIdentity.UuidOf(PlanOf(d, s), v))
  {
    forall v | v in PlanOf(d, s).context
      ensures IsUuid(NodeIdentity.UuidOf(PlanOf(d, s), v))
    {
      ContextIsOwn(s, v);
    }
  }

  lemma PlanPaths(d: Deployment, s: System)
    requires SystemOk(s)
    ensures forall u, v :: u in s.contexts && v in s.contexts && u in d.dir && v in d.dir && u != v ==>
              d.dir[u] + "/" + u != d.dir[v] + "/" + v
  {
    forall u, v | u in s.contexts && v in s.contexts && u in d.dir && v in d.dir && d.dir[u] + "/" + u == d.dir[v] + "/" + v
      ensures u == v
    {
      ContextIsOwn(s, u);
      ContextIsOwn(s, v);
      StagingIsDistinct(d, s, u, v);
    }
  }

  lemma PlanIsOk(d: Deployment, s: System)
    requires Sound(d) && SystemOk(s)
    ensures NodeIdentity.PlanOk(PlanOf(d, s))
  {
    PlanUuids(d, s);
    PlanPaths(d, s);
  }

  /** The path publish joins is the path stage concatenated. */
  lemma JoinedIsStaged(d: Deployment, s: System, id: string)
    requires Sound(d) && SystemOk(s) && id in s.volumes && id in d.dir
    ensures Paths.Join(d.dir[id], id) == d.dir[id] + "/" + id
  {
    var r := s.volumes[id];
    assert RecordOk(id, r);
    VolumeIdentity.StagingPathsAgree(d.dir[id], VolumeIdentity.VolumeIdentifier(r.nsid, NqnOf(r), r.request.name));
  }

  lemma PlanHas(d: Deployment, s: System, end: System, id: string)
    requires Extends(s, end) && id in s.contexts && id in d.dir
    ensures var p := PlanOf(d, end);
            && id in p.staging && id in p.context && p.staging[id] == d.dir[id] + "/" + id && p.context[id] == s.contexts[id]
            && forall t :: t in d.owner && d.owner[t] == id ==> t in p.owner && p.owner[t] == id
  {
  }

  lemma AddressedBelongs(d: Deployment, s: System, end: System, id: string, call: Call)
    requires Sound(d) && SystemOk(s) && Extends(s, end) && Addressed(d, s, id, call)
    ensures NodeIdentity.Belongs(PlanOf(d, end), id, ToRequest(id, call))
  {
    ContextIsOwn(s, id);
    JoinedIsStaged(d, s, id);
    PlanHas(d, s, end, id);
  }

  /** A namespace that shows up is no other volume's namespace. */
  lemma NewsAtHome(d: Deployment, s: System, uuid: Text, nqn: Text)
    requires SystemOk(s) && uuid in s.issued && s.issued[uuid] == nqn
    ensures NodeIdentity.AtHome(PlanOf(d, s), uuid, nqn)
  {
    var p := PlanOf(d, s);
    forall v | v in p.context && NodeIdentity.UuidOf(p, v) == uuid
      ensures NodeIdentity.NqnOf(p, v) == nqn
    {
      ContextIsOwn(s, v);
      assert Held(s, v);
    }
  }

  lemma EventInOrder(d: Deployment, s: System, e: Event, end: System)
    requires Sound(d) && SystemOk(s) && SystemOk(end) && Extends(s, end) && InOrder(d, s, e)
    ensures e.Receive? ==>
              NodeIdentity.InOrder(PlanOf(d, end), s.course, NodeRuns.Arrive(e.id, ToRequest(e.id, e.call)))
    ensures e.Take? ==> NodeIdentity.InOrder(PlanOf(d, end), s.course, NodeRuns.Take(e.id, e.input))
  {
    if e.Receive? {
      AddressedBelongs(d, s, end, e.id, e.call);
    } else if e.Take? {
      forall k | 0 <= k < |e.input.news|
        ensures NodeIdentity.AtHome(PlanOf(d, end), e.input.news[k].uuid, e.input.news[k].nqn)
      {
        NewsAtHome(d, end, e.input.news[k].uuid, e.input.news[k].nqn);
      }
    }
  }

  lemma OneMoreEvent(p: NodeIdentity.Plan, s: System, e: Event, es: seq<Event>)
    requires NodeIdentity.FollowsLifecycle(p, Next(s, e).course, NodeEvents(es))
    requires e.Receive? ==> NodeIdentity.InOrder(p, s.course, NodeRuns.Arrive(e.id, ToRequest(e.id, e.call)))
    requires e.Take? ==> NodeIdentity.InOrder(p, s.course, NodeRuns.Take(e.id, e.input))
    ensures NodeIdentity.FollowsLifecycle(p, s.course, NodeEvents([e] + es))
  {
    assert ([e] + es)[1..] == es;
    if e.Receive? {
      NodeIdentity.FollowsOne(p, s.course, NodeRuns.Arrive(e.id, ToRequest(e.id, e.call)), NodeEvents(es));
    } else if e.Take? {
      NodeIdentity.FollowsOne(p, s.course, NodeRuns.Take(e.id, e.input), NodeEvents(es));
    }
  }

  lemma {:induction false} RunFollowsLifecycle(d: Deployment, s: System, es: seq<Event>)
    requires Sound(d) && SystemOk(s) && Orderly(d, s, es)
    ensures NodeIdentity.FollowsLifecycle(PlanOf(d, Run(s, es)), s.course, NodeEvents(es))
    decreases |es|
  {
    if es != [] {
      var e, rest, end := es[0], es[1..], Run(s, es);
      RunKeepsOk(d, s, es);
      NextKeepsSystemOk(d, s, e);
      EventInOrder(d, s, e, end);
      RunFollowsLifecycle(d, Next(s, e), rest);
      OneMoreEvent(PlanOf(d, end), s, e, rest);
      assert es == [e] + rest;
    }
  }

  // ---------------------------------------------------------------------
  // The results.

  /** Nothing has been created yet, and the node has just started. */
  ghost predicate Fresh(s: System) {
    && SystemOk(s) && s.volumes == map[] && s.contexts == map[] && s.course.ready == {}
    && s.course.world.handlers == map[] && s.course.world.host.mounts == map[] && s.course.world.host.byId == []
  }

  function Mounts(s: System, t: string): seq<Content> { Stack(s.course.world.host, t) }

  lemma PlanHolds(d: Deployment, s: System, es: seq<Event>)
    requires Sound(d) && Fresh(s) && Orderly(d, s, es)
    ensures NodeIdentity.Inv(PlanOf(d, Run(s, es)), Run(s, es).course) && SystemOk(Run(s, es))
  {
    var p := PlanOf(d, Run(s, es));
    RunKeepsOk(d, s, es);
    PlanIsOk(d, Run(s, es));
    NodeIdentity.FreshInv(p, s.course);
    RunFollowsLifecycle(d, s, es);
    NodeIdentity.TargetsShowTheirVolume(p, s.course, NodeEvents(es));
    CourseFollows(s, es);
  }

  /** `c` is the device of the namespace that the create in `r` added, still there unless a delete was executed on it. */
  ghost predicate ShowsOwn(s: System, id: string, c: Content) {
    && id in s.volumes
    && var r := s.volumes[id];
       && c.Device? && c.uuid == r.uuid && c.nqn == NqnOf(r)
       && (id !in s.struck ==> Controller.At(s.gateway, c.nqn, r.nsid) == Some(Controller.Ns(r.request.name, c.uuid)))
  }

  lemma MountIsOwn(d: Deployment, s: System, t: string, k: nat)
    requires SystemOk(s) && NodeIdentity.Inv(PlanOf(d, s), s.course) && t in d.owner && d.owner[t] in s.contexts && d.owner[t] in d.dir
    requires k < |Mounts(s, t)|
    ensures ShowsOwn(s, d.owner[t], Mounts(s, t)[k])
  {
    var p, id := PlanOf(d, s), d.owner[t];
    assert NodeIdentity.AllOf(p, Mounts(s, t), p.owner[t]);
    assert NodeIdentity.IsDeviceOf(p, Mounts(s, t)[k], id);
    ContextIsOwn(s, id);
    assert Held(s, id);
  }

  /**
   * In every orderly run, under any faults and interleavings, whatever is mounted on a
   * volume's target path is the device of the namespace that the volume's create added.
   */
  lemma TargetsShowOwnNamespace(d: Deployment, s: System, es: seq<Event>, t: string, k: nat)
    requires Sound(d) && Fresh(s) && Orderly(d, s, es)
    requires t in d.owner && k < |Mounts(Run(s, es), t)|
    ensures ShowsOwn(Run(s, es), d.owner[t], Mounts(Run(s, es), t)[k])
  {
    PlanHolds(d, s, es);
    if d.owner[t] !in Run(s, es).contexts {
      Untouched(d, s, es, t);
      assert false;
    }
    MountIsOwn(d, Run(s, es), t, k);
  }

  /** A target whose volume has not been published by the controller is left alone. */
  lemma {:induction false} Untouched(d: Deployment, s: System, es: seq<Event>, t: string)
    requires SystemOk(s) && Orderly(d, s, es) && t in d.owner && d.owner[t] !in Run(s, es).contexts && Sound(d)
    requires forall v :: v in s.course.world.handlers ==> s.course.world.handlers[v].request.path != t
    ensures Mounts(Run(s, es), t) == Mounts(s, t)
    decreases |es|
  {
    if es != [] {
      NextKeepsSystemOk(d, s, es[0]);
      RunKeepsOk(d, s, es);
      NextLeavesAlone(d, s, es[0], Run(s, es), t);
      Untouched(d, Next(s, es[0]), es[1..], t);
    }
  }

  lemma NextLeavesAlone(d: Deployment, s: System, e: Event, end: System, t: string)
    requires Sound(d) && InOrder(d, s, e) && Extends(s, end) && t in d.owner && d.owner[t] !in end.contexts
    requires forall v :: v in s.course.world.handlers ==> s.course.world.handlers[v].request.path != t
    ensures Mounts(Next(s, e), t) == Mounts(s, t)
    ensures var w := Next(s, e).course.world;
            forall v :: v in w.handlers ==> w.handlers[v].request.path != t
  {
    NextCourse(s, e);
    if e.Receive? {
      ElsewhereAddressed(d, s, e.id, e.call, t);
      CourseLeavesAlone(s.course, NodeRuns.Arrive(e.id, ToRequest(e.id, e.call)), t);
    } else if e.Take? {
      CourseLeavesAlone(s.course, NodeRuns.Take(e.id, e.input), t);
    }
  }

  lemma CourseLeavesAlone(c: NodeIdentity.Course, e: NodeRuns.Event, t: string)
    requires forall v :: v in c.world.handlers ==> c.world.handlers[v].request.path != t
    requires e.Arrive? ==> e.request.path != t
    ensures var w := NodeIdentity.Go(c, e).world;
            && Stack(w.host, t) == Stack(c.world.host, t)
            && forall v :: v in w.handlers ==> w.handlers[v].request.path != t
  {
    if e.Take? && NodeRuns.Busy(c.world, e.volume) {
      StepMountFrame(State(c.world.host, c.world.handlers[e.volume]), e.input, t);
    }
  }

  lemma ElsewhereAddressed(d: Deployment, s: System, id: string, call: Call, t: string)
    requires Sound(d) && Addressed(d, s, id, call) && t in d.owner && d.owner[t] !in s.contexts
    ensures ToRequest(id, call).path != t
  {
  }

  /** The targets of different volumes never show the same device. */
  lemma NoSharedDevice(d: Deployment, s: System, es: seq<Event>, t: string, k: nat, u: string, l: nat)
    requires Sound(d) && Fresh(s) && Orderly(d, s, es)
    requires t in d.owner && k < |Mounts(Run(s, es), t)| && u in d.owner && l < |Mounts(Run(s, es), u)|
    requires d.owner[t] != d.owner[u]
    ensures var c, e := Mounts(Run(s, es), t)[k], Mounts(Run(s, es), u)[l];
            c.Device? && e.Device? && c.uuid != e.uuid
  {
    TargetsShowOwnNamespace(d, s, es, t, k);
    TargetsShowOwnNamespace(d, s, es, u, l);
    RunKeepsOk(d, s, es);
  }

  /**
   * What is mounted on a target and works at some point of a run works at the end if and
   * only if no failed stage, of whichever volume, has disconnected its subsystem since.
   */
  lemma TargetsWork(d: Deployment, s: System, es: seq<Event>, later: seq<Event>, t: string, k: nat)
    requires Sound(d) && Fresh(s) && Orderly(d, s, es)
    requires t in d.owner && k < |Mounts(Run(s, es), t)|
    requires NodeIdentity.Live(Run(s, es).course.world.host, Mounts(Run(s, es), t)[k])
    ensures var c, mid, end := Mounts(Run(s, es), t)[k], Run(s, es), Run(Run(s, es), later);
            && ShowsOwn(mid, d.owner[t], c)
            && (NodeIdentity.Live(end.course.world.host, c)
                <==> NodeIdentity.NeverCutOff(mid.course.world, NodeEvents(later), c.nqn))
  {
    var mid := Run(s, es);
    TargetsShowOwnNamespace(d, s, es, t, k);
    CourseFollows(mid, later);
    NodeIdentity.FollowIsRun(mid.course, NodeEvents(later));
    NodeIdentity.LiveUntilCutOff(mid.course.world, NodeEvents(later), Mounts(mid, t)[k]);
  }

  /** And if none has disconnected it since the node started, everything on its targets works. */
  lemma UndisturbedTargetsWork(d: Deployment, s: System, es: seq<Event>, t: string, k: nat)
    requires Sound(d) && Fresh(s) && Orderly(d, s, es)
    requires t in d.owner && k < |Mounts(Run(s, es), t)|
    requires d.owner[t] in Run(s, es).volumes
    requires NodeIdentity.NeverCutOff(s.course.world, NodeEvents(es), NqnOf(Run(s, es).volumes[d.owner[t]]))
    ensures NodeIdentity.Live(Run(s, es).course.world.host, Mounts(Run(s, es), t)[k])
  {
    TargetsShowOwnNamespace(d, s, es, t, k);
    CourseFollows(s, es);
    NodeIdentity.FollowIsRun(s.course, NodeEvents(es));
    NodeIdentity.DevicesStayLive(s.course.world, NodeEvents(es), Mounts(Run(s, es), t)[k].nqn);
  }
}
