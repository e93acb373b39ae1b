/** Orderly runs exist: every create the gateway accepts can be brought to a free target path. */
module Delivery {
  import opened Common
  import opened NodeProtocol
  import NodeRuns
  import NodeIdentity
  import NodeRetries
  import NodeLifecycle
  import Initiator
  import Controller
  import VolumeIdentity
  import opened WholeSystem
  import EndToEnd

  /** Steps of one volume, all without faults and with the same news. */
  function Steps(id: string, news: seq<Initiator.Arrival>, n: nat): seq<Event> {
    if n == 0 then [] else [Take(id, Input(NoFault, {}, news))] + Steps(id, news, n - 1)
  }

  lemma {:induction false} ScriptSteps(id: string, s: State, news: seq<Initiator.Arrival>)
    ensures var script := NodeRuns.Script(id, s, NodeRetries.CalmWith(news));
            EndToEnd.NodeEvents(Steps(id, news, |script|)) == script
    decreases Rank(s.handler.pc)
  {
    if !s.handler.pc.Done? {
      var i := Input(NoFault, {}, news);
      var rest := NodeRuns.Script(id, Step(s, i), NodeRetries.CalmWith(news));
      ScriptSteps(id, Step(s, i), news);
      var steps := Steps(id, news, 1 + |rest|);
      assert steps[0] == Take(id, i) && steps[1..] == Steps(id, news, |rest|);
    }
  }

  ghost predicate Issued(s: System, news: seq<Initiator.Arrival>) {
    forall k :: 0 <= k < |news| ==> news[k].uuid in s.issued && s.issued[news[k].uuid] == news[k].nqn
  }

  lemma {:induction false} StepsAreOrderly(d: Deployment, s: System, id: string, news: seq<Initiator.Arrival>, n: nat)
    requires Issued(s, news)
    ensures var es := Steps(id, news, n);
            Orderly(d, s, es) && Run(s, es) == s.(course := Run(s, es).course)
    decreases n
  {
    if n > 0 {
      var es, e := Steps(id, news, n), Take(id, Input(NoFault, {}, news));
      assert es[0] == e && es[1..] == Steps(id, news, n - 1);
      NextCourse(s, e);
      StepsAreOrderly(d, Next(s, e), id, news, n - 1);
    }
  }

  /** The events of one call served from beginning to end, with nobody else around and nothing failing. */
  function CallEvents(s: System, id: string, call: Call, news: seq<Initiator.Arrival>): seq<Event> {
    var start := State(s.course.world.host, Begin(ToRequest(id, call)));
    [Receive(id, call)] + Steps(id, news, |NodeRuns.Script(id, start, NodeRetries.CalmWith(news))|)
  }

  lemma Serve(d: Deployment, s: System, id: string, call: Call, news: seq<Initiator.Arrival>)
    requires !NodeRuns.Busy(s.course.world, id) && InOrder(d, s, Receive(id, call)) && Issued(s, news)
    ensures var es := CallEvents(s, id, call, news);
            Orderly(d, s, es) && Run(s, es) == s.(course := Run(s, es).course)
    ensures var done := NodeLifecycle.Served(s.course.world.host, ToRequest(id, call), news);
            var c := Run(s, CallEvents(s, id, call, news)).course;
            && c.world == NodeRuns.World(done.host, s.course.world.handlers[id := done.handler])
            && (call.NodeStage? && done.handler.pc == Done(Success) ==> id in c.ready)
  {
    var r, s1 := ToRequest(id, call), Next(s, Receive(id, call));
    var start := State(s.course.world.host, Begin(r));
    var script := NodeRuns.Script(id, start, NodeRetries.CalmWith(news));
    var steps := Steps(id, news, |script|);
    NextCourse(s, Receive(id, call));
    StepsAreOrderly(d, s1, id, news, |script|);
    ScriptSteps(id, start, news);
    EndToEnd.CourseFollows(s1, steps);
    NodeIdentity.FollowServed(s.course, id, r, NodeRetries.CalmWith(news));
    assert CallEvents(s, id, call, news)[1..] == steps;
  }

  /** A create that is accepted, and the controller's publish after it. */
  function Provision(r: Record, listing: seq<Controller.Ns>): seq<Event> {
    [CreateVolume(r.request, r.nsid, r.uuid, NoFault), PublishVolume(r.volume.id, listing)]
  }

  lemma Provide(d: Deployment, s: System, r: Record, listing: seq<Controller.Ns>)
    requires SystemOk(s) && s.volumes == map[] && s.struck == {} && RecordOk(r.volume.id, r) && r.uuid !in s.issued
    requires Controller.CanAdd(s.gateway, NqnOf(r), r.nsid, Controller.Ns(r.request.name, r.uuid))
    requires Controller.IsListing(listing, Controller.Add(s.gateway, NqnOf(r), r.nsid, Controller.Ns(r.request.name, r.uuid)),
                                  Get(r.volume.context, "nqn"))
    ensures var es := Provision(r, listing);
            InOrder(d, s, es[0]) && InOrder(d, Next(s, es[0]), es[1])
    ensures var t := Next(Next(s, Provision(r, listing)[0]), Provision(r, listing)[1]);
            && SystemOk(t) && t.course == s.course
            && r.volume.id in t.volumes && t.volumes[r.volume.id] == r
            && r.volume.id in t.contexts && t.contexts[r.volume.id] == ContextOf(r)
  {
    var create, publish := Provision(r, listing)[0], Provision(r, listing)[1];
    CreateAlone(d, s, r);
    CreateKeepsOk(d, s, create);
    PublishKeepsOk(d, Next(s, create), publish);
  }

  lemma CreateAlone(d: Deployment, s: System, r: Record)
    requires s.volumes == map[] && RecordOk(r.volume.id, r) && r.uuid !in s.issued
    requires Controller.CanAdd(s.gateway, NqnOf(r), r.nsid, Controller.Ns(r.request.name, r.uuid))
    ensures var create := CreateVolume(r.request, r.nsid, r.uuid, NoFault);
            var t := Next(s, create);
            && InOrder(d, s, create) && t.volumes == map[r.volume.id := r]
            && t.gateway == Controller.Add(s.gateway, NqnOf(r), r.nsid, Controller.Ns(r.request.name, r.uuid))
            && t.course == s.course && t.struck == s.struck
  {
    assert s.volumes[r.volume.id := r] == map[r.volume.id := r];
  }

  lemma TwoThen(d: Deployment, s: System, e: Event, f: Event, rest: seq<Event>)
    requires InOrder(d, s, e) && InOrder(d, Next(s, e), f) && Orderly(d, Next(Next(s, e), f), rest)
    ensures Orderly(d, s, [e, f] + rest) && Run(s, [e, f] + rest) == Run(Next(Next(s, e), f), rest)
  {
    OrderlyOne(d, Next(s, e), f, rest);
    RunOne(Next(s, e), f, rest);
    OrderlyOne(d, s, e, [f] + rest);
    RunOne(s, e, [f] + rest);
    assert [e] + ([f] + rest) == [e, f] + rest;
  }

  /**
   * For every create the gateway accepts and every free target path there is an orderly run
   * at whose end exactly the volume's own device is on the target.
   */
  lemma VolumeReachesTarget(d: Deployment, s: System, r: Record, listing: seq<Controller.Ns>, target: string)
    returns (es: seq<Event>)
    requires Sound(d) && EndToEnd.Fresh(s) && s.struck == {} && RecordOk(r.volume.id, r) && r.uuid !in s.issued
    requires Controller.CanAdd(s.gateway, NqnOf(r), r.nsid, Controller.Ns(r.request.name, r.uuid))
    requires Controller.IsListing(listing, Controller.Add(s.gateway, NqnOf(r), r.nsid, Controller.Ns(r.request.name, r.uuid)),
                                  Get(r.volume.context, "nqn"))
    requires r.volume.id in d.dir && target in d.owner && d.owner[target] == r.volume.id && Complete(ContextOf(r))
    requires NodeLifecycle.RoomFor(s.course.world.host, d.dir[r.volume.id] + "/" + r.volume.id, target)
    ensures Orderly(d, s, es)
    ensures EndToEnd.Mounts(Run(s, es), target) == [Device(r.uuid, NqnOf(r), Epoch(s.course.world.host, NqnOf(r)))]
  {
    var e, f := Provision(r, listing)[0], Provision(r, listing)[1];
    Provide(d, s, r, listing);
    var deliver := Deliver(d, Next(Next(s, e), f), r, target);
    TwoThen(d, s, e, f, deliver);
    es := [e, f] + deliver;
  }

  lemma Deliver(d: Deployment, s: System, r: Record, target: string) returns (es: seq<Event>)
    requires Sound(d) && SystemOk(s) && r.volume.id in s.volumes && s.volumes[r.volume.id] == r
    requires r.volume.id in s.contexts && s.contexts[r.volume.id] == ContextOf(r)
    requires s.course.world.handlers == map[] && s.course.world.host.byId == []
    requires r.volume.id in d.dir && target in d.owner && d.owner[target] == r.volume.id && Complete(ContextOf(r))
    requires NodeLifecycle.RoomFor(s.course.world.host, d.dir[r.volume.id] + "/" + r.volume.id, target)
    ensures Orderly(d, s, es)
    ensures EndToEnd.Mounts(Run(s, es), target) == [Device(r.uuid, NqnOf(r), Epoch(s.course.world.host, NqnOf(r)))]
  {
    var id, dir := r.volume.id, d.dir[r.volume.id];
    assert RecordOk(id, r);
    OnTheNode(s.course.world.host, r, dir + "/" + id, target);
    var stage := DeliverStage(d, s, r);
    var s1 := Run(s, stage);
    NodeKeepsOk(s, s1.course);
    var publish := DeliverPublish(d, s1, id, target);
    es := stage + publish;
    RunConcat(s, stage, publish);
    OrderlyConcat(d, s, stage, publish);
  }

  function NewsOf(r: Record): seq<Initiator.Arrival> { [Initiator.Arrival(r.uuid, NqnOf(r), [])] }

  lemma DeliverStage(d: Deployment, s: System, r: Record) returns (es: seq<Event>)
    requires SystemOk(s) && r.volume.id in s.volumes && s.volumes[r.volume.id] == r && r.volume.id in d.dir
    requires r.volume.id in s.contexts && s.contexts[r.volume.id] == ContextOf(r) && s.course.world.handlers == map[]
    ensures Orderly(d, s, es) && Run(s, es) == s.(course := Run(s, es).course)
    ensures var staging := d.dir[r.volume.id] + "/" + r.volume.id;
            var done := NodeLifecycle.Served(s.course.world.host, Stage(staging, ContextOf(r)), NewsOf(r));
            var c := Run(s, es).course;
            && c.world == NodeRuns.World(done.host, map[r.volume.id := done.handler])
            && (done.handler.pc == Done(Success) ==> r.volume.id in c.ready)
  {
    assert Held(s, r.volume.id);
    es := CallEvents(s, r.volume.id, NodeStage(d.dir[r.volume.id], s.contexts[r.volume.id]), NewsOf(r));
    Serve(d, s, r.volume.id, NodeStage(d.dir[r.volume.id], s.contexts[r.volume.id]), NewsOf(r));
  }

  lemma DeliverPublish(d: Deployment, s: System, id: string, target: string) returns (es: seq<Event>)
    requires Sound(d) && SystemOk(s) && id in s.contexts && id in d.dir && target in d.owner && d.owner[target] == id
    requires !NodeRuns.Busy(s.course.world, id) && id in s.course.ready
    ensures Orderly(d, s, es)
    ensures Run(s, es).course.world.host ==
              NodeLifecycle.Served(s.course.world.host, Publish(d.dir[id] + "/" + id, target, true), []).host
  {
    EndToEnd.ContextIsOwn(s, id);
    EndToEnd.JoinedIsStaged(d, s, id);
    es := CallEvents(s, id, NodePublish(d.dir[id], target, true), []);
    Serve(d, s, id, NodePublish(d.dir[id], target, true), []);
  }

  /** What the node makes of the two calls. */
  lemma OnTheNode(h: Host, r: Record, staging: string, target: string)
    requires RecordOk(r.volume.id, r) && Complete(ContextOf(r)) && h.byId == []
    requires NodeLifecycle.RoomFor(h, staging, target)
    ensures var a := NodeLifecycle.Served(h, Stage(staging, ContextOf(r)), NewsOf(r));
            var b := NodeLifecycle.Served(a.host, Publish(staging, target, true), []);
            && a.handler.pc == b.handler.pc == Done(Success)
            && Stack(b.host, target) == [Device(r.uuid, NqnOf(r), Epoch(h, NqnOf(r)))]
  {
    var news, context := NewsOf(r), ContextOf(r);
    EndToEnd.RecordContext(r.volume.id, r);
    NodeLifecycle.ArrivalShowsUp(h, context, []);
    NodeLifecycle.Bringing(h, staging, target, context, news);
    NodeLifecycle.BroughtFacts(h, staging, target, context, news);
  }
}
