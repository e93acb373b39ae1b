/**
 * The whole system in one run: one gateway, the controller's requests on it, and the node
 * service that is handed the controller's answers.
 */
module WholeSystem {
  import opened Common
  import opened NodeProtocol
  import NodeRuns
  import opened NodeIdentity
  import opened Controller
  import VolumeIdentity
  import Paths

  /** The create that made a volume, the namespace the gateway gave it, and the controller's answer. */
  datatype Record = Record(request: CreateRequest, nsid: VolumeIdentity.Uint32, uuid: Text, volume: Volume)

  datatype System = System(
    gateway: Gateway,
    issued: map<Text, Text>,                    // every UUID ever given out, and its subsystem
    volumes: map<string, Record>,               // every volume ever created, by ID
    struck: set<string>,                        // those on whose NQN and NSID a delete has been executed
    contexts: map<string, map<string, Text>>,   // the publish contexts handed out
    course: Course)                             // the node

  /** The calls of the container orchestrator on the node. */
  datatype Call =
    | NodeStage(dir: string, context: map<string, Text>)
    | NodeUnstage(dir: string)
    | NodePublish(dir: string, target: string, block: bool)
    | NodeUnpublish(target: string)

  /** The paths the driver makes of them. */
  function ToRequest(id: string, call: Call): Request {
    match call
    case NodeStage(dir, context) => Stage(dir + "/" + id, context)
    case NodeUnstage(dir) => Unstage(dir + "/" + id)
    case NodePublish(dir, target, block) => NodeProtocol.Publish(Paths.Join(dir, id), target, block)
    case NodeUnpublish(target) => Unpublish(target)
  }

  /** A delete goes by what its ID decodes to (Controller.DeleteIsRemoved); one that cannot be decoded does nothing. */
  datatype Event =
    | CreateVolume(request: CreateRequest, nsid: VolumeIdentity.Uint32, uuid: Text, fault: Fault)
    | DeleteVolume(named: VolumeIdentity.VolumeIdentifier, fault: Fault)
    | PublishVolume(id: string, listing: seq<Ns>)
    | Receive(id: string, call: Call)
    | Take(id: string, input: Input)

  function NqnOf(r: Record): Text { SubsystemNqn(r.request) }

  function ContextOf(r: Record): map<string, Text> { PublishContext(r.volume.context, r.uuid) }

  predicate Accepted(s: System, r: CreateRequest, nsid: VolumeIdentity.Uint32, uuid: Text, f: Fault) {
    !f.Lost? && CanAdd(s.gateway, SubsystemNqn(r), nsid, Ns(r.name, uuid))
  }

  function AfterCreate(s: System, r: CreateRequest, nsid: VolumeIdentity.Uint32, uuid: Text, f: Fault): System {
    var step := Create(s.gateway, r, nsid, uuid, f);
    s.(gateway := step.gateway,
       issued := if Accepted(s, r, nsid, uuid, f) then s.issued[uuid := SubsystemNqn(r)] else s.issued,
       volumes := if step.result.Ok? then s.volumes[step.result.value.id := Record(r, nsid, uuid, step.result.value)] else s.volumes)
  }

  function AfterDelete(s: System, x: VolumeIdentity.VolumeIdentifier, f: Fault): System {
    s.(gateway := Removed(s.gateway, x, f),
       struck := s.struck +
         set v | v in s.volumes && !f.Lost? && NqnOf(s.volumes[v]) == x.nqn && s.volumes[v].nsid == x.nsid)
  }

  function AfterPublish(s: System, id: string, listing: seq<Ns>): System {
    if id !in s.volumes then s
    else
      var answer := Controller.Publish(Some(listing), s.volumes[id].volume.context);
      if answer.Ok? then s.(contexts := s.contexts[id := answer.value]) else s
  }

  function Next(s: System, e: Event): System {
    match e
    case CreateVolume(r, nsid, uuid, f) => AfterCreate(s, r, nsid, uuid, f)
    case DeleteVolume(x, f) => AfterDelete(s, x, f)
    case PublishVolume(id, listing) => AfterPublish(s, id, listing)
    case Receive(id, call) => s.(course := Go(s.course, NodeRuns.Arrive(id, ToRequest(id, call))))
    case Take(id, i) => s.(course := Go(s.course, NodeRuns.Take(id, i)))
  }

  /** The controller's requests do not touch the node, nor the node the controller. */
  lemma NextCourse(s: System, e: Event)
    ensures match e
            case Receive(id, call) => Next(s, e) == s.(course := Go(s.course, NodeRuns.Arrive(id, ToRequest(id, call))))
            case Take(id, i) => Next(s, e) == s.(course := Go(s.course, NodeRuns.Take(id, i)))
            case _ => Next(s, e).course == s.course
  {
  }

  function Run(s: System, es: seq<Event>): System
    decreases |es|
  {
    if es == [] then s else Run(Next(s, es[0]), es[1..])
  }

  // ---------------------------------------------------------------------
  // What the orchestrator and the world keep to.

  /** The staging directory of each volume, and the volume of each target path. */
  datatype Deployment = Deployment(dir: map<string, string>, owner: map<string, string>)

  ghost predicate Sound(d: Deployment) {
    && (forall id :: id in d.dir ==> Paths.Clean(d.dir[id]) == d.dir[id] && d.dir[id] != "/" && d.dir[id] != ".")
    && (forall t :: t in d.owner ==> d.owner[t] in d.dir)
    && (forall t, id :: t in d.owner && id in d.dir ==> d.dir[id] + "/" + id != t)
  }

  /** A call passes what the controller answered, the volume's staging directory and one of its targets. */
  predicate Addressed(d: Deployment, s: System, id: string, call: Call) {
    id in s.contexts && id in d.dir &&
    match call
    case NodeStage(dir, context) => dir == d.dir[id] && context == s.contexts[id]
    case NodeUnstage(dir) => dir == d.dir[id]
    case NodePublish(dir, target, _) => dir == d.dir[id] && target in d.owner && d.owner[target] == id
    case NodeUnpublish(target) => target in d.owner && d.owner[target] == id
  }

  /**
   * - The gateway gives out new UUIDs, names are plain, parameters leave "nqn" and "image"
   *   alone, and a volume ID does not recur.
   * - A volume is published by the controller only while no delete has been executed on its
   *   namespace, and the listing is the gateway's.
   * - Node calls are addressed properly, and a volume is published only while it is staged.
   * - What shows up in a connection is a namespace the gateway has made in that subsystem.
   * Deletes are not restricted at all.
   */
  ghost predicate InOrder(d: Deployment, s: System, e: Event) {
    match e
    case CreateVolume(r, nsid, uuid, _) =>
      && uuid !in s.issued && KeepsContext(r) && NewVolume(r, nsid).id !in s.volumes
      && VolumeIdentity.AllPlain(r.name) && VolumeIdentity.AllPlain(SubsystemNqn(r))
    case DeleteVolume(_, _) => true
    case PublishVolume(id, listing) =>
      && id in s.volumes && id !in s.struck
      && IsListing(listing, s.gateway, Get(s.volumes[id].volume.context, "nqn"))
    case Receive(id, call) => Addressed(d, s, id, call) && (call.NodePublish? ==> id in s.course.ready)
    case Take(_, i) => forall k :: 0 <= k < |i.news| ==> i.news[k].uuid in s.issued && s.issued[i.news[k].uuid] == i.news[k].nqn
  }

  ghost predicate Orderly(d: Deployment, s: System, es: seq<Event>)
    decreases |es|
  {
    es == [] || (InOrder(d, s, es[0]) && Orderly(d, Next(s, es[0]), es[1..]))
  }

  // ---------------------------------------------------------------------
  // What every orderly run keeps.

  ghost predicate IssuedOk(s: System) {
    forall q, n :: At(s.gateway, q, n).Some? ==>
      var u := At(s.gateway, q, n).value.uuid;
      u in s.issued && s.issued[u] == q
  }

  /** What does not change about a volume. */
  ghost predicate RecordOk(id: string, r: Record) {
    && id == r.volume.id && r.volume == NewVolume(r.request, r.nsid)
    && KeepsContext(r.request) && IsUuid(r.uuid)
    && VolumeIdentity.AllPlain(r.request.name) && VolumeIdentity.AllPlain(NqnOf(r))
  }

  ghost predicate Held(s: System, id: string)
    requires id in s.volumes
  {
    var r := s.volumes[id];
    && r.uuid in s.issued && s.issued[r.uuid] == NqnOf(r)
    && (id !in s.struck ==> At(s.gateway, NqnOf(r), r.nsid) == Some(Ns(r.request.name, r.uuid)))
  }

  ghost predicate VolumesOk(s: System) {
    forall id :: id in s.volumes ==> RecordOk(id, s.volumes[id]) && Held(s, id)
  }

  ghost predicate UuidsDiffer(s: System) {
    forall u, v :: u in s.volumes && v in s.volumes && u != v ==> s.volumes[u].uuid != s.volumes[v].uuid
  }

  predicate Fits(context: map<string, Text>, r: Record) { context == ContextOf(r) }

  ghost predicate ContextsOk(s: System) {
    forall id :: id in s.contexts ==> id in s.volumes && Fits(s.contexts[id], s.volumes[id])
  }

  ghost predicate SystemOk(s: System) {
    GatewayOk(s.gateway) && IssuedOk(s) && VolumesOk(s) && UuidsDiffer(s) && ContextsOk(s)
  }

  /** Nothing is forgotten, and no answer is taken back. */
  ghost predicate Extends(s: System, t: System) {
    && (forall u :: u in s.issued ==> u in t.issued && t.issued[u] == s.issued[u])
    && (forall id :: id in s.volumes ==> id in t.volumes && t.volumes[id] == s.volumes[id])
    && (forall id :: id in s.contexts ==> id in t.contexts && t.contexts[id] == s.contexts[id])
  }

  lemma CreateKeepsIssued(s: System, r: CreateRequest, nsid: VolumeIdentity.Uint32, uuid: Text, f: Fault)
    requires SystemOk(s) && uuid !in s.issued
    ensures var t := AfterCreate(s, r, nsid, uuid, f);
            && GatewayOk(t.gateway) && IssuedOk(t)
            && (Create(s.gateway, r, nsid, uuid, f).result.Ok? ==>
                  && IsUuid(uuid) && uuid in t.issued && t.issued[uuid] == SubsystemNqn(r)
                  && At(t.gateway, SubsystemNqn(r), nsid) == Some(Ns(r.name, uuid)))
            && (forall u :: u in s.issued ==> u in t.issued && t.issued[u] == s.issued[u])
            && (forall q, n :: At(s.gateway, q, n).Some? ==> At(t.gateway, q, n) == At(s.gateway, q, n))
  {
    var t := AfterCreate(s, r, nsid, uuid, f);
    if Accepted(s, r, nsid, uuid, f) {
      AddKeepsOk(s.gateway, SubsystemNqn(r), nsid, Ns(r.name, uuid));
      AddAt(s.gateway, SubsystemNqn(r), nsid, Ns(r.name, uuid));
      AddIssued(s, t, SubsystemNqn(r), nsid, Ns(r.name, uuid));
    } else {
      assert t.gateway == s.gateway && t.issued == s.issued;
    }
  }

  lemma AddIssued(s: System, t: System, nqn: Text, nsid: VolumeIdentity.Uint32, ns: Ns)
    requires IssuedOk(s) && ns.uuid !in s.issued && t.issued == s.issued[ns.uuid := nqn]
    requires forall q, n :: At(t.gateway, q, n) == if q == nqn && n == nsid then Some(ns) else At(s.gateway, q, n)
    ensures IssuedOk(t)
  {
  }

  /** A volume that is there stays as it is when the gateway gains something. */
  lemma VolumeStays(s: System, t: System, id: string)
    requires id in s.volumes && Held(s, id) && id in t.volumes && t.volumes[id] == s.volumes[id] && t.struck == s.struck
    requires forall u :: u in s.issued ==> u in t.issued && t.issued[u] == s.issued[u]
    requires forall q, n :: At(s.gateway, q, n).Some? ==> At(t.gateway, q, n) == At(s.gateway, q, n)
    ensures Held(t, id)
  {
  }

  lemma CreateKeepsVolumes(d: Deployment, s: System, e: Event)
    requires SystemOk(s) && e.CreateVolume? && InOrder(d, s, e)
    ensures VolumesOk(Next(s, e))
  {
    var t := Next(s, e);
    CreateKeepsIssued(s, e.request, e.nsid, e.uuid, e.fault);
    CreateAdds(d, s, e);
    forall id | id in t.volumes
      ensures RecordOk(id, t.volumes[id]) && Held(t, id)
    {
      if id in s.volumes {
        OneMoreKeeps(s, t, e.uuid, id);
        assert RecordOk(id, s.volumes[id]) && Held(s, id);
        VolumeStays(s, t, id);
      } else {
        NewVolumeOk(d, s, e, id);
      }
    }
  }

  lemma NewVolumeOk(d: Deployment, s: System, e: Event, id: string)
    requires SystemOk(s) && e.CreateVolume? && InOrder(d, s, e) && id in Next(s, e).volumes && id !in s.volumes
    ensures RecordOk(id, Next(s, e).volumes[id]) && Held(Next(s, e), id)
  {
    CreateKeepsIssued(s, e.request, e.nsid, e.uuid, e.fault);
    assert Next(s, e).volumes[id] == Record(e.request, e.nsid, e.uuid, NewVolume(e.request, e.nsid));
  }

  /** What a create adds to the volumes, if anything. */
  lemma CreateAdds(d: Deployment, s: System, e: Event)
    requires e.CreateVolume? && InOrder(d, s, e)
    ensures var t := Next(s, e);
            && t.struck == s.struck && t.contexts == s.contexts
            && OneMore(s, t, e.uuid)
  {
    var r := Record(e.request, e.nsid, e.uuid, NewVolume(e.request, e.nsid));
    assert r.volume.id !in s.volumes;
  }

  /** The volumes of `t` are those of `s` and perhaps one with a new UUID. */
  ghost predicate OneMore(s: System, t: System, uuid: Text) {
    t.volumes == s.volumes
    || exists r: Record :: r.uuid == uuid && r.volume.id !in s.volumes && t.volumes == s.volumes[r.volume.id := r]
  }

  lemma OneMoreKeeps(s: System, t: System, uuid: Text, id: string)
    requires OneMore(s, t, uuid) && id in s.volumes
    ensures id in t.volumes && t.volumes[id] == s.volumes[id]
  {
  }

  lemma OneMoreDiffers(s: System, t: System, uuid: Text)
    requires UuidsDiffer(s) && OneMore(s, t, uuid) && forall v :: v in s.volumes ==> s.volumes[v].uuid != uuid
    ensures UuidsDiffer(t)
  {
  }

  lemma OneMoreExtends(s: System, t: System, uuid: Text)
    requires ContextsOk(s) && OneMore(s, t, uuid) && t.contexts == s.contexts
    requires forall u :: u in s.issued ==> u in t.issued && t.issued[u] == s.issued[u]
    ensures ContextsOk(t) && Extends(s, t)
  {
  }

  lemma UuidIsNew(s: System, uuid: Text)
    requires VolumesOk(s) && uuid !in s.issued
    ensures forall v :: v in s.volumes ==> s.volumes[v].uuid != uuid
  {
    forall v | v in s.volumes
      ensures s.volumes[v].uuid != uuid
    {
      assert Held(s, v);
    }
  }

  lemma CreateKeepsOk(d: Deployment, s: System, e: Event)
    requires SystemOk(s) && e.CreateVolume? && InOrder(d, s, e)
    ensures SystemOk(Next(s, e)) && Extends(s, Next(s, e))
  {
    CreateKeepsIssued(s, e.request, e.nsid, e.uuid, e.fault);
    CreateKeepsVolumes(d, s, e);
    CreateAdds(d, s, e);
    UuidIsNew(s, e.uuid);
    OneMoreDiffers(s, Next(s, e), e.uuid);
    OneMoreExtends(s, Next(s, e), e.uuid);
  }

  lemma AddAt(g: Gateway, nqn: Text, nsid: VolumeIdentity.Uint32, ns: Ns)
    requires nqn in g
    ensures forall q, n :: At(Add(g, nqn, nsid, ns), q, n) == if q == nqn && n == nsid then Some(ns) else At(g, q, n)
  {
  }

  lemma DeleteKeepsOk(s: System, e: Event)
    requires SystemOk(s) && e.DeleteVolume?
    ensures SystemOk(Next(s, e)) && Extends(s, Next(s, e))
  {
    var t := Next(s, e);
    if !e.fault.Lost? {
      WithoutKeepsOk(s.gateway, e.named.nqn, e.named.nsid);
      WithoutAt(s.gateway, e.named.nqn, e.named.nsid);
    }
    forall id | id in t.volumes
      ensures RecordOk(id, t.volumes[id]) && Held(t, id)
    {
      assert RecordOk(id, s.volumes[id]) && Held(s, id);
    }
  }

  lemma WithoutAt(g: Gateway, nqn: Text, nsid: VolumeIdentity.Uint32)
    ensures forall q, n :: At(Without(g, nqn, nsid), q, n) == if q == nqn && n == nsid then None else At(g, q, n)
  {
  }

  /** The controller's answer for a volume whose namespace is still there. */
  lemma AnswerIsOwn(s: System, id: string, listing: seq<Ns>)
    requires GatewayOk(s.gateway) && id in s.volumes && RecordOk(id, s.volumes[id]) && Held(s, id) && id !in s.struck
    requires IsListing(listing, s.gateway, Get(s.volumes[id].volume.context, "nqn"))
    ensures Controller.Publish(Some(listing), s.volumes[id].volume.context) == Ok(ContextOf(s.volumes[id]))
  {
    var r := s.volumes[id];
    var context := r.volume.context;
    ContextKept(r.request, r.nsid);
    LookUp(s.gateway, listing, Get(context, "nqn"), Get(context, "image"), NqnOf(r), r.nsid);
  }

  /** What the node is handed, in terms of the create: its own subsystem, address and transport, and the UUID it was given. */
  lemma HandedOver(s: System, id: string)
    requires SystemOk(s) && id in s.contexts
    ensures id in s.volumes
    ensures var context, r := s.contexts[id], s.volumes[id];
            && context.Keys == {"uuid", "nqn", "traddr", "trsvcid", "transport"}
            && context["uuid"] == r.uuid && context["nqn"] == Get(r.request.parameters, "SubsystemNqn")
            && context["traddr"] == Get(r.request.parameters, "traddr")
            && context["trsvcid"] == Get(r.request.parameters, "trsvcid")
            && context["transport"] == Get(r.request.parameters, "transport")
  {
    var r := s.volumes[id];
    assert Fits(s.contexts[id], r) && RecordOk(id, r);
    ContextKept(r.request, r.nsid);
    RecordHandsOver(r);
  }

  lemma RecordHandsOver(r: Record)
    requires r.volume == NewVolume(r.request, r.nsid)
    ensures var context := ContextOf(r);
            && HandsOver(r.volume.context, context) && context["uuid"] == r.uuid
            && context["traddr"] == Get(r.request.parameters, "traddr")
            && context["trsvcid"] == Get(r.request.parameters, "trsvcid")
            && context["transport"] == Get(r.request.parameters, "transport")
  {
    ContextMeans(r.request);
  }

  lemma PublishKeepsOk(d: Deployment, s: System, e: Event)
    requires SystemOk(s) && e.PublishVolume? && InOrder(d, s, e)
    ensures SystemOk(Next(s, e)) && Extends(s, Next(s, e))
    ensures Next(s, e) == s.(contexts := s.contexts[e.id := ContextOf(s.volumes[e.id])])
  {
    assert RecordOk(e.id, s.volumes[e.id]) && Held(s, e.id);
    AnswerIsOwn(s, e.id, e.listing);
    NewContext(s, e.id);
  }

  lemma NewContext(s: System, id: string)
    requires SystemOk(s) && id in s.volumes
    ensures var t := s.(contexts := s.contexts[id := ContextOf(s.volumes[id])]);
            SystemOk(t) && Extends(s, t)
  {
    var context := ContextOf(s.volumes[id]);
    var t := s.(contexts := s.contexts[id := context]);
    assert Fits(context, s.volumes[id]);
    assert id in s.contexts ==> s.contexts[id] == context;
    OthersHeld(s, t);
    ContextAdded(s, t, id, context);
  }

  lemma OthersHeld(s: System, t: System)
    requires VolumesOk(s) && t.volumes == s.volumes && t.struck == s.struck && t.issued == s.issued && t.gateway == s.gateway
    ensures VolumesOk(t)
  {
    forall v | v in t.volumes
      ensures RecordOk(v, t.volumes[v]) && Held(t, v)
    {
      VolumeStays(s, t, v);
    }
  }

  lemma ContextAdded(s: System, t: System, id: string, context: map<string, Text>)
    requires ContextsOk(s) && id in s.volumes && Fits(context, s.volumes[id]) && (id in s.contexts ==> s.contexts[id] == context)
    requires t == s.(contexts := s.contexts[id := context])
    ensures ContextsOk(t) && Extends(s, t)
  {
  }

  lemma NextKeepsSystemOk(d: Deployment, s: System, e: Event)
    requires SystemOk(s) && InOrder(d, s, e)
    ensures SystemOk(Next(s, e)) && Extends(s, Next(s, e))
  {
    match e {
      case CreateVolume(_, _, _, _) => CreateKeepsOk(d, s, e);
      case DeleteVolume(_, _) => DeleteKeepsOk(s, e);
      case PublishVolume(_, _) => PublishKeepsOk(d, s, e);
      case Receive(_, _) => NodeKeepsOk(s, Next(s, e).course);
      case Take(_, _) => NodeKeepsOk(s, Next(s, e).course);
    }
  }

  lemma NodeKeepsOk(s: System, c: Course)
    requires SystemOk(s)
    ensures SystemOk(s.(course := c)) && Extends(s, s.(course := c))
  {
    OthersHeld(s, s.(course := c));
  }

  lemma {:induction false} RunKeepsOk(d: Deployment, s: System, es: seq<Event>)
    requires SystemOk(s) && Orderly(d, s, es)
    ensures SystemOk(Run(s, es)) && Extends(s, Run(s, es))
    decreases |es|
  {
    if es != [] {
      NextKeepsSystemOk(d, s, es[0]);
      RunKeepsOk(d, Next(s, es[0]), es[1..]);
    }
  }

  lemma {:induction false} RunConcat(s: System, es: seq<Event>, fs: seq<Event>)
    ensures Run(s, es + fs) == Run(Run(s, es), fs)
    decreases |es|
  {
    if es == [] {
      assert es + fs == fs;
    } else {
      var s1 := Next(s, es[0]);
      assert (es + fs)[0] == es[0] && (es + fs)[1..] == es[1..] + fs;
      assert Run(s, es) == Run(s1, es[1..]) && Run(s, es + fs) == Run(s1, es[1..] + fs);
      RunConcat(s1, es[1..], fs);
    }
  }

  lemma OrderlyOne(d: Deployment, s: System, e: Event, es: seq<Event>)
    requires InOrder(d, s, e) && Orderly(d, Next(s, e), es)
    ensures Orderly(d, s, [e] + es)
  {
    assert ([e] + es)[1..] == es;
  }

  lemma RunOne(s: System, e: Event, es: seq<Event>)
    ensures Run(s, [e] + es) == Run(Next(s, e), es)
  {
    assert ([e] + es)[1..] == es;
  }

  lemma {:induction false} OrderlyConcat(d: Deployment, s: System, es: seq<Event>, fs: seq<Event>)
    requires Orderly(d, s, es) && Orderly(d, Run(s, es), fs)
    ensures Orderly(d, s, es + fs)
    decreases |es|
  {
    if es == [] {
      assert es + fs == fs;
    } else {
      var s1 := Next(s, es[0]);
      assert Run(s, es) == Run(s1, es[1..]);
      OrderlyConcat(d, s1, es[1..], fs);
      OrderlyOne(d, s, es[0], es[1..] + fs);
      assert [es[0]] + (es[1..] + fs) == es + fs;
    }
  }
}
