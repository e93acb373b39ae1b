/**
 * The four node RPCs (pkg/driver/nodeserver.go) as a small-step machine over the
 * mount table, the file tree and the NVMe connections of one host. One step is
 * one system call, one run of the nvme command or one look at /dev/disk/by-id.
 */
module NodeProtocol {
  import opened Common
  import opened Paths
  import Initiator

  /**
   * What a mount shows: a namespace's block device, as attached in one connection of its
   * NQN; what another link of that namespace leads to; or a plain file.
   */
  datatype Content =
    | Device(uuid: Text, nqn: Text, epoch: nat)
    | Alias(uuid: Text, suffix: Text, nqn: Text, epoch: nat)
    | Plain(path: string)

  datatype Host = Host(
    files: set<string>,
    dirs: set<string>,
    mounts: map<string, seq<Content>>,   // what is mounted on a path, oldest first
    connected: set<Text>,
    epochs: map<Text, nat>,              // how often an NQN has been disconnected
    byId: seq<Initiator.Link>)           // the links under /dev/disk/by-id

  datatype Code = Internal | InvalidArgument

  datatype Outcome = Success | Failed(code: Code)

  datatype Request =
    | Stage(path: string, context: map<string, Text>)
    | Unstage(path: string)
    | Publish(source: string, path: string, block: bool)
    | Unpublish(path: string)

  datatype Pc =
    | Done(outcome: Outcome)
    | StageCheck | Initiate | Connect | AwaitDevice(left: nat) | Disconnect
    | UnstageCheck
    | Capability
    | PointCheck | PointDirs | PointFile | Bind
    | DropCheck | DropMount | DropFile | DropDir

  /**
   * A request being served: the link that Connect found, and a record of what its own
   * steps have done so far: whether Disconnect was run, and how the bind mount that took
   * effect was answered.
   */
  datatype Handler = Handler(request: Request, pc: Pc, link: Option<Text>, disconnected: bool, bound: Option<Fault>)

  /**
   * The world's part in one step: the fate of the call, the further NQNs that connect-all
   * finds, and the namespaces that show up before a look at the links.
   */
  datatype Input = Input(fault: Fault, also: set<Text>, news: seq<Initiator.Arrival>)

  datatype State = State(host: Host, handler: Handler)

  // ---------------------------------------------------------------------
  // The host.

  function Stack(h: Host, p: string): seq<Content> {
    if p in h.mounts then h.mounts[p] else []
  }

  predicate Exists(h: Host, p: string) { p in h.files || p in h.dirs }

  predicate IsMountPoint(h: Host, p: string) { Stack(h, p) != [] }

  function Epoch(h: Host, nqn: Text): nat {
    if nqn in h.epochs then h.epochs[nqn] else 0
  }

  predicate IsEmptyDir(h: Host, d: string) {
    forall p :: p in h.files + h.dirs && p != d ==> Dir(p) != d
  }

  function Push(h: Host, p: string, c: Content): Host {
    h.(mounts := h.mounts[p := Stack(h, p) + [c]])
  }

  function Pop(h: Host, p: string): Host {
    if Stack(h, p) == [] then h else h.(mounts := h.mounts[p := Stack(h, p)[..|Stack(h, p)| - 1]])
  }

  /** What a bind mount of `source` would show now. */
  function Shown(h: Host, source: string): Option<Content> {
    if IsMountPoint(h, source) then Some(Stack(h, source)[|Stack(h, source)| - 1])
    else if source in h.files then Some(Plain(source))
    else None
  }

  /** os.Remove: a mount point is busy, a directory must be empty. */
  predicate Removable(h: Host, p: string) {
    !IsMountPoint(h, p) && (p in h.files || (p in h.dirs && IsEmptyDir(h, p)))
  }

  function Remove(h: Host, p: string): Host {
    h.(files := h.files - {p}, dirs := if p in h.files then h.dirs else h.dirs - {p})
  }

  /** Namespaces show up in the connections that are open. */
  function PlugAll(h: Host, news: seq<Initiator.Arrival>): (r: Host)
    ensures r == h.(byId := r.byId)
    decreases |news|
  {
    if news == [] then h
    else
      var a := news[0];
      PlugAll(if a.nqn in h.connected then h.(byId := Initiator.Plug(h.byId, a, Epoch(h, a.nqn))) else h, news[1..])
  }

  /** The connection goes, with all its devices. */
  function Disconnected(h: Host, nqn: Text): Host {
    if nqn !in h.connected then h
    else h.(connected := h.connected - {nqn},
            epochs := h.epochs[nqn := Epoch(h, nqn) + 1],
            byId := Initiator.Without(h.byId, nqn))
  }

  function Resolve(l: Initiator.Link): Content {
    if l.suffix == [] then Device(l.uuid, l.nqn, l.epoch) else Alias(l.uuid, l.suffix, l.nqn, l.epoch)
  }

  /** What a link leads to now. */
  function Behind(h: Host, name: Text): Option<Content> {
    var l := Initiator.Lookup(h.byId, name);
    if l.Some? then Some(Resolve(l.value)) else None
  }

  // ---------------------------------------------------------------------
  // The driver.

  /** NewNvmeofCsiInitiator insists on these fields. */
  predicate Complete(context: map<string, Text>) {
    && Get(context, "transport") != [] && Get(context, "traddr") != []
    && Get(context, "trsvcid") != [] && Get(context, "nqn") != [] && Get(context, "uuid") != []
  }

  function Nqn(r: Request): Text { if r.Stage? then Get(r.context, "nqn") else [] }

  function Uuid(r: Request): Text { if r.Stage? then Get(r.context, "uuid") else [] }

  /** initiator.Connect looks 21 times, a second apart. */
  const RETRIES := 20

  function FirstPc(r: Request): Pc {
    match r
    case Stage(_, _) => StageCheck
    case Unstage(_) => UnstageCheck
    case Publish(_, _, _) => Capability
    case Unpublish(_) => DropCheck
  }

  function Begin(r: Request): Handler {
    Handler(r, FirstPc(r), None, false, None)
  }

  function Rank(pc: Pc): nat {
    match pc
    case Done(_) => 0
    case Disconnect => 1
    case Bind => 2
    case PointFile => 3
    case PointDirs => 4
    case PointCheck => 5
    case AwaitDevice(left) => 6 + left
    case Connect => 7 + RETRIES
    case Initiate => 8 + RETRIES
    case StageCheck => 9 + RETRIES
    case Capability => 6
    case DropDir => 1
    case DropFile => 2
    case DropMount => 3
    case DropCheck => 4
    case UnstageCheck => 5
  }

  /** An error while a stage is past Connect triggers the deferred Disconnect. */
  function OnError(r: Request): Pc {
    if r.Stage? then Disconnect else Done(Failed(Internal))
  }

  /** What Bind would mount. */
  function Source(h: Host, d: Handler): Option<Content> {
    match d.request
    case Stage(_, _) => if d.link.Some? then Behind(h, d.link.value) else None
    case Publish(source, _, _) => Shown(h, source)
    case _ => None
  }

  predicate SameConnections(h: Host, g: Host) {
    g.byId == h.byId && g.epochs == h.epochs && g.connected == h.connected
  }

  function StepPoint(h: Host, d: Handler, i: Input): (t: State)
    requires d.pc.PointCheck? || d.pc.PointDirs? || d.pc.PointFile? || d.pc.Bind?
    ensures Rank(t.handler.pc) < Rank(d.pc) && t.handler.request == d.request
    ensures SameConnections(h, t.host) && t.handler.link == d.link
  {
    var r := d.request;
    match d.pc
    case PointCheck =>
      if !i.fault.NoFault? then State(h, d.(pc := OnError(r)))
      else if !Exists(h, r.path) then State(h, d.(pc := PointDirs))
      else if IsMountPoint(h, r.path) && r.Stage? then State(h, d.(pc := Done(Success)))
      else State(h, d.(pc := Bind)) // a publish mounts again on top
    case PointDirs =>
      var h' := if i.fault.Lost? then h else h.(dirs := h.dirs + Ancestry(Dir(r.path)));
      State(h', d.(pc := if i.fault.NoFault? then PointFile else OnError(r)))
    case PointFile =>
      if Exists(h, r.path) then State(h, d.(pc := Bind))
      else if Dir(r.path) !in h.dirs then State(h, d.(pc := OnError(r))) // the directory has vanished again
      else
        var h' := if i.fault.Lost? then h else h.(files := h.files + {r.path});
        State(h', d.(pc := if i.fault.NoFault? then Bind else OnError(r)))
    case Bind =>
      var c := Source(h, d);
      if c.None? || !Exists(h, r.path) || i.fault.Lost? then State(h, d.(pc := OnError(r)))
      else
        State(Push(h, r.path, c.value),
              d.(pc := if i.fault.NoFault? then Done(Success) else OnError(r), bound := Some(i.fault)))
  }

  function StepDrop(h: Host, d: Handler, i: Input): (t: State)
    requires d.pc.DropCheck? || d.pc.DropMount? || d.pc.DropFile? || d.pc.DropDir?
    ensures Rank(t.handler.pc) < Rank(d.pc) && t.handler.request == d.request
    ensures SameConnections(h, t.host) && t.handler.link == d.link
  {
    var p := d.request.path;
    match d.pc
    case DropCheck =>
      if !i.fault.NoFault? then State(h, d.(pc := Done(Failed(Internal))))
      else if !Exists(h, p) then State(h, d.(pc := Done(Success)))
      else State(h, d.(pc := if IsMountPoint(h, p) then DropMount else DropFile))
    case DropMount =>
      if i.fault.Lost? || !IsMountPoint(h, p) then State(h, d.(pc := Done(Failed(Internal))))
      else State(Pop(h, p), d.(pc := if i.fault.NoFault? then DropFile else Done(Failed(Internal))))
    case DropFile =>
      if !Exists(h, p) && i.fault.NoFault? then State(h, d.(pc := DropDir))
      else if !Removable(h, p) || i.fault.Lost? then State(h, d.(pc := Done(Failed(Internal))))
      else State(Remove(h, p), d.(pc := if i.fault.NoFault? then DropDir else Done(Failed(Internal))))
    case DropDir =>
      var dir := Dir(p);
      var gone := dir in h.dirs && dir !in h.files && Removable(h, dir) && !i.fault.Lost?;
      State(if gone then Remove(h, dir) else h, d.(pc := Done(Success)))
  }

  function StepStage(h: Host, d: Handler, i: Input): (t: State)
    requires d.request.Stage?
    requires d.pc.StageCheck? || d.pc.Initiate? || d.pc.Connect? || d.pc.AwaitDevice? || d.pc.Disconnect?
    ensures Rank(t.handler.pc) < Rank(d.pc) && t.handler.request == d.request
  {
    var r, nqn := d.request, Nqn(d.request);
    match d.pc
    case StageCheck =>
      if !i.fault.NoFault? then State(h, d.(pc := Done(Failed(Internal))))
      else State(h, d.(pc := if Exists(h, r.path) && IsMountPoint(h, r.path) then Done(Success) else Initiate))
    case Initiate =>
      State(h, d.(pc := if Complete(r.context) then Connect else Done(Failed(Internal))))
    case Connect => // connect-all; the command's own error is only logged
      State(if i.fault.Lost? then h else h.(connected := h.connected + {nqn} + i.also), d.(pc := AwaitDevice(RETRIES)))
    case AwaitDevice(left) =>
      if !i.fault.NoFault? then State(h, d.(pc := Done(Failed(Internal))))
      else
        var h' := PlugAll(h, i.news);
        var found := Initiator.Glob(h'.byId, Initiator.DeviceGlob(Uuid(r)));
        if found != [] then State(h', d.(pc := PointCheck, link := Some(found[0])))
        else State(h', d.(pc := if left == 0 then Done(Failed(Internal)) else AwaitDevice(left - 1)))
    case Disconnect =>
      State(if i.fault.Lost? then h else Disconnected(h, nqn), d.(pc := Done(Failed(Internal)), disconnected := true))
  }

  function Step(s: State, i: Input): (t: State)
    ensures s.handler.pc.Done? ==> t == s
    ensures !s.handler.pc.Done? ==> Rank(t.handler.pc) < Rank(s.handler.pc)
    ensures t.handler.request == s.handler.request
  {
    var h, d := s.host, s.handler;
    match d.pc
    case Done(_) => s
    case UnstageCheck =>
      if !i.fault.NoFault? then s.(handler := d.(pc := Done(Failed(Internal))))
      else s.(handler := d.(pc := if Exists(h, d.request.path) && IsMountPoint(h, d.request.path)
                                  then DropCheck else Done(Success)))
    case Capability =>
      s.(handler := d.(pc := if d.request.Publish? && d.request.block then PointCheck else Done(Failed(InvalidArgument))))
    case PointCheck => StepPoint(h, d, i)
    case PointDirs => StepPoint(h, d, i)
    case PointFile => StepPoint(h, d, i)
    case Bind => StepPoint(h, d, i)
    case DropCheck => StepDrop(h, d, i)
    case DropMount => StepDrop(h, d, i)
    case DropFile => StepDrop(h, d, i)
    case DropDir => StepDrop(h, d, i)
    case _ => if d.request.Stage? then StepStage(h, d, i) else s.(handler := d.(pc := Done(Failed(Internal))))
  }

  /** A request served to its end with nobody else around. */
  function RunAlone(s: State, env: Pc -> Input): (t: State)
    ensures t.handler.pc.Done?
    decreases Rank(s.handler.pc)
  {
    if s.handler.pc.Done? then s
    else RunAlone(Step(s, env(s.handler.pc)), env)
  }

  lemma Advance(s: State, env: Pc -> Input) returns (t: State)
    ensures t == Step(s, env(s.handler.pc))
    ensures RunAlone(s, env) == RunAlone(t, env)
    ensures t.handler.pc.Done? ==> RunAlone(s, env) == t
  {
    t := Step(s, env(s.handler.pc));
  }

  /** A step touches the mount table only at its own request's path. */
  lemma StepMountFrame(s: State, i: Input, p: string)
    requires p != s.handler.request.path
    ensures Stack(Step(s, i).host, p) == Stack(s.host, p)
  {
  }

  /** A step leaves a stack alone, drops its top, or puts on top what Bind's source shows. */
  lemma StepStack(s: State, i: Input, p: string)
    ensures var before, after := Stack(s.host, p), Stack(Step(s, i).host, p);
            || after == before
            || (before != [] && after == before[..|before| - 1])
            || (Source(s.host, s.handler).Some? && Step(s, i).host.connected == s.host.connected
                && Step(s, i).host.epochs == s.host.epochs
                && after == before + [Source(s.host, s.handler).value])
  {
    if p != s.handler.request.path {
      StepMountFrame(s, i, p);
    }
  }

  /** The links change while a stage waits for its device or disconnects, and at no other step. */
  lemma StepLinksFrame(s: State, i: Input)
    requires !(s.handler.request.Stage? && (s.handler.pc.AwaitDevice? || s.handler.pc.Disconnect?))
    ensures var h := Step(s, i).host;
            && h.byId == s.host.byId && h.epochs == s.host.epochs && s.host.connected <= h.connected
            && Step(s, i).handler.link == s.handler.link
  {
  }

  lemma StepAwait(s: State, i: Input)
    requires s.handler.request.Stage? && s.handler.pc.AwaitDevice?
    ensures var t := Step(s, i);
            && (t.host == s.host || t.host == PlugAll(s.host, i.news))
            && (t.handler.link == s.handler.link
                || (var found := Initiator.Glob(PlugAll(s.host, i.news).byId, Initiator.DeviceGlob(Uuid(s.handler.request)));
                    found != [] && t.handler.link == Some(found[0])))
  {
  }
}
