/** A volume's whole life on a node, undisturbed: stage, publish, unpublish, unstage. */
module NodeLifecycle {
  import opened Common
  import opened Paths
  import opened NodeProtocol
  import opened NodeRetries
  import opened Initiator
  import opened NodeIdentity

  function Served(h: Host, r: Request, news: seq<Arrival>): State {
    RunAlone(State(h, Begin(r)), CalmWith(news))
  }

  /** The path is unused, and may become a file. */
  predicate Free(h: Host, p: string) {
    !Exists(h, p) && Stack(h, p) == [] && p !in Ancestry(Dir(p))
  }

  /** The host with a file at `p`, inside its directories, and `c` mounted on it. */
  function WithMount(h: Host, p: string, c: Content): Host {
    Push(h.(dirs := h.dirs + Ancestry(Dir(p)), files := h.files + {p}), p, c)
  }

  /** The host when the context's NQN is connected and the news are in. */
  function Connected(h: Host, context: map<string, Text>, news: seq<Arrival>): Host {
    PlugAll(h.(connected := h.connected + {Get(context, "nqn")}), news)
  }

  /** The context's device is there, already or now. */
  predicate ShowsUp(h: Host, context: map<string, Text>, news: seq<Arrival>) {
    IsUuid(Get(context, "uuid")) && Behind(Connected(h, context, news), OwnName(Get(context, "uuid"))).Some?
  }

  function DeviceOf(h: Host, context: map<string, Text>, news: seq<Arrival>): Content
    requires ShowsUp(h, context, news)
  {
    Behind(Connected(h, context, news), OwnName(Get(context, "uuid"))).value
  }

  lemma ConnectedKeepsLinks(h: Host, context: map<string, Text>, news: seq<Arrival>)
    requires LinksOk(h)
    ensures LinksOk(Connected(h, context, news))
  {
    PlugAllKeepsLinks(h.(connected := h.connected + {Get(context, "nqn")}), news);
  }

  /** It is the device with the context's UUID, and it works. */
  lemma DeviceIsOwn(h: Host, context: map<string, Text>, news: seq<Arrival>)
    requires LinksOk(h) && ShowsUp(h, context, news)
    ensures var c := DeviceOf(h, context, news);
            c.Device? && c.uuid == Get(context, "uuid") && Live(Connected(h, context, news), c)
  {
    ConnectedKeepsLinks(h, context, news);
    OwnLink(Lookup(Connected(h, context, news).byId, OwnName(Get(context, "uuid"))).value, Get(context, "uuid"));
  }

  /** A namespace that arrives in its subsystem, and is not there yet, shows up. */
  lemma ArrivalShowsUp(h: Host, context: map<string, Text>, suffixes: seq<Text>)
    requires LinksOk(h) && Lookup(h.byId, OwnName(Get(context, "uuid"))).None?
    requires ArrivalOk(Arrival(Get(context, "uuid"), Get(context, "nqn"), suffixes))
    ensures var news := [Arrival(Get(context, "uuid"), Get(context, "nqn"), suffixes)];
            && ShowsUp(h, context, news)
            && DeviceOf(h, context, news) == Device(Get(context, "uuid"), Get(context, "nqn"), Epoch(h, Get(context, "nqn")))
  {
    var uuid, nqn := Get(context, "uuid"), Get(context, "nqn");
    var a := Arrival(uuid, nqn, suffixes);
    var h1 := h.(connected := h.connected + {nqn});
    PlugShows(h.byId, a, Epoch(h, nqn));
    assert [a][1..] == [];
    assert PlugAll(h1, [a]) == PlugAll(h1.(byId := Plug(h.byId, a, Epoch(h, nqn))), []);
  }

  /** createMountPoint on a free path. */
  lemma {:induction false} PointEffect(s: State, env: Pc -> Input)
    requires s.handler.pc.PointCheck? && Free(s.host, s.handler.request.path)
    requires env(PointCheck).fault.NoFault? && env(PointDirs).fault.NoFault? && env(PointFile).fault.NoFault?
    ensures var h, p := s.host, s.handler.request.path;
            RunAlone(s, env) == RunAlone(
              State(h.(dirs := h.dirs + Ancestry(Dir(p)), files := h.files + {p}), s.handler.(pc := Bind)), env)
  {
    var s1 := Advance(s, env);
    var s2 := Advance(s1, env);
    var s3 := Advance(s2, env);
  }

  /** createMountPoint and the bind mount, with the source at hand. */
  lemma {:induction false} MountEffect(s: State, c: Content, news: seq<Arrival>)
    requires s.handler.pc.PointCheck? && Free(s.host, s.handler.request.path)
    requires Source(s.host, s.handler) == Some(c)
    requires s.handler.request.Publish? ==> s.handler.request.source != s.handler.request.path
    ensures var t := RunAlone(s, CalmWith(news));
            t.handler.pc == Done(Success) && t.host == WithMount(s.host, s.handler.request.path, c)
  {
    PointEffect(s, CalmWith(news));
    var ready := s.host.(dirs := s.host.dirs + Ancestry(Dir(s.handler.request.path)), files := s.host.files + {s.handler.request.path});
    var t := Advance(State(ready, s.handler.(pc := Bind)), CalmWith(news));
  }

  /** Connecting finds the link of the context's own namespace at the first look. */
  lemma {:induction false} ConnectEffect(h: Host, p: string, context: map<string, Text>, env: Pc -> Input, news: seq<Arrival>)
    requires Complete(context) && Free(h, p) && LinksOk(h) && ShowsUp(h, context, news)
    requires env(StageCheck) == env(Initiate) == env(Connect) == env(AwaitDevice(RETRIES)) == Input(NoFault, {}, news)
    ensures var d := Begin(Stage(p, context)).(pc := PointCheck, link := Some(OwnName(Get(context, "uuid"))));
            RunAlone(State(h, Begin(Stage(p, context))), env) == RunAlone(State(Connected(h, context, news), d), env)
  {
    var s1 := Advance(State(h, Begin(Stage(p, context))), env);
    var s2 := Advance(s1, env);
    var s3 := Advance(s2, env);
    assert h.connected + {Get(context, "nqn")} + {} == h.connected + {Get(context, "nqn")};
    FirstLook(h, Begin(Stage(p, context)), env, news);
  }

  lemma {:induction false} FirstLook(h: Host, d: Handler, env: Pc -> Input, news: seq<Arrival>)
    requires d.request.Stage? && LinksOk(h) && ShowsUp(h, d.request.context, news)
    requires env(AwaitDevice(RETRIES)) == Input(NoFault, {}, news)
    ensures var context := d.request.context;
            RunAlone(State(h.(connected := h.connected + {Get(context, "nqn")}), d.(pc := AwaitDevice(RETRIES))), env) ==
            RunAlone(State(Connected(h, context, news), d.(pc := PointCheck, link := Some(OwnName(Get(context, "uuid"))))), env)
  {
    var context := d.request.context;
    ConnectedKeepsLinks(h, context, news);
    FoundIsOwn(Connected(h, context, news).byId, Get(context, "uuid"));
    var s := Advance(State(h.(connected := h.connected + {Get(context, "nqn")}), d.(pc := AwaitDevice(RETRIES))), env);
  }

  /** Staging connects and mounts the device. */
  lemma {:induction false} StageEffect(h: Host, p: string, context: map<string, Text>, news: seq<Arrival>)
    requires Complete(context) && Free(h, p) && LinksOk(h) && ShowsUp(h, context, news)
    ensures var t := Served(h, Stage(p, context), news);
            && t.handler.pc == Done(Success)
            && t.host == WithMount(Connected(h, context, news), p, DeviceOf(h, context, news))
  {
    var d := Begin(Stage(p, context)).(pc := PointCheck, link := Some(OwnName(Get(context, "uuid"))));
    ConnectEffect(h, p, context, CalmWith(news), news);
    MountEffect(State(Connected(h, context, news), d), DeviceOf(h, context, news), news);
  }

  /** Staging again changes nothing. */
  lemma {:induction false} StageAgain(h: Host, p: string, context: map<string, Text>, news: seq<Arrival>)
    requires Exists(h, p) && IsMountPoint(h, p)
    ensures var t := Served(h, Stage(p, context), news);
            t.handler.pc == Done(Success) && t.host == h
  {
    var s1 := Advance(State(h, Begin(Stage(p, context))), CalmWith(news));
  }

  /** Publishing mounts what the staging path shows. */
  lemma {:induction false} PublishEffect(h: Host, source: string, p: string)
    requires Free(h, p) && IsMountPoint(h, source) && source != p
    ensures var t := Served(h, Publish(source, p, true), []);
            && t.handler.pc == Done(Success)
            && t.host == WithMount(h, p, Stack(h, source)[|Stack(h, source)| - 1])
  {
    var s1 := Advance(State(h, Begin(Publish(source, p, true))), CalmWith([]));
    MountEffect(s1, Stack(h, source)[|Stack(h, source)| - 1], []);
  }

  /** Unstaging a path with one mount unmounts and removes it, and touches nothing else. */
  lemma {:induction false} UnstageEffect(h: Host, p: string)
    requires TargetOk(h, p) && |Stack(h, p)| == 1
    ensures var t := Served(h, Unstage(p), []);
            && t.handler.pc == Done(Success) && !Exists(t.host, p) && Stack(t.host, p) == []
            && OnlyAt(h, t.host, p)
  {
    var s1 := Advance(State(h, Begin(Unstage(p))), CalmWith([]));
    var s2 := Advance(s1, CalmWith([]));
    var s3 := Advance(s2, CalmWith([]));
    FinishDrop(h, s3, p);
  }

  /** Unstaging a path that is not mounted reports success and leaves a plain file where it is. */
  lemma {:induction false} UnstageOfPlainFile(h: Host, p: string)
    requires !IsMountPoint(h, p)
    ensures var t := Served(h, Unstage(p), []);
            t.handler.pc == Done(Success) && t.host == h
  {
    var s1 := Advance(State(h, Begin(Unstage(p))), CalmWith([]));
  }

  /** A path that is a file with one mount on it. */
  ghost predicate MountedOnce(h: Host, p: string) {
    TargetOk(h, p) && |Stack(h, p)| == 1
  }

  /** Same mounts and files away from two paths. */
  ghost predicate SameElsewhere(h: Host, g: Host, p: string, q: string) {
    && (forall x :: x != p && x != q ==> Stack(g, x) == Stack(h, x))
    && (forall x :: x != p && x != q ==> (x in g.files <==> x in h.files))
  }

  lemma WithMountFacts(h: Host, p: string, c: Content)
    requires Free(h, p)
    ensures var g := WithMount(h, p, c);
            && Stack(g, p) == [c] && p in g.files && (forall x :: x != p ==> Stack(g, x) == Stack(h, x))
            && MountedOnce(g, p)
            && (forall x :: Free(h, x) && x != p && x !in Ancestry(Dir(p)) ==> Free(g, x))
            && (forall x :: MountedOnce(h, x) && x != p && x !in Ancestry(Dir(p)) ==> MountedOnce(g, x))
  {
  }

  /** The paths are unused and do not lie inside one another. */
  predicate RoomFor(h: Host, staging: string, target: string) {
    && Free(h, staging) && Free(h, target) && staging != target
    && staging !in Ancestry(Dir(target)) && target !in Ancestry(Dir(staging))
  }

  /** The host with the device on both paths. */
  function Brought(h: Host, staging: string, target: string, context: map<string, Text>, news: seq<Arrival>): Host
    requires ShowsUp(h, context, news)
  {
    var device := DeviceOf(h, context, news);
    WithMount(WithMount(Connected(h, context, news), staging, device), target, device)
  }

  /** Stage and publish, one after the other. */
  lemma {:induction false} Bringing(h: Host, staging: string, target: string, context: map<string, Text>, news: seq<Arrival>)
    requires Complete(context) && LinksOk(h) && ShowsUp(h, context, news) && RoomFor(h, staging, target)
    ensures var a := Served(h, Stage(staging, context), news);
            var b := Served(a.host, Publish(staging, target, true), []);
            && a.handler.pc == b.handler.pc == Done(Success)
            && b.host == Brought(h, staging, target, context, news)
  {
    var h1, device := Connected(h, context, news), DeviceOf(h, context, news);
    StageEffect(h, staging, context, news);
    TwoMounts(h1, staging, target, device);
    PublishEffect(WithMount(h1, staging, device), staging, target);
  }

  lemma BroughtFacts(h: Host, staging: string, target: string, context: map<string, Text>, news: seq<Arrival>)
    requires ShowsUp(h, context, news) && RoomFor(h, staging, target)
    ensures var b := Brought(h, staging, target, context, news);
            && Stack(b, staging) == Stack(b, target) == [DeviceOf(h, context, news)]
            && MountedOnce(b, staging) && MountedOnce(b, target) && SameElsewhere(h, b, staging, target)
            && SameConnections(Connected(h, context, news), b)
            && b.connected == h.connected + {Get(context, "nqn")} && b.epochs == h.epochs
  {
    TwoMounts(Connected(h, context, news), staging, target, DeviceOf(h, context, news));
  }

  /** A device mounted on one path after the other. */
  lemma TwoMounts(h: Host, staging: string, target: string, c: Content)
    requires RoomFor(h, staging, target)
    ensures var a := WithMount(h, staging, c);
            var b := WithMount(a, target, c);
            && Free(a, target) && Stack(a, staging) == [c]
            && Stack(b, staging) == Stack(b, target) == [c]
            && MountedOnce(b, staging) && MountedOnce(b, target)
            && SameElsewhere(h, b, staging, target)
            && SameConnections(h, b)
  {
    WithMountFacts(h, staging, c);
    WithMountFacts(WithMount(h, staging, c), target, c);
  }

  lemma {:induction false} Removing(b: Host, staging: string, target: string)
    requires MountedOnce(b, staging) && MountedOnce(b, target) && staging != target
    ensures var c := Served(b, Unpublish(target), []);
            var d := Served(c.host, Unstage(staging), []);
            && c.handler.pc == d.handler.pc == Done(Success)
            && Stack(d.host, staging) == Stack(d.host, target) == []
            && !Exists(d.host, staging) && target !in d.host.files
            && SameElsewhere(b, d.host, staging, target)
            && d.host.connected == b.connected && d.host.epochs == b.epochs
  {
    DropOnce(b, target);
    assert Served(b, Unpublish(target), []) == Unpublished(b, target);
    UnstageEffect(Served(b, Unpublish(target), []).host, staging);
  }

  /**
   * The whole life: four successes; in between, both paths show the device of the
   * namespace in the publish context; in the end the mount table and the files are as
   * before, and the connection is still there.
   */
  lemma {:induction false} WholeLife(h: Host, staging: string, target: string, context: map<string, Text>, news: seq<Arrival>)
    requires Complete(context) && LinksOk(h) && ShowsUp(h, context, news)
    requires RoomFor(h, staging, target)
    ensures var a := Served(h, Stage(staging, context), news);
            var b := Served(a.host, Publish(staging, target, true), []);
            var c := Served(b.host, Unpublish(target), []);
            var d := Served(c.host, Unstage(staging), []);
            && a.handler.pc == b.handler.pc == c.handler.pc == d.handler.pc == Done(Success)
            && Stack(b.host, staging) == Stack(b.host, target) == [DeviceOf(h, context, news)]
            && DeviceOf(h, context, news).Device? && DeviceOf(h, context, news).uuid == Get(context, "uuid")
            && (forall p :: Stack(d.host, p) == Stack(h, p))
            && (forall p :: p in d.host.files <==> p in h.files)
            && d.host.connected == h.connected + {Get(context, "nqn")} && d.host.epochs == h.epochs
  {
    DeviceIsOwn(h, context, news);
    Bringing(h, staging, target, context, news);
    BroughtFacts(h, staging, target, context, news);
    var a := Served(h, Stage(staging, context), news).host;
    Removing(Served(a, Publish(staging, target, true), []).host, staging, target);
  }

  // ---------------------------------------------------------------------
  // One volume's failed stage against another volume's device.

  /** A world in which nothing fails but the bind mount. */
  function BindLost(news: seq<Arrival>): Pc -> Input {
    (pc: Pc) => Input(if pc.Bind? then Lost else NoFault, {}, news)
  }

  /**
   * A stage that gets as far as its bind mount and fails there leaves every mount of the
   * host in place, and none of the devices of its NQN works any more.
   */
  lemma {:induction false} FailedStageCutsOff(h: Host, p: string, context: map<string, Text>, news: seq<Arrival>, c: Content)
    requires Complete(context) && LinksOk(h) && ShowsUp(h, context, news) && Free(h, p)
    requires Live(h, c) && c.nqn == Get(context, "nqn")
    ensures var t := RunAlone(State(h, Begin(Stage(p, context))), BindLost(news));
            && t.handler.pc == Done(Failed(Internal)) && !Live(t.host, c)
            && forall q :: Stack(t.host, q) == Stack(h, q)
  {
    var env, h1 := BindLost(news), Connected(h, context, news);
    var d := Begin(Stage(p, context)).(pc := PointCheck, link := Some(OwnName(Get(context, "uuid"))));
    ConnectEffect(h, p, context, env, news);
    PointEffect(State(h1, d), env);
    var ready := h1.(dirs := h1.dirs + Ancestry(Dir(p)), files := h1.files + {p});
    var s1 := Advance(State(ready, d.(pc := Bind)), env);
    var s2 := Advance(s1, env);
  }

  /**
   * Two volumes of one subsystem on a fresh node: the first is staged and published and
   * works, the stage of the second fails, and the first one's target still has its mount, which
   * is dead.
   */
  lemma {:induction false} OneFailureKillsAnother(h: Host, staging: string, target: string, context: map<string, Text>, news: seq<Arrival>,
                                                  other: string, otherContext: map<string, Text>, otherNews: seq<Arrival>)
    requires Complete(context) && LinksOk(h) && ShowsUp(h, context, news)
    requires RoomFor(h, staging, target)
    requires DeviceOf(h, context, news).Device? && DeviceOf(h, context, news).nqn == Get(otherContext, "nqn")
    requires var b := Brought(h, staging, target, context, news);
             Complete(otherContext) && ShowsUp(b, otherContext, otherNews) && Free(b, other)
    ensures var b := Served(Served(h, Stage(staging, context), news).host, Publish(staging, target, true), []).host;
            var t := RunAlone(State(b, Begin(Stage(other, otherContext))), BindLost(otherNews));
            var device := DeviceOf(h, context, news);
            && Stack(b, target) == Stack(t.host, target) == [device]
            && Live(b, device) && t.handler.pc == Done(Failed(Internal)) && !Live(t.host, device)
  {
    var device := DeviceOf(h, context, news);
    DeviceIsOwn(h, context, news);
    ConnectedKeepsLinks(h, context, news);
    Bringing(h, staging, target, context, news);
    BroughtFacts(h, staging, target, context, news);
    FailedStageCutsOff(Brought(h, staging, target, context, news), other, otherContext, otherNews, device);
  }
}
