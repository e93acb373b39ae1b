/**
 * What one whole node request does to the host and answers, in closed form, for every host and every
 * fault pattern, and what a caller can conclude from the answer.
 */
module NodeCalls {
  import opened Common
  import opened Paths
  import opened NodeProtocol
  import Initiator
  import NodeIdentity

  predicate Answered(env: Pc -> Input, pc: Pc) { env(pc).fault.NoFault? }

  predicate Executed(env: Pc -> Input, pc: Pc) { !env(pc).fault.Lost? }

  function Ended(s: State): (Host, Outcome)
    requires s.handler.pc.Done?
  {
    (s.host, s.handler.pc.outcome)
  }

  function Served(h: Host, r: Request, env: Pc -> Input): (Host, Outcome) {
    Ended(RunAlone(State(h, Begin(r)), env))
  }

  // ---------------------------------------------------------------------
  // createMountPoint.

  /** The host after createMountPoint, and whether it went well. */
  function Made(h: Host, p: string, env: Pc -> Input): (Host, bool) {
    if !Answered(env, PointCheck) then (h, false)
    else if Exists(h, p) then (h, true)
    else
      var h1 := if Executed(env, PointDirs) then h.(dirs := h.dirs + Ancestry(Dir(p))) else h;
      if !Answered(env, PointDirs) then (h1, false)
      else if Exists(h1, p) then (h1, true)
      else (if Executed(env, PointFile) then h1.(files := h1.files + {p}) else h1, Answered(env, PointFile))
  }

  /** It leaves mounts and connections alone, only adds directories above the path and the file itself, and on success the path exists. */
  lemma MadeMeans(h: Host, p: string, env: Pc -> Input)
    ensures var (g, ok) := Made(h, p, env);
            && g.mounts == h.mounts && SameConnections(h, g)
            && h.files <= g.files <= h.files + {p} && h.dirs <= g.dirs <= h.dirs + Ancestry(Dir(p))
            && (ok ==> Exists(g, p))
            && (ok && !Exists(h, p) ==> g.dirs == h.dirs + Ancestry(Dir(p)) && (p !in Ancestry(Dir(p)) ==> p in g.files))
            && (ok <==> Answered(env, PointCheck)
                        && (Exists(h, p) || (Answered(env, PointDirs) && (p in Ancestry(Dir(p)) || Answered(env, PointFile)))))
  {
  }

  lemma {:induction false} PointCall(s: State, env: Pc -> Input)
    requires s.handler.pc.PointCheck?
    ensures var d, r, (g, ok) := s.handler, s.handler.request, Made(s.host, s.handler.request.path, env);
            RunAlone(s, env) ==
              if !ok then RunAlone(State(g, d.(pc := OnError(r))), env)
              else if Exists(s.host, r.path) && IsMountPoint(s.host, r.path) && r.Stage? then State(g, d.(pc := Done(Success)))
              else RunAlone(State(g, d.(pc := Bind)), env)
  {
    var s1 := Advance(s, env);
    if s1.handler.pc.PointDirs? {
      var s2 := Advance(s1, env);
      if s2.handler.pc.PointFile? {
        var s3 := Advance(s2, env);
      }
    }
  }

  lemma {:induction false} BindCall(s: State, env: Pc -> Input)
    requires s.handler.pc.Bind? && Exists(s.host, s.handler.request.path)
    ensures var d, c := s.handler, Source(s.host, s.handler);
            RunAlone(s, env) ==
              if c.None? || !Executed(env, Bind) then RunAlone(State(s.host, d.(pc := OnError(d.request))), env)
              else
                RunAlone(State(Push(s.host, d.request.path, c.value),
                               d.(pc := if Answered(env, Bind) then Done(Success) else OnError(d.request),
                                  bound := Some(env(Bind).fault))), env)
  {
    var s1 := Advance(s, env);
  }

  // ---------------------------------------------------------------------
  // NodePublishVolume.

  /** The host after a publish, and its answer. */
  function PublishEnd(h: Host, source: string, path: string, block: bool, env: Pc -> Input): (Host, Outcome) {
    if !block then (h, Failed(InvalidArgument))
    else
      var (g, ok) := Made(h, path, env);
      var c := Shown(g, source);
      if !ok || c.None? || !Executed(env, Bind) then (g, Failed(Internal))
      else (Push(g, path, c.value), if Answered(env, Bind) then Success else Failed(Internal))
  }

  lemma {:induction false} PublishCall(h: Host, source: string, path: string, block: bool, env: Pc -> Input)
    ensures Served(h, Publish(source, path, block), env) == PublishEnd(h, source, path, block, env)
  {
    var s1 := Advance(State(h, Begin(Publish(source, path, block))), env);
    if block {
      PointCall(s1, env);
      MadeMeans(h, path, env);
      var (g, ok) := Made(h, path, env);
      if ok {
        BindCall(State(g, s1.handler.(pc := Bind)), env);
      }
    }
  }

  /**
   * A request that is not for a block volume is refused and nothing is touched. Any other
   * succeeds exactly if every step it takes is answered well, and then what the source
   * showed is on top of what was mounted on the target.
   */
  lemma PublishMeans(h: Host, source: string, path: string, block: bool, env: Pc -> Input)
    ensures var (g, outcome) := PublishEnd(h, source, path, block, env);
            && (outcome == Failed(InvalidArgument) <==> !block)
            && (!block ==> g == h)
            && (outcome.Success? <==>
                  && block && Made(h, path, env).1 && Shown(Made(h, path, env).0, source).Some? && Answered(env, Bind))
            && (outcome.Success? ==>
                  && Exists(g, path)
                  && Stack(g, path) == Stack(h, path) + [Shown(Made(h, path, env).0, source).value])
            && (outcome.Success? && IsMountPoint(h, source) ==>
                  Stack(g, path) == Stack(h, path) + [Stack(h, source)[|Stack(h, source)| - 1]])
            && (forall q :: q != path ==> Stack(g, q) == Stack(h, q))
            && (!outcome.Success? && env(Bind).fault != Applied ==> g.mounts == h.mounts)
  {
    MadeMeans(h, path, env);
  }

  // ---------------------------------------------------------------------
  // deleteMountPoint, NodeUnpublishVolume, NodeUnstageVolume.

  /** The last part: the parent directory goes if that emptied it; whatever happens there is ignored. */
  function ParentRemoved(h: Host, p: string, env: Pc -> Input): Host {
    if Dir(p) in h.dirs && Dir(p) !in h.files && Removable(h, Dir(p)) && Executed(env, DropDir) then Remove(h, Dir(p)) else h
  }

  /** The host after deleteMountPoint, and its answer. */
  function DropEnd(h: Host, p: string, env: Pc -> Input): (Host, Outcome) {
    if !Answered(env, DropCheck) then (h, Failed(Internal))
    else if !Exists(h, p) then (h, Success)
    else
      var h1 := if IsMountPoint(h, p) && Executed(env, DropMount) then Pop(h, p) else h;
      if IsMountPoint(h, p) && !Answered(env, DropMount) then (h1, Failed(Internal))
      else if !Removable(h1, p) || !Executed(env, DropFile) then (h1, Failed(Internal))
      else if !Answered(env, DropFile) then (Remove(h1, p), Failed(Internal))
      else (ParentRemoved(Remove(h1, p), p, env), Success)
  }

  lemma {:induction false} DropCall(s: State, env: Pc -> Input)
    requires s.handler.pc.DropCheck?
    ensures Ended(RunAlone(s, env)) == DropEnd(s.host, s.handler.request.path, env)
  {
    var s1 := Advance(s, env);
    if s1.handler.pc.DropMount? {
      var s2 := Advance(s1, env);
      if s2.handler.pc.DropFile? {
        DropFileCall(s2, env);
      }
    } else if s1.handler.pc.DropFile? {
      DropFileCall(s1, env);
    }
  }

  lemma {:induction false} DropFileCall(s: State, env: Pc -> Input)
    requires s.handler.pc.DropFile? && Exists(s.host, s.handler.request.path)
    ensures var h, p := s.host, s.handler.request.path;
            Ended(RunAlone(s, env)) ==
              if !Removable(h, p) || !Executed(env, DropFile) then (h, Failed(Internal))
              else if !Answered(env, DropFile) then (Remove(h, p), Failed(Internal))
              else (ParentRemoved(Remove(h, p), p, env), Success)
  {
    var s1 := Advance(s, env);
    if s1.handler.pc.DropDir? {
      var s2 := Advance(s1, env);
    }
  }

  /** Sound paths: what is mounted exists, and a path is not both a file and a directory. */
  predicate SoundPath(h: Host, p: string) {
    (IsMountPoint(h, p) ==> Exists(h, p)) && !(p in h.files && p in h.dirs)
  }

  /**
   * Success means the path is unmounted and gone, whatever went wrong on the way. It is
   * answered exactly if the check is answered and the path is missing, or it carries at
   * most one mount that is unmounted and it is then removed, each call being answered.
   */
  lemma DropMeans(h: Host, p: string, env: Pc -> Input)
    requires SoundPath(h, p)
    ensures var (g, outcome) := DropEnd(h, p, env);
            && (outcome.Success? ==> !Exists(g, p) && Stack(g, p) == [])
            && (outcome.Success? <==>
                  && Answered(env, DropCheck)
                  && (!Exists(h, p)
                      || (&& |Stack(h, p)| <= 1 && (IsMountPoint(h, p) ==> Answered(env, DropMount))
                          && Answered(env, DropFile) && (p in h.files || IsEmptyDir(h, p)))))
            && (!outcome.Success? ==> outcome == Failed(Internal))
            && (forall q :: q != p ==> Stack(g, q) == Stack(h, q))
            && (Stack(g, p) == Stack(h, p) || Stack(g, p) == Stack(Pop(h, p), p))
  {
    var h1 := if IsMountPoint(h, p) && Executed(env, DropMount) then Pop(h, p) else h;
    assert h1.files == h.files && h1.dirs == h.dirs;
    assert IsEmptyDir(h1, p) <==> IsEmptyDir(h, p);
  }

  /** Nothing is in the directory of `p` but `p`, and it can be removed. */
  predicate OnlyChild(h: Host, p: string) {
    var dir := Dir(p);
    && dir in h.dirs && dir !in h.files && dir != p && !IsMountPoint(h, dir)
    && forall q :: q in h.files + h.dirs && q != p && q != dir ==> Dir(q) != dir
  }

  /** Which files and directories success takes away: the path, and its directory if that was all there was in it. */
  lemma DropRemoves(h: Host, p: string, env: Pc -> Input)
    requires SoundPath(h, p) && Exists(h, p) && p != Dir(p) && DropEnd(h, p, env).1.Success?
    ensures var g := DropEnd(h, p, env).0;
            && g.files == h.files - {p}
            && g.dirs == h.dirs - {p} - (if OnlyChild(h, p) && Executed(env, DropDir) then {Dir(p)} else {})
            && SameConnections(h, g)
  {
    var h1 := if IsMountPoint(h, p) && Executed(env, DropMount) then Pop(h, p) else h;
    var h2 := Remove(h1, p);
    assert h2.files == h.files - {p} && h2.dirs == h.dirs - {p};
    assert IsMountPoint(h2, Dir(p)) <==> IsMountPoint(h, Dir(p));
    assert IsEmptyDir(h2, Dir(p)) <==> forall q :: q in h.files + h.dirs && q != p && q != Dir(p) ==> Dir(q) != Dir(p);
  }

  /** The host after an unstage, and its answer. */
  function UnstageEnd(h: Host, p: string, env: Pc -> Input): (Host, Outcome) {
    if !Answered(env, UnstageCheck) then (h, Failed(Internal))
    else if !(Exists(h, p) && IsMountPoint(h, p)) then (h, Success)
    else DropEnd(h, p, env)
  }

  lemma {:induction false} UnstageCall(h: Host, p: string, env: Pc -> Input)
    ensures Served(h, Unstage(p), env) == UnstageEnd(h, p, env)
  {
    var s1 := Advance(State(h, Begin(Unstage(p))), env);
    if s1.handler.pc.DropCheck? {
      DropCall(s1, env);
    }
  }

  lemma {:induction false} UnpublishCall(h: Host, p: string, env: Pc -> Input)
    ensures Served(h, Unpublish(p), env) == DropEnd(h, p, env)
  {
    DropCall(State(h, Begin(Unpublish(p))), env);
  }

  /** Success of an unstage means unmounted; a failed check or unmount is an error. */
  lemma UnstageMeans(h: Host, p: string, env: Pc -> Input)
    requires SoundPath(h, p)
    ensures var (g, outcome) := UnstageEnd(h, p, env);
            && (outcome.Success? ==> Stack(g, p) == [])
            && (!Answered(env, UnstageCheck) ==> outcome == Failed(Internal) && g == h)
            && (IsMountPoint(h, p) && Answered(env, UnstageCheck) && Answered(env, DropCheck) && !Answered(env, DropMount) ==>
                  outcome == Failed(Internal))
            && (IsMountPoint(h, p) && outcome.Success? ==> !Exists(g, p))
            && g.connected == h.connected && g.epochs == h.epochs
  {
    DropMeans(h, p, env);
  }

  // ---------------------------------------------------------------------
  // NodeStageVolume.

  /** The looks at the links, `left` more after the first: the host then, and the first name found. */
  function Search(h: Host, uuid: Text, env: Pc -> Input, left: nat): (Host, Option<Text>)
    decreases left
  {
    if !Answered(env, AwaitDevice(left)) then (h, None)
    else
      var g := PlugAll(h, env(AwaitDevice(left)).news);
      var found := Initiator.Glob(g.byId, Initiator.DeviceGlob(uuid));
      if found != [] then (g, Some(found[0]))
      else if left == 0 then (g, None)
      else Search(g, uuid, env, left - 1)
  }

  lemma {:induction false} SearchCall(h: Host, d: Handler, env: Pc -> Input, left: nat)
    requires d.request.Stage?
    ensures var (g, link) := Search(h, Uuid(d.request), env, left);
            RunAlone(State(h, d.(pc := AwaitDevice(left))), env) ==
              if link.Some? then RunAlone(State(g, d.(pc := PointCheck, link := link)), env)
              else State(g, d.(pc := Done(Failed(Internal))))
    decreases left
  {
    var s1 := Advance(State(h, d.(pc := AwaitDevice(left))), env);
    if s1.handler.pc.AwaitDevice? {
      SearchCall(s1.host, d, env, left - 1);
    }
  }

  /** The host after the looks from the one with `left` more to come to the one with `n` more, all arrivals being in. */
  function Looked(h: Host, env: Pc -> Input, left: nat, n: nat): Host
    requires n <= left
    decreases left
  {
    var g := PlugAll(h, env(AwaitDevice(left)).news);
    if n == left then g else Looked(g, env, left - 1, n)
  }

  /** The own link is there at the look with `n` more to come, and every look so far was answered. */
  ghost predicate ShowsAt(h: Host, uuid: Text, env: Pc -> Input, left: nat, n: nat) {
    && n <= left
    && (forall i :: n <= i <= left ==> Answered(env, AwaitDevice(i)))
    && Initiator.Lookup(Looked(h, env, left, n).byId, Initiator.OwnName(uuid)).Some?
  }

  lemma ShowsLater(h: Host, uuid: Text, env: Pc -> Input, left: nat, k: nat, n: nat)
    requires left == k + 1 && n <= k && Answered(env, AwaitDevice(left))
    ensures ShowsAt(h, uuid, env, left, n) <==> ShowsAt(PlugAll(h, env(AwaitDevice(left)).news), uuid, env, k, n)
  {
    assert Looked(h, env, left, n) == Looked(PlugAll(h, env(AwaitDevice(left)).news), env, k, n);
  }

  /** A device that shows up at any of the looks is found, under its own name, and nothing else ever is. */
  lemma {:induction false} SearchFinds(h: Host, uuid: Text, env: Pc -> Input, left: nat)
    requires NodeIdentity.LinksOk(h) && IsUuid(uuid)
    ensures var link := Search(h, uuid, env, left).1;
            && (link.Some? <==> exists n: nat :: ShowsAt(h, uuid, env, left, n))
            && (link.Some? ==> link.value == Initiator.OwnName(uuid))
    decreases left
  {
    if Answered(env, AwaitDevice(left)) {
      var g := PlugAll(h, env(AwaitDevice(left)).news);
      NodeIdentity.PlugAllKeepsLinks(h, env(AwaitDevice(left)).news);
      Initiator.FoundIsOwn(g.byId, uuid);
      assert Looked(h, env, left, left) == g;
      if Initiator.Glob(g.byId, Initiator.DeviceGlob(uuid)) != [] {
        assert ShowsAt(h, uuid, env, left, left);
      } else if left > 0 {
        SearchFinds(g, uuid, env, left - 1);
        SearchShift(h, uuid, env, left, left - 1);
      } else {
        assert forall n: nat :: ShowsAt(h, uuid, env, left, n) ==> n == 0;
      }
    }
  }

  lemma SearchShift(h: Host, uuid: Text, env: Pc -> Input, left: nat, k: nat)
    requires left == k + 1 && Answered(env, AwaitDevice(left)) && !ShowsAt(h, uuid, env, left, left)
    ensures var g := PlugAll(h, env(AwaitDevice(left)).news);
            (exists n: nat :: ShowsAt(h, uuid, env, left, n)) <==> exists n: nat :: ShowsAt(g, uuid, env, k, n)
  {
    var g := PlugAll(h, env(AwaitDevice(left)).news);
    if n: nat :| ShowsAt(h, uuid, env, left, n) {
      ShowsLater(h, uuid, env, left, k, n);
    }
    if n: nat :| ShowsAt(g, uuid, env, k, n) {
      ShowsLater(h, uuid, env, left, k, n);
    }
  }

  function AfterConnect(h: Host, context: map<string, Text>, env: Pc -> Input): Host {
    if Executed(env, Connect) then h.(connected := h.connected + {Get(context, "nqn")} + env(Connect).also) else h
  }

  /** The deferred Disconnect. */
  function AfterFailure(h: Host, context: map<string, Text>, env: Pc -> Input): Host {
    if Executed(env, Disconnect) then Disconnected(h, Get(context, "nqn")) else h
  }

  /** stageVolume and the deferred clean-up: the host then, and the answer. */
  function StageDeviceEnd(h: Host, path: string, context: map<string, Text>, link: Text, env: Pc -> Input): (Host, Outcome) {
    var (g, ok) := Made(h, path, env);
    var c := Behind(g, link);
    if ok && Exists(h, path) && IsMountPoint(h, path) then (h, Success)
    else if !ok || c.None? || !Executed(env, Bind) then (AfterFailure(g, context, env), Failed(Internal))
    else if Answered(env, Bind) then (Push(g, path, c.value), Success)
    else (AfterFailure(Push(g, path, c.value), context, env), Failed(Internal))
  }

  /** The host after a stage, and its answer. */
  function StageEnd(h: Host, path: string, context: map<string, Text>, env: Pc -> Input): (Host, Outcome) {
    if !Answered(env, StageCheck) then (h, Failed(Internal))
    else if Exists(h, path) && IsMountPoint(h, path) then (h, Success)
    else if !Complete(context) then (h, Failed(Internal))
    else
      var (g, link) := Search(AfterConnect(h, context, env), Get(context, "uuid"), env, 20);
      if link.None? then (g, Failed(Internal)) else StageDeviceEnd(g, path, context, link.value, env)
  }

  lemma {:induction false} DisconnectCall(s: State, env: Pc -> Input)
    requires s.handler.pc.Disconnect? && s.handler.request.Stage?
    ensures Ended(RunAlone(s, env)) == (AfterFailure(s.host, s.handler.request.context, env), Failed(Internal))
  {
    var s1 := Advance(s, env);
  }

  lemma {:induction false} StageDeviceCall(s: State, env: Pc -> Input)
    requires s.handler.pc.PointCheck? && s.handler.request.Stage? && s.handler.link.Some?
    ensures var r := s.handler.request;
            Ended(RunAlone(s, env)) == StageDeviceEnd(s.host, r.path, r.context, s.handler.link.value, env)
  {
    var d, r := s.handler, s.handler.request;
    var (g, ok) := Made(s.host, r.path, env);
    PointCall(s, env);
    MadeMeans(s.host, r.path, env);
    if !ok {
      DisconnectCall(State(g, d.(pc := Disconnect)), env);
    } else if !(Exists(s.host, r.path) && IsMountPoint(s.host, r.path)) {
      BindCall(State(g, d.(pc := Bind)), env);
      var c := Behind(g, d.link.value);
      if c.None? || !Executed(env, Bind) {
        DisconnectCall(State(g, d.(pc := Disconnect)), env);
      } else if !Answered(env, Bind) {
        DisconnectCall(State(Push(g, r.path, c.value), d.(pc := Disconnect, bound := Some(env(Bind).fault))), env);
      }
    }
  }

  lemma {:induction false} StageCall(h: Host, path: string, context: map<string, Text>, env: Pc -> Input)
    ensures Served(h, Stage(path, context), env) == StageEnd(h, path, context, env)
  {
    var d := Begin(Stage(path, context));
    var s1 := Advance(State(h, d), env);
    if s1.handler.pc.Initiate? {
      var s2 := Advance(s1, env);
      if s2.handler.pc.Connect? {
        var s3 := Advance(s2, env);
        var (g, link) := Search(AfterConnect(h, context, env), Get(context, "uuid"), env, 20);
        SearchCall(AfterConnect(h, context, env), d, env, 20);
        if link.Some? {
          StageDeviceCall(State(g, d.(pc := PointCheck, link := link)), env);
        }
      }
    }
  }

  /** A failed check, a path that is staged, and a context without one of its five fields: nothing is touched. */
  lemma StageRefuses(h: Host, path: string, context: map<string, Text>, env: Pc -> Input)
    ensures var staged := Exists(h, path) && IsMountPoint(h, path);
            var end := StageEnd(h, path, context, env);
            && (!Answered(env, StageCheck) ==> end == (h, Failed(Internal)))
            && (Answered(env, StageCheck) && staged ==> end == (h, Success))
            && (forall k :: k in {"transport", "traddr", "trsvcid", "nqn", "uuid"} && Get(context, k) == [] ==>
                  Answered(env, StageCheck) && !staged ==> end == (h, Failed(Internal)))
  {
  }

  /**
   * With a complete context a stage of a path that is not mounted succeeds exactly if its device shows up at one of
   * the 21 looks, the mount point can be made, the link is still there and the bind mount is answered;
   * then that device is on top.
   */
  lemma StageMeans(h: Host, path: string, context: map<string, Text>, env: Pc -> Input)
    requires NodeIdentity.LinksOk(h) && IsUuid(Get(context, "uuid"))
    requires Answered(env, StageCheck) && !(Exists(h, path) && IsMountPoint(h, path))
    ensures var (g, outcome) := StageEnd(h, path, context, env);
            var uuid, h1 := Get(context, "uuid"), AfterConnect(h, context, env);
            var (h2, _) := Search(h1, uuid, env, 20);
            && (Complete(context) ==>
                  (outcome.Success? <==>
                     && (exists n: nat :: n <= 20 && ShowsAt(h1, uuid, env, 20, n))
                     && Made(h2, path, env).1
                     && ((Exists(h2, path) && IsMountPoint(h2, path))
                         || (Behind(h2, Initiator.OwnName(uuid)).Some? && Answered(env, Bind)))))
            && (outcome.Success? && !IsMountPoint(h, path) ==>
                  Behind(h2, Initiator.OwnName(uuid)).Some? && Stack(g, path) == [Behind(h2, Initiator.OwnName(uuid)).value])
  {
    var h1 := AfterConnect(h, context, env);
    SearchFinds(h1, Get(context, "uuid"), env, 20);
    var (h2, link) := Search(h1, Get(context, "uuid"), env, 20);
    SearchMounts(h1, Get(context, "uuid"), env, 20);
    MadeMeans(h2, path, env);
  }

  lemma {:induction false} SearchMounts(h: Host, uuid: Text, env: Pc -> Input, left: nat)
    ensures Search(h, uuid, env, left).0 == h.(byId := Search(h, uuid, env, left).0.byId)
    decreases left
  {
    if Answered(env, AwaitDevice(left)) && left > 0 {
      SearchMounts(PlugAll(h, env(AwaitDevice(left)).news), uuid, env, left - 1);
    }
  }
}
