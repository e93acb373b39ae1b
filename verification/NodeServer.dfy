/** The node service's own code (pkg/driver/nodeserver.go), acting in place on the host it runs on. */
module NodeServer {
  import opened Common
  import opened Paths
  import opened NodeProtocol
  import Initiator
  import opened NodeCalls

  /** strings.ToLower on ASCII. */
  function Lower(t: Text): Text {
    seq(|t|, i requires 0 <= i < |t| => if 65 <= t[i] <= 90 then t[i] + 32 else t[i])
  }

  /** The command lines of Connect and Disconnect. */
  function ConnectCommand(context: map<string, Text>): seq<Text> {
    [Bytes("nvme"), Bytes("connect-all"), Bytes("-t"), Lower(Get(context, "transport")),
     Bytes("-a"), Get(context, "traddr"), Bytes("-q"), Get(context, "nqn"), Bytes("-l"), Bytes("1800")]
  }

  function DisconnectCommand(context: map<string, Text>): seq<Text> {
    [Bytes("nvme"), Bytes("disconnect"), Bytes("-n"), Get(context, "nqn")]
  }

  /** Which option carries which field of the publish context. */
  lemma CommandFields(context: map<string, Text>)
    ensures var c := ConnectCommand(context);
            && |c| == 10 && c[0] == Bytes("nvme") && c[1] == Bytes("connect-all")
            && c[2] == Bytes("-t") && |c[3]| == |Get(context, "transport")|
            && (forall i :: 0 <= i < |c[3]| ==>
                  var b := Get(context, "transport")[i];
                  c[3][i] == if 'A' as int <= b <= 'Z' as int then b + ('a' as int - 'A' as int) else b)
            && c[4] == Bytes("-a") && c[5] == Get(context, "traddr")
            && c[6] == Bytes("-q") && c[7] == Get(context, "nqn")
            && c[8] == Bytes("-l") && c[9] == Bytes("1800")
    ensures var c := DisconnectCommand(context);
            |c| == 4 && c[0] == Bytes("nvme") && c[1] == Bytes("disconnect") && c[2] == Bytes("-n") && c[3] == Get(context, "nqn")
  {
  }

  /** A stage gets as far as Connect. */
  predicate Connects(h: Host, path: string, context: map<string, Text>, env: Pc -> Input) {
    Answered(env, StageCheck) && !(Exists(h, path) && IsMountPoint(h, path)) && Complete(context)
  }

  class Server {
    var files: set<string>
    var dirs: set<string>
    var mounts: map<string, seq<Content>>
    var connected: set<Text>
    var epochs: map<Text, nat>
    var byId: seq<Initiator.Link>
    var commands: seq<seq<Text>>   // what has been run so far

    ghost function Now(): Host
      reads this
    {
      Host(files, dirs, mounts, connected, epochs, byId)
    }

    constructor (h: Host)
      ensures Now() == h && commands == []
    {
      files, dirs, mounts := h.files, h.dirs, h.mounts;
      connected, epochs, byId := h.connected, h.epochs, h.byId;
      commands := [];
    }

    /** Replaces the host's state by `h`: the effect of one system call. */
    method Become(h: Host)
      modifies this
      ensures commands == old(commands)
      ensures Now() == h
    {
      files, dirs, mounts := h.files, h.dirs, h.mounts;
      connected, epochs, byId := h.connected, h.epochs, h.byId;
    }

    method Current() returns (h: Host)
      ensures h == Now()
    {
      h := Host(files, dirs, mounts, connected, epochs, byId);
    }

    /** isStaged: None stands for an error; a path that does not exist is not staged. */
    method IsStaged(path: string, f: Fault) returns (staged: Option<bool>)
      ensures staged.None? <==> !f.NoFault?
      ensures staged.Some? ==> (staged.value <==> Exists(Now(), path) && IsMountPoint(Now(), path))
    {
      if !f.NoFault? {
        return None;
      }
      if path !in files && path !in dirs {
        return Some(false);
      }
      return Some(path in mounts && mounts[path] != []);
    }

    /**
     * createMountPoint: creates the file (and the directories above it) unless the path
     * exists; tells whether something is mounted there already. None is an error.
     */
    method CreateMountPoint(d: Handler, env: Pc -> Input) returns (mounted: Option<bool>)
      requires d.pc.PointCheck?
      modifies this
      ensures commands == old(commands)
      ensures mounted.None? ==> RunAlone(State(old(Now()), d), env) == RunAlone(State(Now(), d.(pc := OnError(d.request))), env)
      ensures mounted == Some(true) && d.request.Stage? ==>
                RunAlone(State(old(Now()), d), env) == State(Now(), d.(pc := Done(Success)))
      ensures mounted.Some? && (d.request.Stage? ==> !mounted.value) ==>
                RunAlone(State(old(Now()), d), env) == RunAlone(State(Now(), d.(pc := Bind)), env)
    {
      var path := d.request.path;
      ghost var s := Advance(State(Now(), d), env);
      if !env(PointCheck).fault.NoFault? {
        return None;
      }
      if path in files || path in dirs {
        return Some(path in mounts && mounts[path] != []);
      }
      assert s == State(Now(), d.(pc := PointDirs));
      var ok := CreateDirs(d, env);
      if !ok {
        return None;
      }
      ok := CreateFile(d, env);
      return if ok then Some(false) else None;
    }

    /** os.MkdirAll of the parent directory. */
    method CreateDirs(d: Handler, env: Pc -> Input) returns (ok: bool)
      modifies this
      ensures commands == old(commands)
      ensures RunAlone(State(old(Now()), d.(pc := PointDirs)), env)
           == RunAlone(State(Now(), d.(pc := if ok then PointFile else OnError(d.request))), env)
    {
      ghost var s := Advance(State(Now(), d.(pc := PointDirs)), env);
      var f := env(PointDirs).fault;
      if !f.Lost? {
        dirs := dirs + Ancestry(Dir(d.request.path));
      }
      return f.NoFault?;
    }

    /** The last part of createMountPoint: create the file if it is still missing. */
    method CreateFile(d: Handler, env: Pc -> Input) returns (ok: bool)
      modifies this
      ensures commands == old(commands)
      ensures RunAlone(State(old(Now()), d.(pc := PointFile)), env)
           == RunAlone(State(Now(), d.(pc := if ok then Bind else OnError(d.request))), env)
    {
      var path := d.request.path;
      ghost var s := Advance(State(Now(), d.(pc := PointFile)), env);
      if path in files || path in dirs {
        return true;
      }
      if Dir(path) !in dirs {
        return false;
      }
      var f := env(PointFile).fault;
      if !f.Lost? {
        files := files + {path};
      }
      return f.NoFault?;
    }

    /** mounter.Mount(source, path, "", ["bind"]). */
    method Mount(d: Handler, env: Pc -> Input) returns (ok: bool, d': Handler)
      requires d.pc.Bind?
      modifies this
      ensures commands == old(commands)
      ensures RunAlone(State(old(Now()), d), env) == RunAlone(State(Now(), d'), env)
      ensures d' == d.(pc := if ok then Done(Success) else OnError(d.request), bound := d'.bound)
    {
      ghost var s := Advance(State(Now(), d), env);
      var h := Current();
      var f := env(Bind).fault;
      var c := Source(h, d);
      if c.None? || !Exists(h, d.request.path) || f.Lost? {
        return false, d.(pc := OnError(d.request));
      }
      Become(Push(h, d.request.path, c.value));
      return f.NoFault?, d.(pc := if f.NoFault? then Done(Success) else OnError(d.request), bound := Some(f));
    }

    method NodeStageVolume(path: string, context: map<string, Text>, env: Pc -> Input)
      returns (outcome: Outcome, d: Handler)
      modifies this
      ensures (Now(), outcome) == StageEnd(old(Now()), path, context, env)
      ensures commands == old(commands)
                + (if Connects(old(Now()), path, context, env) then [ConnectCommand(context)] else [])
                + (if d.disconnected then [DisconnectCommand(context)] else [])
      ensures d.pc == Done(outcome)
      ensures State(Now(), d) == RunAlone(State(old(Now()), Begin(Stage(path, context))), env)
    {
      StageCall(Now(), path, context, env);
      d := Begin(Stage(path, context));
      ghost var s := Advance(State(Now(), d), env);
      var staged := IsStaged(path, env(StageCheck).fault);
      if staged.None? {
        return Failed(Internal), d.(pc := Done(Failed(Internal)));
      }
      if staged.value {
        return Success, d.(pc := Done(Success));
      }
      s := Advance(s, env);
      if !Complete(context) {
        return Failed(Internal), d.(pc := Done(Failed(Internal)));
      }
      d := d.(pc := Connect);
      var found;
      found, d := ConnectDevice(d, env);
      if !found {
        return Failed(Internal), d;
      }
      outcome, d := StageDevice(d, env);
    }

    /** initiator.Connect: the command's own failure is only logged; what counts is that a link shows up. */
    method ConnectDevice(d: Handler, env: Pc -> Input) returns (found: bool, d': Handler)
      requires d.pc.Connect? && d.request.Stage?
      modifies this
      ensures commands == old(commands) + [ConnectCommand(d.request.context)]
      ensures RunAlone(State(old(Now()), d), env) == RunAlone(State(Now(), d'), env)
      ensures d' == d.(pc := if found then PointCheck else Done(Failed(Internal)), link := d'.link)
    {
      var context := d.request.context;
      ghost var s := Advance(State(Now(), d), env);
      commands := commands + [[Bytes("nvme"), Bytes("connect-all"), Bytes("-t"), Lower(Get(context, "transport")),
                               Bytes("-a"), Get(context, "traddr"), Bytes("-q"), Get(context, "nqn"),
                               Bytes("-l"), Bytes("1800")]];
      if !env(Connect).fault.Lost? {
        connected := connected + {Get(d.request.context, "nqn")} + env(Connect).also;
      }
      assert s == State(Now(), d.(pc := AwaitDevice(RETRIES)));
      found, d' := WaitForDeviceReady(d, env);
    }

    /** waitForDeviceReady: look at the links, at most 21 times, and take the first match. */
    method WaitForDeviceReady(d: Handler, env: Pc -> Input) returns (found: bool, d': Handler)
      requires d.request.Stage?
      modifies this
      ensures commands == old(commands)
      ensures RunAlone(State(old(Now()), d.(pc := AwaitDevice(RETRIES))), env) == RunAlone(State(Now(), d'), env)
      ensures d' == d.(pc := if found then PointCheck else Done(Failed(Internal)), link := d'.link)
    {
      var glob := Initiator.DeviceGlob(Get(d.request.context, "uuid"));
      var left: nat := RETRIES;
      while true
        invariant commands == old(commands)
        invariant RunAlone(State(old(Now()), d.(pc := AwaitDevice(RETRIES))), env)
               == RunAlone(State(Now(), d.(pc := AwaitDevice(left))), env)
        decreases left
      {
        var input := env(AwaitDevice(left));
        ghost var s := Advance(State(Now(), d.(pc := AwaitDevice(left))), env);
        if !input.fault.NoFault? {
          return false, d.(pc := Done(Failed(Internal)));
        }
        var h := Current();
        Become(PlugAll(h, input.news));
        var matches := Initiator.Glob(byId, glob);
        if |matches| >= 1 {
          return true, d.(pc := PointCheck, link := Some(matches[0]));
        }
        if left == 0 {
          return false, d.(pc := Done(Failed(Internal)));
        }
        left := left - 1;
      }
    }

    /** stageVolume, and the deferred Disconnect when it fails. */
    method StageDevice(d: Handler, env: Pc -> Input) returns (outcome: Outcome, d': Handler)
      requires d.pc.PointCheck? && d.request.Stage? && !d.disconnected
      modifies this
      ensures commands == old(commands) + if d'.disconnected then [DisconnectCommand(d.request.context)] else []
      ensures d'.pc == Done(outcome)
      ensures State(Now(), d') == RunAlone(State(old(Now()), d), env)
    {
      var mounted := CreateMountPoint(d, env);
      if mounted == Some(true) {
        return Success, d.(pc := Done(Success));
      }
      d' := d.(pc := Disconnect);
      if mounted.Some? {
        var ok;
        ok, d' := Mount(d.(pc := Bind), env);
        if ok {
          return Success, d';
        }
      }
      d' := DisconnectAll(d', env);
      return Failed(Internal), d';
    }

    method DisconnectAll(d: Handler, env: Pc -> Input) returns (d': Handler)
      requires d.pc.Disconnect? && d.request.Stage?
      modifies this
      ensures commands == old(commands) + [DisconnectCommand(d.request.context)] && d'.disconnected
      ensures State(Now(), d') == RunAlone(State(old(Now()), d), env)
      ensures d'.pc == Done(Failed(Internal))
    {
      ghost var s := Advance(State(Now(), d), env);
      var h := Current();
      commands := commands + [[Bytes("nvme"), Bytes("disconnect"), Bytes("-n"), Get(d.request.context, "nqn")]];
      if !env(Disconnect).fault.Lost? {
        Become(Disconnected(h, Get(d.request.context, "nqn")));
      }
      d' := d.(pc := Done(Failed(Internal)), disconnected := true);
    }

    method NodePublishVolume(source: string, path: string, block: bool, env: Pc -> Input)
      returns (outcome: Outcome, d: Handler)
      modifies this
      ensures (Now(), outcome) == PublishEnd(old(Now()), source, path, block, env)
      ensures outcome == Failed(InvalidArgument) <==> !block
      ensures !block ==> Now() == old(Now())
      ensures var (g, made) := Made(old(Now()), path, env);
              outcome.Success? <==> block && made && Shown(g, source).Some? && Answered(env, Bind)
      ensures outcome.Success? && IsMountPoint(old(Now()), source) ==>
                Stack(Now(), path) == Stack(old(Now()), path) + [Stack(old(Now()), source)[|Stack(old(Now()), source)| - 1]]
      ensures commands == old(commands)
      ensures d.pc == Done(outcome)
      ensures State(Now(), d) == RunAlone(State(old(Now()), Begin(Publish(source, path, block))), env)
    {
      PublishCall(Now(), source, path, block, env);
      PublishMeans(Now(), source, path, block, env);
      d := Begin(Publish(source, path, block));
      ghost var s := Advance(State(Now(), d), env);
      if !block {
        return Failed(InvalidArgument), d.(pc := Done(Failed(InvalidArgument)));
      }
      d := d.(pc := PointCheck);
      var mounted := CreateMountPoint(d, env); // whether something is mounted there already is ignored
      if mounted.None? {
        return Failed(Internal), d.(pc := Done(Failed(Internal)));
      }
      var ok;
      ok, d := Mount(d.(pc := Bind), env);
      return if ok then Success else Failed(Internal), d;
    }

    method NodeUnstageVolume(path: string, env: Pc -> Input) returns (outcome: Outcome, d: Handler)
      modifies this
      ensures (Now(), outcome) == UnstageEnd(old(Now()), path, env)
      ensures SoundPath(old(Now()), path) && outcome.Success? ==> Stack(Now(), path) == []
      ensures commands == old(commands)
      ensures d.pc == Done(outcome)
      ensures State(Now(), d) == RunAlone(State(old(Now()), Begin(Unstage(path))), env)
    {
      UnstageCall(Now(), path, env);
      if SoundPath(Now(), path) {
        UnstageMeans(Now(), path, env);
      }
      d := Begin(Unstage(path));
      ghost var s := Advance(State(Now(), d), env);
      var staged := IsStaged(path, env(UnstageCheck).fault);
      if staged.None? {
        return Failed(Internal), d.(pc := Done(Failed(Internal)));
      }
      if !staged.value {
        return Success, d.(pc := Done(Success));
      }
      outcome, d := DeleteMountPoint(d.(pc := DropCheck), env);
    }

    method NodeUnpublishVolume(path: string, env: Pc -> Input) returns (outcome: Outcome, d: Handler)
      modifies this
      ensures (Now(), outcome) == DropEnd(old(Now()), path, env)
      ensures SoundPath(old(Now()), path) && outcome.Success? ==> !Exists(Now(), path) && Stack(Now(), path) == []
      ensures commands == old(commands)
      ensures d.pc == Done(outcome)
      ensures State(Now(), d) == RunAlone(State(old(Now()), Begin(Unpublish(path))), env)
    {
      UnpublishCall(Now(), path, env);
      if SoundPath(Now(), path) {
        DropMeans(Now(), path, env);
      }
      outcome, d := DeleteMountPoint(Begin(Unpublish(path)), env);
    }

    /** deleteMountPoint: unmount once, remove the file, and remove the directory if that emptied it. */
    method DeleteMountPoint(d: Handler, env: Pc -> Input) returns (outcome: Outcome, d': Handler)
      requires d.pc.DropCheck?
      modifies this
      ensures commands == old(commands)
      ensures d' == d.(pc := Done(outcome))
      ensures State(Now(), d') == RunAlone(State(old(Now()), d), env)
    {
      var path := d.request.path;
      ghost var s := Advance(State(Now(), d), env);
      if !env(DropCheck).fault.NoFault? {
        return Failed(Internal), d.(pc := Done(Failed(Internal)));
      }
      var h := Current();
      if !Exists(h, path) {
        return Success, d.(pc := Done(Success));
      }
      if IsMountPoint(h, path) {
        s := Advance(s, env);
        var f := env(DropMount).fault;
        if !f.Lost? {
          Become(Pop(h, path));
        }
        if !f.NoFault? {
          return Failed(Internal), d.(pc := Done(Failed(Internal)));
        }
      }
      assert s == State(Now(), d.(pc := DropFile));
      outcome, d' := RemoveFile(d.(pc := DropFile), env);
    }

    method RemoveFile(d: Handler, env: Pc -> Input) returns (outcome: Outcome, d': Handler)
      requires d.pc.DropFile?
      modifies this
      ensures commands == old(commands)
      ensures d' == d.(pc := Done(outcome))
      ensures State(Now(), d') == RunAlone(State(old(Now()), d), env)
    {
      var path := d.request.path;
      ghost var s := Advance(State(Now(), d), env);
      var h := Current();
      var f := env(DropFile).fault;
      if Exists(h, path) || !f.NoFault? {
        if !Removable(h, path) || f.Lost? {
          return Failed(Internal), d.(pc := Done(Failed(Internal)));
        }
        Become(Remove(h, path));
        if !f.NoFault? {
          return Failed(Internal), d.(pc := Done(Failed(Internal)));
        }
      }
      assert s == State(Now(), d.(pc := DropDir));
      RemoveEmptyDir(d.(pc := DropDir), env);
      return Success, d.(pc := Done(Success));
    }

    /** Any error in removing the parent directory is ignored. */
    method RemoveEmptyDir(d: Handler, env: Pc -> Input)
      requires d.pc.DropDir?
      modifies this
      ensures commands == old(commands)
      ensures State(Now(), d.(pc := Done(Success))) == RunAlone(State(old(Now()), d), env)
    {
      ghost var s := Advance(State(Now(), d), env);
      var h := Current();
      var dir := Dir(d.request.path);
      if dir in dirs && dir !in files && Removable(h, dir) && !env(DropDir).fault.Lost? {
        Become(Remove(h, dir));
      }
    }
  }
}
