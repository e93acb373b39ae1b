/**
 * Whole runs of the node service: requests for any number of volumes, their
 * system calls interleaved at will, under any faults. The per-volume lock
 * (module KeyedLock) lets at most one request per volume be in progress.
 */
module NodeRuns {
  import opened Common
  import opened Paths
  import opened NodeProtocol

  datatype World = World(host: Host, handlers: map<string, Handler>)

  datatype Event =
    | Arrive(volume: string, request: Request)
    | Take(volume: string, input: Input)

  predicate Busy(w: World, v: string) { v in w.handlers && !w.handlers[v].pc.Done? }

  /** A request for a busy volume waits for the lock; until then it changes nothing. */
  function Next(w: World, e: Event): World {
    match e
    case Arrive(v, r) => if Busy(w, v) then w else w.(handlers := w.handlers[v := Begin(r)])
    case Take(v, i) =>
      if !Busy(w, v) then w
      else
        var t := Step(State(w.host, w.handlers[v]), i);
        World(t.host, w.handlers[v := t.handler])
  }

  function Run(w: World, es: seq<Event>): World
    decreases |es|
  {
    if es == [] then w else Run(Next(w, es[0]), es[1..])
  }

  lemma {:induction false} RunConcat(w: World, es: seq<Event>, fs: seq<Event>)
    ensures Run(w, es + fs) == Run(Run(w, es), fs)
    decreases |es|
  {
    if es == [] {
      assert es + fs == fs;
    } else {
      assert (es + fs)[0] == es[0] && (es + fs)[1..] == es[1..] + fs;
      RunConcat(Next(w, es[0]), es[1..], fs);
    }
  }

  /** The events of one whole request of `v`, when the world answers as `env` says. */
  function Script(v: string, s: State, env: Pc -> Input): seq<Event>
    decreases Rank(s.handler.pc)
  {
    if s.handler.pc.Done? then []
    else [Take(v, env(s.handler.pc))] + Script(v, Step(s, env(s.handler.pc)), env)
  }

  /** Served with nobody else around, a request ends where RunAlone (and hence the driver's method) says. */
  lemma {:induction false} ScriptIsCall(w: World, v: string, env: Pc -> Input)
    requires v in w.handlers
    ensures var s := State(w.host, w.handlers[v]);
            var r := RunAlone(s, env);
            Run(w, Script(v, s, env)) == World(r.host, w.handlers[v := r.handler])
    decreases Rank(w.handlers[v].pc)
  {
    var s := State(w.host, w.handlers[v]);
    if s.handler.pc.Done? {
      assert w.handlers[v := s.handler] == w.handlers;
    } else {
      var e := Take(v, env(s.handler.pc));
      var t, w' := Step(s, e.input), Next(w, e);
      assert w' == World(t.host, w.handlers[v := t.handler]);
      ScriptIsCall(w', v, env);
      var es := Script(v, s, env);
      assert es[0] == e && es[1..] == Script(v, t, env);
      assert w.handlers[v := t.handler][v := RunAlone(t, env).handler] == w.handlers[v := RunAlone(t, env).handler];
    }
  }

  // ---------------------------------------------------------------------
  // One mount per staging path.

  predicate IsStaging(r: Request) { r.Stage? || r.Unstage? }

  /** Staging paths (the set S) end in the ID of their volume; target paths lie outside S. */
  predicate Fits(v: string, r: Request, S: set<string>) {
    if IsStaging(r) then '/' !in v && r.path in S && EndsIn(r.path, v) else r.path !in S
  }

  predicate RequestsFit(es: seq<Event>, S: set<string>) {
    forall i :: 0 <= i < |es| && es[i].Arrive? ==> Fits(es[i].volume, es[i].request, S)
  }

  ghost predicate HandlerOk(h: Host, v: string, d: Handler, S: set<string>) {
    && Fits(v, d.request, S)
    && (d.request.Stage? && (d.pc.PointDirs? || d.pc.PointFile? || d.pc.Bind?) ==> Stack(h, d.request.path) == [])
  }

  /** Mount points exist, and no staging path carries two mounts. */
  ghost predicate HostOk(h: Host, S: set<string>) {
    && (forall p :: IsMountPoint(h, p) ==> Exists(h, p))
    && (forall p :: p in S ==> |Stack(h, p)| <= 1)
  }

  ghost predicate Inv(w: World, S: set<string>) {
    && HostOk(w.host, S)
    && forall v :: v in w.handlers ==> HandlerOk(w.host, v, w.handlers[v], S)
  }

  lemma OwnMountPointExists(h: Host, d: Handler, i: Input)
    requires IsMountPoint(h, d.request.path) ==> Exists(h, d.request.path)
    ensures var t := Step(State(h, d), i).host;
            IsMountPoint(t, d.request.path) ==> Exists(t, d.request.path)
  {
  }

  lemma OtherMountPointExists(h: Host, d: Handler, i: Input, p: string)
    requires p != d.request.path && IsMountPoint(h, p) && Exists(h, p)
    ensures Exists(Step(State(h, d), i).host, p)
  {
  }

  lemma StepKeepsMountPoints(h: Host, d: Handler, i: Input, p: string)
    requires IsMountPoint(h, p) ==> Exists(h, p)
    ensures var t := Step(State(h, d), i).host;
            IsMountPoint(t, p) ==> Exists(t, p)
  {
    if p == d.request.path {
      OwnMountPointExists(h, d, i);
    } else {
      StepMountFrame(State(h, d), i, p);
      if IsMountPoint(h, p) {
        OtherMountPointExists(h, d, i, p);
      }
    }
  }

  lemma StepKeepsDepth(h: Host, v: string, d: Handler, i: Input, S: set<string>, p: string)
    requires HandlerOk(h, v, d, S) && p in S && |Stack(h, p)| <= 1
    ensures |Stack(Step(State(h, d), i).host, p)| <= 1
  {
    if p != d.request.path {
      StepMountFrame(State(h, d), i, p);
    }
  }

  lemma OwnStepKeepsHandlerOk(h: Host, v: string, d: Handler, i: Input, S: set<string>)
    requires HandlerOk(h, v, d, S) && (IsMountPoint(h, d.request.path) ==> Exists(h, d.request.path))
    ensures var t := Step(State(h, d), i);
            HandlerOk(t.host, v, t.handler, S)
  {
  }

  lemma OwnStepKeepsHostOk(h: Host, v: string, d: Handler, i: Input, S: set<string>)
    requires HostOk(h, S) && HandlerOk(h, v, d, S)
    ensures var t := Step(State(h, d), i);
            HostOk(t.host, S) && HandlerOk(t.host, v, t.handler, S)
  {
    var t := Step(State(h, d), i);
    OwnStepKeepsHandlerOk(h, v, d, i, S);
    forall p
      ensures IsMountPoint(t.host, p) ==> Exists(t.host, p)
    {
      StepKeepsMountPoints(h, d, i, p);
    }
    forall p | p in S
      ensures |Stack(t.host, p)| <= 1
    {
      StepKeepsDepth(h, v, d, i, S, p);
    }
  }

  lemma OthersStepKeepsHandlerOk(h: Host, v: string, d: Handler, i: Input, u: string, x: Handler, S: set<string>)
    requires u != v && HandlerOk(h, v, d, S) && HandlerOk(h, u, x, S)
    ensures HandlerOk(Step(State(h, d), i).host, u, x, S)
  {
    if x.request.Stage? {
      if x.request.path == d.request.path {
        OneOwner(x.request.path, u, v);
      }
      StepMountFrame(State(h, d), i, x.request.path);
    }
  }

  lemma NextKeepsInv(w: World, e: Event, S: set<string>)
    requires Inv(w, S) && (e.Arrive? ==> Fits(e.volume, e.request, S))
    ensures Inv(Next(w, e), S)
  {
    if e.Take? && Busy(w, e.volume) {
      var d, w' := w.handlers[e.volume], Next(w, e);
      OwnStepKeepsHostOk(w.host, e.volume, d, e.input, S);
      forall u | u in w'.handlers
        ensures HandlerOk(w'.host, u, w'.handlers[u], S)
      {
        if u != e.volume {
          OthersStepKeepsHandlerOk(w.host, e.volume, d, e.input, u, w.handlers[u], S);
        }
      }
    }
  }

  /** However requests interleave and fail, a staging path never carries more than one mount. */
  lemma {:induction false} StagingMountsNeverStack(w: World, es: seq<Event>, S: set<string>)
    requires Inv(w, S) && RequestsFit(es, S)
    ensures Inv(Run(w, es), S)
    decreases |es|
  {
    if es != [] {
      NextKeepsInv(w, es[0], S);
      StagingMountsNeverStack(Next(w, es[0]), es[1..], S);
    }
  }

  // ---------------------------------------------------------------------
  // What a failed stage leaves behind.

  ghost predicate HistoryOk(d: Handler) {
    d.request.Stage? ==>
      match d.pc
      case Done(Success) => !d.disconnected
      case Done(Failed(_)) => (d.disconnected <==> d.link.Some?) && (d.bound.None? || d.bound == Some(Applied))
      case Disconnect => d.link.Some? && !d.disconnected && (d.bound.None? || d.bound == Some(Applied))
      case PointCheck => d.link.Some? && !d.disconnected && d.bound.None?
      case PointDirs => d.link.Some? && !d.disconnected && d.bound.None?
      case PointFile => d.link.Some? && !d.disconnected && d.bound.None?
      case Bind => d.link.Some? && !d.disconnected && d.bound.None?
      case _ => (d.pc.StageCheck? || d.pc.Initiate? || d.pc.Connect? || d.pc.AwaitDevice?)
                && d.link.None? && !d.disconnected && d.bound.None?
  }

  lemma StepKeepsHistory(s: State, i: Input)
    requires HistoryOk(s.handler)
    ensures HistoryOk(Step(s, i).handler)
  {
  }

  /** A stage changes the mount table in the step that fills in `bound`, and in no other. */
  lemma StageMountsOnlyByBind(s: State, i: Input)
    requires s.handler.request.Stage? && HistoryOk(s.handler)
    ensures var t := Step(s, i);
            t.host.mounts != s.host.mounts <==> s.handler.bound.None? && t.handler.bound.Some?
  {
    var t := Step(s, i);
    if t.handler.bound.Some? && s.handler.bound.None? {
      assert |Stack(t.host, s.handler.request.path)| == |Stack(s.host, s.handler.request.path)| + 1;
    }
  }

  lemma {:induction false} RunKeepsHistory(w: World, es: seq<Event>)
    requires forall v :: v in w.handlers ==> HistoryOk(w.handlers[v])
    ensures forall v :: v in Run(w, es).handlers ==> HistoryOk(Run(w, es).handlers[v])
    decreases |es|
  {
    if es != [] {
      var e := es[0];
      if e.Take? && Busy(w, e.volume) {
        StepKeepsHistory(State(w.host, w.handlers[e.volume]), e.input);
      }
      RunKeepsHistory(Next(w, e), es[1..]);
    }
  }

  /** No further request of `v` is let in during `es`. */
  ghost predicate SameRequest(w: World, es: seq<Event>, v: string)
    decreases |es|
  {
    es == [] || (
      && (es[0].Arrive? && es[0].volume == v ==> Busy(w, v))
      && SameRequest(Next(w, es[0]), es[1..], v))
  }

  /** The stage of `v` found `before` at its path and has added to it exactly what its bind mount added. */
  ghost predicate AddedByBind(w: World, v: string, before: seq<Content>) {
    && v in w.handlers && w.handlers[v].request.Stage? && HistoryOk(w.handlers[v])
    && var stack := Stack(w.host, w.handlers[v].request.path);
       if w.handlers[v].bound.None? then stack == before else |stack| == |before| + 1 && stack[..|before|] == before
  }

  lemma OwnStepAdds(h: Host, d: Handler, i: Input, before: seq<Content>)
    requires d.request.Stage? && HistoryOk(d) && !d.pc.Done?
    requires var stack := Stack(h, d.request.path);
             if d.bound.None? then stack == before else |stack| == |before| + 1 && stack[..|before|] == before
    ensures var t := Step(State(h, d), i);
            var stack := Stack(t.host, d.request.path);
            if t.handler.bound.None? then stack == before else |stack| == |before| + 1 && stack[..|before|] == before
  {
  }

  lemma NextAdds(w: World, e: Event, S: set<string>, v: string, before: seq<Content>)
    requires Inv(w, S) && AddedByBind(w, v, before) && (e.Arrive? && e.volume == v ==> Busy(w, v))
    ensures AddedByBind(Next(w, e), v, before)
  {
    if e.Take? && Busy(w, e.volume) {
      var d := w.handlers[e.volume];
      if e.volume == v {
        StepKeepsHistory(State(w.host, d), e.input);
        OwnStepAdds(w.host, d, e.input, before);
      } else {
        var p := w.handlers[v].request.path;
        assert HandlerOk(w.host, v, w.handlers[v], S) && HandlerOk(w.host, e.volume, d, S);
        if d.request.path == p {
          OneOwner(p, v, e.volume);
        }
        StepMountFrame(State(w.host, d), e.input, p);
      }
    }
  }

  lemma {:induction false} RunAdds(w: World, es: seq<Event>, S: set<string>, v: string, before: seq<Content>)
    requires Inv(w, S) && RequestsFit(es, S) && SameRequest(w, es, v) && AddedByBind(w, v, before)
    ensures AddedByBind(Run(w, es), v, before)
    decreases |es|
  {
    if es != [] {
      NextKeepsInv(w, es[0], S);
      NextAdds(w, es[0], S, v, before);
      RunAdds(Next(w, es[0]), es[1..], S, v, before);
    }
  }

  /**
   * In every interleaving, a stage that arrives and fails has run Disconnect exactly when
   * its Connect had found a device, and what is mounted at its path is what was there when it arrived
   * exactly unless its bind mount took effect although it was reported as failed.
   */
  lemma FailedStages(w: World, v: string, r: Request, es: seq<Event>, S: set<string>)
    requires Inv(w, S) && !Busy(w, v) && r.Stage? && Fits(v, r, S)
    requires RequestsFit(es, S) && SameRequest(Next(w, Arrive(v, r)), es, v)
    ensures var end := Run(Next(w, Arrive(v, r)), es);
            && v in end.handlers && end.handlers[v].request == r
            && (end.handlers[v].pc.Done? && end.handlers[v].pc.outcome.Failed? ==>
                  && (end.handlers[v].disconnected <==> end.handlers[v].link.Some?)
                  && (Stack(end.host, r.path) == Stack(w.host, r.path) <==> end.handlers[v].bound != Some(Applied)))
  {
    var w1 := Next(w, Arrive(v, r));
    NextKeepsInv(w, Arrive(v, r), S);
    RunAdds(w1, es, S, v, Stack(w.host, r.path));
    RequestStays(w1, es, v);
  }

  lemma {:induction false} RequestStays(w: World, es: seq<Event>, v: string)
    requires v in w.handlers && SameRequest(w, es, v)
    ensures v in Run(w, es).handlers && Run(w, es).handlers[v].request == w.handlers[v].request
    decreases |es|
  {
    if es != [] {
      RequestStays(Next(w, es[0]), es[1..], v);
    }
  }
}
