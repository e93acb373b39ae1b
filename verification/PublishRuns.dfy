/**
 * Whole runs of the publish protocol: any number of volumes, any interleaving
 * of their RPC steps, any pattern of faults. Calls for one volume are
 * serialised by the caller, as pkg/util/jsonrpc.go:43-64 demands.
 */
module PublishRuns {
  import opened Common
  import opened SpdkTarget
  import opened PublishProtocol
  import PublishCalls

  datatype World = World(target: Target, transCreated: bool, pcs: map<string, Pc>)

  datatype Event =
    | Start(lvol: string, op: Op)
    | Take(lvol: string, input: Input)

  function PcOf(w: World, v: string): Pc {
    if v in w.pcs then w.pcs[v] else Done(Unpublish, Success)
  }

  function StateOf(w: World, v: string): State {
    State(w.target, w.transCreated, PcOf(w, v))
  }

  /** An event that cannot happen (a second call for a busy volume, a step of an idle one) changes nothing. */
  function Next(a: Address, w: World, e: Event): World {
    match e
    case Start(v, op) =>
      if PcOf(w, v).Done? then w.(pcs := w.pcs[v := QueryBdev(op)]) else w
    case Take(v, i) =>
      var r := Step(a, v, StateOf(w, v), i);
      World(r.target, r.transCreated, w.pcs[v := r.pc])
  }

  function Run(a: Address, w: World, es: seq<Event>): World
    decreases |es|
  {
    if es == [] then w else Run(a, Next(a, w, es[0]), es[1..])
  }

  // ---------------------------------------------------------------------
  // What every reachable state satisfies.

  /** At most one namespace, backed by the volume itself, and one listener, the node's own. */
  ghost predicate Tidy(a: Address, t: Target, v: string) {
    VolumeNqn(v) in t.subsystems ==>
      var s := t.subsystems[VolumeNqn(v)];
      && |s.namespaces| <= 1 && (|s.namespaces| == 1 ==> s.namespaces[0].bdev == v)
      && |s.listeners| <= 1 && (|s.listeners| == 1 ==> s.listeners[0] == a)
  }

  predicate PastTransport(pc: Pc) {
    pc == MakeTransport(false) || pc.StoreFlag? || pc.MakeSubsystem? || pc.AttachNs? || pc.Listen?
  }

  ghost predicate VolumeOk(a: Address, w: World, v: string) {
    var pc := PcOf(w, v);
    var subs := w.target.subsystems;
    && Tidy(a, w.target, v)
    && (PastTransport(pc) ==> a.trtype in w.target.transports)
    && (pc.AttachNs? ==> VolumeNqn(v) in subs && subs[VolumeNqn(v)] == Subsystem([], []))
    && (pc.Listen? ==>
          && VolumeNqn(v) in subs && subs[VolumeNqn(v)].listeners == []
          && |subs[VolumeNqn(v)].namespaces| == 1)
  }

  ghost predicate Inv(a: Address, w: World) {
    && (w.transCreated ==> a.trtype in w.target.transports)
    && forall v :: VolumeOk(a, w, v)
  }

  /** A driver that starts against a target without leftovers of its own. */
  ghost predicate Initial(a: Address, w: World) {
    && w.pcs == map[] && !w.transCreated
    && forall v :: VolumeNqn(v) !in w.target.subsystems
  }

  lemma EarlyStepKeepsVolumeOk(a: Address, w: World, v: string, i: Input)
    requires w.transCreated ==> a.trtype in w.target.transports
    requires VolumeOk(a, w, v) && !(PcOf(w, v).AttachNs? || PcOf(w, v).Listen? || PcOf(w, v).DetachNs?)
    ensures var w' := Next(a, w, Take(v, i));
            && (w'.transCreated ==> a.trtype in w'.target.transports)
            && VolumeOk(a, w', v)
  {
  }

  lemma LateStepKeepsVolumeOk(a: Address, w: World, v: string, i: Input)
    requires w.transCreated ==> a.trtype in w.target.transports
    requires VolumeOk(a, w, v) && (PcOf(w, v).AttachNs? || PcOf(w, v).Listen? || PcOf(w, v).DetachNs?)
    ensures var w' := Next(a, w, Take(v, i));
            && (w'.transCreated ==> a.trtype in w'.target.transports)
            && VolumeOk(a, w', v)
  {
    if PcOf(w, v).DetachNs? && VolumeNqn(v) in w.target.subsystems {
      WithoutNsidShrinks(w.target.subsystems[VolumeNqn(v)].namespaces, PcOf(w, v).nsid);
    }
  }

  lemma OwnStepKeepsVolumeOk(a: Address, w: World, v: string, i: Input)
    requires w.transCreated ==> a.trtype in w.target.transports
    requires VolumeOk(a, w, v)
    ensures var w' := Next(a, w, Take(v, i));
            && (w'.transCreated ==> a.trtype in w'.target.transports)
            && VolumeOk(a, w', v)
  {
    if PcOf(w, v).AttachNs? || PcOf(w, v).Listen? || PcOf(w, v).DetachNs? {
      LateStepKeepsVolumeOk(a, w, v, i);
    } else {
      EarlyStepKeepsVolumeOk(a, w, v, i);
    }
  }

  lemma WithoutNsidShrinks(namespaces: seq<Namespace>, nsid: nat)
    requires |namespaces| <= 1
    ensures WithoutNsid(namespaces, nsid) == [] || WithoutNsid(namespaces, nsid) == namespaces
    ensures WithoutNsid(namespaces, nsid) == [] <==> namespaces == [] || namespaces[0].nsid == nsid
  {
  }

  lemma OthersStepKeepsVolumeOk(a: Address, w: World, v: string, i: Input, u: string)
    requires u != v && VolumeOk(a, w, u)
    ensures VolumeOk(a, Next(a, w, Take(v, i)), u)
  {
    VolumeNqnInjective(u, v);
    StepFrame(a, v, StateOf(w, v), i, VolumeNqn(u));
  }

  lemma NextKeepsInv(a: Address, w: World, e: Event)
    requires Inv(a, w)
    ensures Inv(a, Next(a, w, e))
  {
    var w' := Next(a, w, e);
    forall u
      ensures VolumeOk(a, w', u)
    {
      assert VolumeOk(a, w, u);
      if e.Take? {
        if u == e.lvol {
          OwnStepKeepsVolumeOk(a, w, u, e.input);
        } else {
          OthersStepKeepsVolumeOk(a, w, e.lvol, e.input, u);
        }
      }
    }
    if e.Take? {
      assert VolumeOk(a, w, e.lvol);
      OwnStepKeepsVolumeOk(a, w, e.lvol, e.input);
    }
  }

  /** In every reachable state: one namespace and one listener at most, and the flag never lies. */
  lemma {:induction false} RunKeepsInv(a: Address, w: World, es: seq<Event>)
    requires Inv(a, w)
    ensures Inv(a, Run(a, w, es))
    decreases |es|
  {
    if es != [] {
      NextKeepsInv(a, w, es[0]);
      RunKeepsInv(a, Next(a, w, es[0]), es[1..]);
    }
  }

  lemma InitialInv(a: Address, w: World)
    requires Initial(a, w)
    ensures Inv(a, w)
  {
    forall u
      ensures VolumeOk(a, w, u)
    {
      assert VolumeNqn(u) !in w.target.subsystems;
    }
  }

  lemma ReachableIsTidy(a: Address, w: World, es: seq<Event>, v: string)
    requires Initial(a, w)
    ensures var r := Run(a, w, es);
            && Tidy(a, r.target, v)
            && (r.transCreated ==> a.trtype in r.target.transports)
  {
    InitialInv(a, w);
    RunKeepsInv(a, w, es);
    assert VolumeOk(a, Run(a, w, es), v);
  }

  // ---------------------------------------------------------------------
  // Non-interference between volumes.

  /** The fast path through createTransport takes the same steps, without the call. */
  function Blur(pc: Pc): Pc {
    match pc
    case MakeTransport(_) => MakeTransport(true)
    case StoreFlag(_) => StoreFlag(true)
    case _ => pc
  }

  /** Two worlds look the same to volume `v`. */
  ghost predicate SameView(w: World, x: World, v: string) {
    SameTarget(w.target, x.target, v) && Blur(PcOf(w, v)) == Blur(PcOf(x, v))
  }

  function Own(es: seq<Event>, v: string): seq<Event> {
    if es == [] then []
    else if es[0].lvol == v then [es[0]] + Own(es[1..], v)
    else Own(es[1..], v)
  }

  /** What a step for `v` can see of the target. */
  ghost predicate SameTarget(t: Target, u: Target, v: string) {
    var nqn := VolumeNqn(v);
    && (v in t.bdevs <==> v in u.bdevs)
    && (nqn in t.subsystems <==> nqn in u.subsystems)
    && (nqn in t.subsystems ==> t.subsystems[nqn] == u.subsystems[nqn])
  }

  lemma EarlyStepKeepsView(a: Address, v: string, s: State, x: State, i: Input)
    requires SameTarget(s.target, x.target, v) && Blur(s.pc) == Blur(x.pc)
    requires s.pc.QueryBdev? || s.pc.QueryListeners? || s.pc.LoadFlag? || s.pc.MakeTransport? || s.pc.StoreFlag?
    ensures var s', x' := Step(a, v, s, i), Step(a, v, x, i);
            SameTarget(s'.target, x'.target, v)
            && (Blur(s'.pc) == Blur(x'.pc) <==> !(s.pc.MakeTransport? && !i.fault.NoFault? && s.pc != x.pc))
  {
  }

  lemma BuildStepKeepsView(a: Address, v: string, s: State, x: State, i: Input)
    requires SameTarget(s.target, x.target, v) && s.pc == x.pc
    requires s.pc.MakeSubsystem? || s.pc.AttachNs? || s.pc.Listen?
    requires a.trtype in s.target.transports && a.trtype in x.target.transports
    ensures var s', x' := Step(a, v, s, i), Step(a, v, x, i);
            SameTarget(s'.target, x'.target, v) && s'.pc == x'.pc
  {
  }

  lemma TearStepKeepsView(a: Address, v: string, s: State, x: State, i: Input)
    requires SameTarget(s.target, x.target, v) && s.pc == x.pc
    requires s.pc.ListNs? || s.pc.DetachNs? || s.pc.DropSubsystem? || s.pc.Done?
    ensures var s', x' := Step(a, v, s, i), Step(a, v, x, i);
            SameTarget(s'.target, x'.target, v) && s'.pc == x'.pc
  {
  }

  lemma OwnEventKeepsView(a: Address, w: World, x: World, e: Event)
    requires VolumeOk(a, w, e.lvol) && VolumeOk(a, x, e.lvol) && SameView(w, x, e.lvol)
    ensures SameView(Next(a, w, e), Next(a, x, e), e.lvol) <==> !TransportDiffers(w, x, e)
  {
    if e.Take? {
      var s, y := StateOf(w, e.lvol), StateOf(x, e.lvol);
      match s.pc {
        case QueryBdev(_) => EarlyStepKeepsView(a, e.lvol, s, y, e.input);
        case QueryListeners(_) => EarlyStepKeepsView(a, e.lvol, s, y, e.input);
        case LoadFlag => EarlyStepKeepsView(a, e.lvol, s, y, e.input);
        case MakeTransport(_) => EarlyStepKeepsView(a, e.lvol, s, y, e.input);
        case StoreFlag(_) => EarlyStepKeepsView(a, e.lvol, s, y, e.input);
        case MakeSubsystem => BuildStepKeepsView(a, e.lvol, s, y, e.input);
        case AttachNs => BuildStepKeepsView(a, e.lvol, s, y, e.input);
        case Listen => BuildStepKeepsView(a, e.lvol, s, y, e.input);
        case _ => TearStepKeepsView(a, e.lvol, s, y, e.input);
      }
    }
  }

  lemma OtherEventKeepsView(a: Address, w: World, e: Event, v: string)
    requires e.lvol != v
    ensures SameView(Next(a, w, e), w, v)
  {
    if e.Take? {
      VolumeNqnInjective(v, e.lvol);
      StepFrame(a, e.lvol, StateOf(w, e.lvol), e.input, VolumeNqn(v));
    }
  }

  /** Volume `v` sees the same in both worlds after every prefix of its run. */
  ghost predicate AlwaysSameView(a: Address, w: World, x: World, es: seq<Event>, v: string)
    decreases |es|
  {
    SameView(w, x, v) && (es == [] ||
      AlwaysSameView(a, Next(a, w, es[0]), if es[0].lvol == v then Next(a, x, es[0]) else x, es[1..], v))
  }

  /**
   * `e` is a create-transport step that meets a fault in one world, while in the
   * other the flag had already been found set and no call is made.
   */
  ghost predicate TransportDiffers(w: World, x: World, e: Event) {
    && e.Take? && PcOf(w, e.lvol).MakeTransport?
    && !e.input.fault.NoFault? && PcOf(w, e.lvol) != PcOf(x, e.lvol)
  }

  ghost predicate TransportNeverDiffers(a: Address, w: World, x: World, es: seq<Event>, v: string)
    decreases |es|
  {
    es == [] || (
      && (es[0].lvol == v ==> !TransportDiffers(w, x, es[0]))
      && TransportNeverDiffers(a, Next(a, w, es[0]), if es[0].lvol == v then Next(a, x, es[0]) else x, es[1..], v))
  }

  lemma {:induction false} Simulation(a: Address, w: World, x: World, es: seq<Event>, v: string)
    requires Inv(a, w) && Inv(a, x) && SameView(w, x, v)
    ensures AlwaysSameView(a, w, x, es, v) <==> TransportNeverDiffers(a, w, x, es, v)
    decreases |es|
  {
    if es != [] {
      var e := es[0];
      var w', x' := Next(a, w, e), if e.lvol == v then Next(a, x, e) else x;
      NextKeepsInv(a, w, e);
      NextKeepsInv(a, x, e);
      assert VolumeOk(a, w, v) && VolumeOk(a, x, v);
      if e.lvol == v {
        OwnEventKeepsView(a, w, x, e);
      } else {
        OtherEventKeepsView(a, w, e, v);
      }
      if SameView(w', x', v) {
        Simulation(a, w', x', es[1..], v);
      }
    }
  }

  /**
   * Whatever the other volumes do in between, volume `v` finds its subsystem and
   * its own call exactly where its own steps, run alone, would have put them. The
   * transport is the one thing shared: the two runs part if and only if a failing
   * create-transport call of `v` is skipped because another volume's call had
   * already set `transCreated`.
   */
  lemma NonInterference(a: Address, w: World, es: seq<Event>, v: string)
    requires Inv(a, w)
    ensures AlwaysSameView(a, w, w, es, v) <==> TransportNeverDiffers(a, w, w, es, v)
    ensures TransportNeverDiffers(a, w, w, es, v) ==> SameView(Run(a, w, es), Run(a, w, Own(es, v)), v)
  {
    Simulation(a, w, w, es, v);
    if TransportNeverDiffers(a, w, w, es, v) {
      SameViewAtEnd(a, w, w, es, v);
    }
  }

  lemma {:induction false} SameViewAtEnd(a: Address, w: World, x: World, es: seq<Event>, v: string)
    requires AlwaysSameView(a, w, x, es, v)
    ensures SameView(Run(a, w, es), Run(a, x, Own(es, v)), v)
    decreases |es|
  {
    if es != [] {
      var e, own := es[0], Own(es, v);
      if e.lvol == v {
        SameViewAtEnd(a, Next(a, w, e), Next(a, x, e), es[1..], v);
        assert own[0] == e && own[1..] == Own(es[1..], v);
      } else {
        SameViewAtEnd(a, Next(a, w, e), x, es[1..], v);
      }
    }
  }

  /** No create-transport step of `v` meets a fault. */
  ghost predicate TransportFaultless(a: Address, w: World, es: seq<Event>, v: string)
    decreases |es|
  {
    es == [] || (
      && (es[0].Take? && es[0].lvol == v && PcOf(w, v).MakeTransport? ==> es[0].input.fault.NoFault?)
      && TransportFaultless(a, Next(a, w, es[0]), es[1..], v))
  }

  /** With no fault on its create-transport calls, `v` is never disturbed, whatever its other calls meet. */
  lemma {:induction false} TransportWithoutFaults(a: Address, w: World, x: World, es: seq<Event>, v: string)
    requires TransportFaultless(a, w, es, v)
    ensures TransportNeverDiffers(a, w, x, es, v)
    decreases |es|
  {
    if es != [] {
      TransportWithoutFaults(a, Next(a, w, es[0]), if es[0].lvol == v then Next(a, x, es[0]) else x, es[1..], v);
    }
  }

  lemma {:induction false} RunConcat(a: Address, w: World, es: seq<Event>, fs: seq<Event>)
    ensures Run(a, w, es + fs) == Run(a, Run(a, w, es), fs)
    decreases |es|
  {
    if es == [] {
      assert es + fs == fs;
    } else {
      assert (es + fs)[0] == es[0] && (es + fs)[1..] == es[1..] + fs;
      RunConcat(a, Next(a, w, es[0]), es[1..], fs);
    }
  }

  lemma {:induction false} OwnConcat(es: seq<Event>, fs: seq<Event>, v: string)
    ensures Own(es + fs, v) == Own(es, v) + Own(fs, v)
  {
    if es == [] {
      assert es + fs == fs;
    } else {
      assert (es + fs)[0] == es[0] && (es + fs)[1..] == es[1..] + fs;
      OwnConcat(es[1..], fs, v);
    }
  }

  /** A publish of `v` up to and including create-transport, which meets `f`. */
  function UpToTransport(v: string, f: Fault): seq<Event> {
    var ok := Input(NoFault, 1);
    [Start(v, Publish), Take(v, ok), Take(v, ok), Take(v, ok), Take(v, Input(f, 1))]
  }

  lemma RunFive(a: Address, w: World, e0: Event, e1: Event, e2: Event, e3: Event, e4: Event)
    ensures Run(a, w, [e0, e1, e2, e3, e4]) ==
              Next(a, Next(a, Next(a, Next(a, Next(a, w, e0), e1), e2), e3), e4)
  {
    var es := [e0, e1, e2, e3, e4];
    assert es[1..] == [e1, e2, e3, e4] && [e1, e2, e3, e4][1..] == [e2, e3, e4];
    assert [e2, e3, e4][1..] == [e3, e4] && [e3, e4][1..] == [e4] && [e4][1..] == [];
    assert Run(a, w, es) == Run(a, Next(a, w, e0), [e1, e2, e3, e4]);
    var w2 := Next(a, Next(a, w, e0), e1);
    assert Run(a, Next(a, w, e0), [e1, e2, e3, e4]) == Run(a, w2, [e2, e3, e4]);
    var w4 := Next(a, Next(a, w2, e2), e3);
    assert Run(a, w2, [e2, e3, e4]) == Run(a, Next(a, w2, e2), [e3, e4]) == Run(a, w4, [e4]);
    assert Run(a, w4, [e4]) == Run(a, Next(a, w4, e4), []);
  }

  /** From an idle volume that is not listening, the create-transport call is made unless the flag is set. */
  lemma ReachTransport(a: Address, w: World, v: string, f: Fault)
    requires PcOf(w, v).Done? && v in w.target.bdevs && VolumeNqn(v) !in w.target.subsystems
    ensures var r := Run(a, w, UpToTransport(v, f));
            && r.transCreated == w.transCreated && r.target.subsystems == w.target.subsystems
            && r.target.bdevs == w.target.bdevs
            && (forall u :: u != v ==> PcOf(r, u) == PcOf(w, u))
            && PcOf(r, v) == (if w.transCreated then StoreFlag(false)
                              else if f.NoFault? then StoreFlag(true) else Done(Publish, Failed(CallFailed)))
  {
    var ok := Input(NoFault, 1);
    RunFive(a, w, Start(v, Publish), Take(v, ok), Take(v, ok), Take(v, ok), Take(v, Input(f, 1)));
    var w1 := Next(a, w, Start(v, Publish));
    var w2 := Next(a, w1, Take(v, ok));
    assert PcOf(w2, v) == QueryListeners(Publish);
    var w3 := Next(a, w2, Take(v, ok));
    assert PcOf(w3, v) == LoadFlag;
    var w4 := Next(a, w3, Take(v, ok));
    assert PcOf(w4, v) == MakeTransport(!w.transCreated);
  }

  /**
   * A run in which the transport does make the difference: volume `u` creates it and
   * sets the flag, so the call of `v` that would have been lost is never made; alone, `v` fails.
   */
  lemma TransportCanDiffer(a: Address, w: World, u: string, v: string)
    requires Initial(a, w) && u != v && u in w.target.bdevs && v in w.target.bdevs
    ensures exists es :: !SameView(Run(a, w, es), Run(a, w, Own(es, v)), v)
  {
    var first, last := SetsFlag(u), UpToTransport(v, Lost);
    var es := first + last;
    FlagGetsSet(a, w, u, v);
    RunConcat(a, w, first, last);
    ReachTransport(a, Run(a, w, first), v, Lost);
    ReachTransport(a, w, v, Lost);
    OwnConcat(first, last, v);
    OwnOfOthers(first, v);
    OwnOfOwn(last, v);
    assert Own(es, v) == last;
  }

  function SetsFlag(u: string): seq<Event> {
    UpToTransport(u, NoFault) + [Take(u, Input(NoFault, 1))]
  }

  lemma FlagGetsSet(a: Address, w: World, u: string, v: string)
    requires Initial(a, w) && u != v && u in w.target.bdevs
    ensures var r := Run(a, w, SetsFlag(u));
            && r.transCreated && PcOf(r, v).Done? && r.target.subsystems == w.target.subsystems
            && r.target.bdevs == w.target.bdevs
  {
    var e := Take(u, Input(NoFault, 1));
    ReachTransport(a, w, u, NoFault);
    var mid := Run(a, w, UpToTransport(u, NoFault));
    RunConcat(a, w, UpToTransport(u, NoFault), [e]);
    RunLast(a, mid, e);
    assert PcOf(mid, v) == PcOf(w, v);
  }

  lemma RunLast(a: Address, w: World, e: Event)
    ensures Run(a, w, [e]) == Next(a, w, e)
  {
    assert [e][1..] == [];
  }

  lemma {:induction false} OwnOfOthers(es: seq<Event>, v: string)
    requires forall i :: 0 <= i < |es| ==> es[i].lvol != v
    ensures Own(es, v) == []
  {
    if es != [] {
      OwnOfOthers(es[1..], v);
    }
  }

  lemma {:induction false} OwnOfOwn(es: seq<Event>, v: string)
    requires forall i :: 0 <= i < |es| ==> es[i].lvol == v
    ensures Own(es, v) == es
  {
    if es != [] {
      OwnOfOwn(es[1..], v);
      assert es == [es[0]] + es[1..];
    }
  }

  /** The events of one whole call of `v`, when the world answers as `env` says. */
  function Script(a: Address, v: string, s: State, env: Site -> Input): seq<Event>
    decreases Rank(s.pc)
  {
    if s.pc.Done? then []
    else [Take(v, env(SiteOf(s.pc)))] + Script(a, v, Step(a, v, s, env(SiteOf(s.pc))), env)
  }

  /** Run alone in the world, a call ends where RunAlone (and hence the driver's method) says. */
  lemma {:induction false} ScriptIsCall(a: Address, w: World, v: string, env: Site -> Input)
    ensures StateOf(Run(a, w, Script(a, v, StateOf(w, v), env)), v) == RunAlone(a, v, StateOf(w, v), env)
    decreases Rank(PcOf(w, v))
  {
    var s := StateOf(w, v);
    if !s.pc.Done? {
      var e := Take(v, env(SiteOf(s.pc)));
      assert StateOf(Next(a, w, e), v) == Step(a, v, s, e.input);
      ScriptIsCall(a, Next(a, w, e), v, env);
      var es := Script(a, v, s, env);
      assert es[0] == e && es[1..] == Script(a, v, Step(a, v, s, e.input), env);
    }
  }

  // ---------------------------------------------------------------------
  // A subsystem without its listener is a dead end.

  /** The subsystem exists without the listener, and no call of `v` is past creating it. */
  ghost predicate DeadEnd(a: Address, w: World, v: string, left: Subsystem) {
    var pc := PcOf(w, v);
    && VolumeNqn(v) in w.target.subsystems && w.target.subsystems[VolumeNqn(v)] == left
    && a !in left.listeners
    && (pc.Done? || pc.QueryBdev? || pc.QueryListeners? || pc.LoadFlag?
        || pc.MakeTransport? || pc.StoreFlag? || pc.MakeSubsystem?)
    && pc != Done(Publish, Success)
  }

  lemma NextStaysDeadEnd(a: Address, w: World, e: Event, v: string, left: Subsystem)
    requires DeadEnd(a, w, v, left)
    ensures DeadEnd(a, Next(a, w, e), v, left)
  {
    if e.lvol != v {
      OtherEventKeepsView(a, w, e, v);
    }
  }

  /**
   * Once a failure leaves the subsystem behind without its listener, no later
   * sequence of publish and unpublish calls, under any faults, ever publishes the
   * volume or removes the subsystem: publish cannot create it again, and unpublish
   * takes the volume for unpublished.
   */
  lemma {:induction false} StuckForever(a: Address, w: World, es: seq<Event>, v: string, left: Subsystem)
    requires DeadEnd(a, w, v, left)
    ensures DeadEnd(a, Run(a, w, es), v, left)
    decreases |es|
  {
    if es != [] {
      NextStaysDeadEnd(a, w, es[0], v, left);
      StuckForever(a, Next(a, w, es[0]), es[1..], v, left);
    }
  }

  /** A publish whose create_subsystem takes effect but is reported as failed. */
  const CREATE_MISREPORTED: Site -> Input :=
    (site: Site) => Input(if site.SubsystemSite? then Applied else NoFault, 1)

  /** Such a dead end is reached from every clean start by a single publish. */
  lemma StuckIsReachable(a: Address, w: World, v: string) returns (es: seq<Event>)
    requires Initial(a, w) && v in w.target.bdevs
    ensures DeadEnd(a, Run(a, w, es), v, Subsystem([], []))
  {
    var w1 := Next(a, w, Start(v, Publish));
    var script := Script(a, v, StateOf(w1, v), CREATE_MISREPORTED);
    es := [Start(v, Publish)] + script;
    assert es[1..] == script;
    ScriptIsCall(a, w1, v, CREATE_MISREPORTED);
    PublishCalls.PublishEffect(a, v, w.target, false, CREATE_MISREPORTED);
  }
}
