/**
 * When a volume is left as an orphan (listener without namespace) or stuck (subsystem
 * without listener): over every run, exactly as told by the faults its calls met.
 */
module PublishHistory {
  import opened Common
  import opened SpdkTarget
  import opened PublishProtocol
  import opened PublishRuns
  import PublishCalls

  /**
   * What the faults alone tell about a run. In the call in progress: whether add_listener
   * was executed but reported as failed, and whether remove_ns was executed. Of all calls
   * so far: which volumes were left as orphans, and which stuck.
   */
  datatype History = History(listened: set<string>, detached: set<string>, orphans: set<string>, stuck: set<string>)

  const NOTHING := History({}, {}, {}, {})

  /** A lost delete_subsystem leaves an orphan. */
  predicate LeavesOrphan(h: History, v: string, why: Removal) {
    if why.Withdraw? then v in h.detached || v in h.orphans else v in h.listened && v in h.detached
  }

  /** The history after volume `v`, whose call is at `pc`, makes a step that meets `f`; no look at the target. */
  function Note(h: History, v: string, pc: Pc, f: Fault): History {
    match pc
    case QueryBdev(_) => h.(listened := h.listened - {v}, detached := h.detached - {v})
    case MakeSubsystem => if f.Applied? then h.(stuck := h.stuck + {v}) else h
    case Listen => if f.Applied? then h.(listened := h.listened + {v}) else h
    case DetachNs(_, _) => if f.Lost? then h else h.(detached := h.detached + {v})
    case DropSubsystem(why) =>
      h.(orphans := if f.Lost? && LeavesOrphan(h, v, why) then h.orphans + {v} else h.orphans - {v},
         stuck := if f.Lost? && why.Rollback? && v !in h.listened then h.stuck + {v} else h.stuck)
    case _ => h
  }

  function NoteEvent(h: History, w: World, e: Event): History {
    if e.Take? then Note(h, e.lvol, PcOf(w, e.lvol), e.input.fault) else h
  }

  function HistoryOf(a: Address, w: World, es: seq<Event>, h: History): History
    decreases |es|
  {
    if es == [] then h else HistoryOf(a, Next(a, w, es[0]), es[1..], NoteEvent(h, w, es[0]))
  }

  // ---------------------------------------------------------------------

  function Sub(t: Target, v: string): Option<Subsystem> {
    if VolumeNqn(v) in t.subsystems then Some(t.subsystems[VolumeNqn(v)]) else None
  }

  /** What add_listener has left under the NQN. */
  function Listeners(a: Address, h: History, v: string): seq<Address> {
    if v in h.listened then [a] else []
  }

  /** The history tells the truth about volume `v`, whose call is at `pc` and whose subsystem is `s`. */
  ghost predicate Truthful(a: Address, h: History, v: string, pc: Pc, s: Option<Subsystem>) {
    match pc
    case AttachNs => s == Some(Subsystem([], [])) && Unmarked(h, v)
    case Listen => s.Some? && s.value.listeners == [] && OneNs(s.value, v) && Unmarked(h, v)
    case ListNs(why) => Tearing(a, h, v, why, s) && v !in h.detached
    case DetachNs(why, n) => Tearing(a, h, v, why, s) && v !in h.detached && v !in h.orphans
                             && s.value.namespaces == [Namespace(n, v)]
    case DropSubsystem(why) =>
      && s.Some? && v !in h.stuck
      && (why.Withdraw? ==> s.value.listeners == [a] && Maybe(s.value, v)
                            && (s.value.namespaces == [] <==> LeavesOrphan(h, v, why)))
      && (why.Rollback? ==> s.value.listeners == Listeners(a, h, v) && Maybe(s.value, v) && v !in h.orphans
                            && (v in h.listened ==> (s.value.namespaces == [] <==> v in h.detached)))
    case _ => // idle, or before create_subsystem
      && (s.Some? ==> Maybe(s.value, v) && (s.value.listeners == [] || s.value.listeners == [a]))
      && (v in h.stuck <==> s.Some? && s.value.listeners == [])
      && (v in h.orphans <==> s.Some? && s.value.listeners == [a] && s.value.namespaces == [])
      && (pc.QueryListeners? || BeforeSubsystem(pc) ==> v !in h.listened && v !in h.detached)
      && (BeforeSubsystem(pc) ==> s.Some? ==> s.value.listeners == [])
  }

  predicate BeforeSubsystem(pc: Pc) { pc.LoadFlag? || pc.MakeTransport? || pc.StoreFlag? || pc.MakeSubsystem? }

  predicate Unmarked(h: History, v: string) {
    v !in h.listened && v !in h.detached && v !in h.orphans && v !in h.stuck
  }

  predicate OneNs(s: Subsystem, v: string) { |s.namespaces| == 1 && s.namespaces[0].bdev == v }

  predicate Maybe(s: Subsystem, v: string) { s.namespaces == [] || OneNs(s, v) }

  ghost predicate Tearing(a: Address, h: History, v: string, why: Removal, s: Option<Subsystem>) {
    && s.Some? && v !in h.stuck
    && (why.Withdraw? ==> s.value.listeners == [a] && Maybe(s.value, v)
                          && (v in h.orphans <==> s.value.namespaces == []))
    && (why.Rollback? ==> s.value.listeners == Listeners(a, h, v) && OneNs(s.value, v) && v !in h.orphans)
  }

  ghost predicate TruthfulAt(a: Address, w: World, h: History, v: string) {
    Truthful(a, h, v, PcOf(w, v), Sub(w.target, v))
  }

  lemma EarlyStep(a: Address, h: History, v: string, s: State, i: Input)
    requires s.pc.Done? || s.pc.QueryBdev? || s.pc.QueryListeners? || BeforeSubsystem(s.pc)
    requires Truthful(a, h, v, s.pc, Sub(s.target, v))
    ensures var t := Step(a, v, s, i);
            Truthful(a, Note(h, v, s.pc, i.fault), v, t.pc, Sub(t.target, v))
  {
  }

  lemma BuildStep(a: Address, h: History, v: string, s: State, i: Input)
    requires s.pc.AttachNs? || s.pc.Listen?
    requires a.trtype in s.target.transports
    requires Truthful(a, h, v, s.pc, Sub(s.target, v))
    ensures var t := Step(a, v, s, i);
            Truthful(a, Note(h, v, s.pc, i.fault), v, t.pc, Sub(t.target, v))
  {
  }

  lemma ListStep(a: Address, h: History, v: string, s: State, i: Input)
    requires s.pc.ListNs?
    requires Truthful(a, h, v, s.pc, Sub(s.target, v))
    ensures var t := Step(a, v, s, i);
            Truthful(a, Note(h, v, s.pc, i.fault), v, t.pc, Sub(t.target, v))
  {
    var namespaces := Sub(s.target, v).value.namespaces;
    if namespaces != [] {
      assert namespaces == [Namespace(namespaces[0].nsid, v)];
    }
  }

  lemma DetachStep(a: Address, h: History, v: string, s: State, i: Input)
    requires s.pc.DetachNs?
    requires Truthful(a, h, v, s.pc, Sub(s.target, v))
    ensures var t := Step(a, v, s, i);
            Truthful(a, Note(h, v, s.pc, i.fault), v, t.pc, Sub(t.target, v))
  {
    var namespaces := Sub(s.target, v).value.namespaces;
    assert namespaces[0].nsid == s.pc.nsid;
    WithoutNsidShrinks(namespaces, s.pc.nsid);
  }

  lemma DropStep(a: Address, h: History, v: string, s: State, i: Input)
    requires s.pc.DropSubsystem?
    requires Truthful(a, h, v, s.pc, Sub(s.target, v))
    ensures var t := Step(a, v, s, i);
            Truthful(a, Note(h, v, s.pc, i.fault), v, t.pc, Sub(t.target, v))
  {
  }

  lemma OwnStep(a: Address, h: History, v: string, s: State, i: Input)
    requires PastTransport(s.pc) ==> a.trtype in s.target.transports
    requires Truthful(a, h, v, s.pc, Sub(s.target, v))
    ensures var t := Step(a, v, s, i);
            Truthful(a, Note(h, v, s.pc, i.fault), v, t.pc, Sub(t.target, v))
  {
    match s.pc {
      case AttachNs => BuildStep(a, h, v, s, i);
      case Listen => BuildStep(a, h, v, s, i);
      case ListNs(_) => ListStep(a, h, v, s, i);
      case DetachNs(_, _) => DetachStep(a, h, v, s, i);
      case DropSubsystem(_) => DropStep(a, h, v, s, i);
      case _ => EarlyStep(a, h, v, s, i);
    }
  }

  /** Notes about one volume say nothing about another. */
  lemma OthersStep(a: Address, h: History, v: string, pc: Pc, f: Fault, u: string, upc: Pc, s: Option<Subsystem>)
    requires u != v && Truthful(a, h, u, upc, s)
    ensures Truthful(a, Note(h, v, pc, f), u, upc, s)
  {
  }

  lemma NextStaysTruthful(a: Address, w: World, e: Event, h: History, v: string)
    requires Inv(a, w) && TruthfulAt(a, w, h, v)
    ensures TruthfulAt(a, Next(a, w, e), NoteEvent(h, w, e), v)
  {
    assert VolumeOk(a, w, v);
    if e.lvol != v {
      OtherEventKeepsView(a, w, e, v);
      if e.Take? {
        OthersStep(a, h, e.lvol, PcOf(w, e.lvol), e.input.fault, v, PcOf(w, v), Sub(w.target, v));
      }
    } else if e.Take? {
      OwnStep(a, h, v, StateOf(w, v), e.input);
    }
  }

  lemma {:induction false} RunStaysTruthful(a: Address, w: World, es: seq<Event>, h: History, v: string)
    requires Inv(a, w) && TruthfulAt(a, w, h, v)
    ensures TruthfulAt(a, Run(a, w, es), HistoryOf(a, w, es, h), v)
    decreases |es|
  {
    if es != [] {
      NextKeepsInv(a, w, es[0]);
      NextStaysTruthful(a, w, es[0], h, v);
      RunStaysTruthful(a, Next(a, w, es[0]), es[1..], NoteEvent(h, w, es[0]), v);
    }
  }

  /**
   * In every run from a clean start, an idle volume has a listener and no namespace if and
   * only if its latest delete_subsystem was lost after remove_ns had been executed, in
   * that call or in an earlier one of the same kind, behind a listener that was there: the one being
   * withdrawn, or one whose add_listener was reported as failed. And its subsystem lacks
   * the listener if and only if some publish had its create_subsystem misreported, or lost
   * the delete of its roll-back without such a listener.
   */
  lemma FaultsTell(a: Address, w: World, es: seq<Event>, v: string)
    requires Initial(a, w) && PcOf(Run(a, w, es), v).Done?
    ensures var r, h := Run(a, w, es), HistoryOf(a, w, es, NOTHING);
            && (v in h.orphans <==> PublishCalls.Orphaned(r.target, v))
            && (v in h.stuck <==> PublishCalls.Stuck(a, r.target, v))
  {
    InitialInv(a, w);
    assert VolumeNqn(v) !in w.target.subsystems;
    RunStaysTruthful(a, w, es, NOTHING, v);
    var r, h := Run(a, w, es), HistoryOf(a, w, es, NOTHING);
    assert TruthfulAt(a, r, h, v);
  }
}
