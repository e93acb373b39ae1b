/**
 * PublishVolume and UnpublishVolume (pkg/util/nvmf.go) as a small-step machine.
 * One step is one RPC or one atomic access to `transCreated`; between two
 * steps of one call anything may happen to the rest of the target.
 */
module PublishProtocol {
  import opened Common
  import opened SpdkTarget

  datatype Op = Publish | Unpublish

  datatype Outcome = Success | Failed(error: Error) | Panicked

  /** Why a subsystem is being taken down. */
  datatype Removal = Rollback(cause: Error) | Withdraw

  /** What a call in progress does next. */
  datatype Pc =
    | Done(op: Op, outcome: Outcome)
    | QueryBdev(op: Op)
    | QueryListeners(op: Op)
    | LoadFlag
    | MakeTransport(needed: bool)
    | StoreFlag(store: bool)
    | MakeSubsystem
    | AttachNs
    | Listen
    | ListNs(why: Removal)
    | DetachNs(why: Removal, nsid: nat)
    | DropSubsystem(why: Removal)

  /** The world's part in one step: the fate of the call, and the NSID the target offers. */
  datatype Input = Input(fault: Fault, nsid: nat)

  datatype State = State(target: Target, transCreated: bool, pc: Pc)

  function Rank(pc: Pc): nat {
    match pc
    case Done(_, _) => 0
    case DropSubsystem(_) => 1
    case DetachNs(_, _) => 2
    case ListNs(_) => 3
    case Listen => 4
    case AttachNs => 5
    case MakeSubsystem => 6
    case StoreFlag(_) => 7
    case MakeTransport(_) => 8
    case LoadFlag => 9
    case QueryListeners(_) => 10
    case QueryBdev(_) => 11
  }

  /** The call site a step stands for; a call visits each site at most once. */
  datatype Site =
    | BdevSite | ListenersSite | FlagSite | TransportSite | SubsystemSite
    | AttachSite | ListenSite | ListSite | DetachSite | DropSite

  function SiteOf(pc: Pc): Site {
    match pc
    case QueryBdev(_) => BdevSite
    case QueryListeners(_) => ListenersSite
    case LoadFlag => FlagSite
    case MakeTransport(_) => TransportSite
    case StoreFlag(_) => FlagSite
    case MakeSubsystem => SubsystemSite
    case AttachNs => AttachSite
    case Listen => ListenSite
    case ListNs(_) => ListSite
    case DetachNs(_, _) => DetachSite
    case DropSubsystem(_) => DropSite
    case Done(_, _) => DropSite
  }

  function AfterDrop(why: Removal, error: Option<Error>): Pc {
    match why
    case Rollback(cause) => Done(Publish, Failed(cause))
    case Withdraw => if error.Some? then Done(Unpublish, Failed(error.value)) else Done(Unpublish, Success)
  }

  /** One step of a call for volume `v`, by a node that listens at address `a`. */
  function Step(a: Address, v: string, s: State, i: Input): (r: State)
    ensures s.pc.Done? ==> r == s
    ensures !s.pc.Done? ==> Rank(r.pc) < Rank(s.pc)
    ensures s.transCreated ==> r.transCreated
    ensures s.target.transports <= r.target.transports && r.target.bdevs == s.target.bdevs
  {
    var t := s.target;
    var nqn := VolumeNqn(v);
    match s.pc
    case Done(_, _) => s
    case QueryBdev(op) =>
      // getVolume recognises only "No such device"; it indexes an empty answer on any other error
      if i.fault.Lost? || (i.fault.Applied? && v !in t.bdevs) then s.(pc := Done(op, Panicked))
      else if v !in t.bdevs then s.(pc := Done(op, Failed(VolumeDeleted)))
      else s.(pc := QueryListeners(op))
    case QueryListeners(op) =>
      if !i.fault.NoFault? then s.(pc := Done(op, Failed(CallFailed)))
      else if op.Publish? then
        s.(pc := if IsListening(t, nqn, a) then Done(op, Success) else LoadFlag)
      else
        s.(pc := if IsListening(t, nqn, a) then ListNs(Withdraw) else Done(op, Success))
    case LoadFlag => s.(pc := MakeTransport(!s.transCreated))
    case MakeTransport(needed) =>
      if !needed then s.(pc := StoreFlag(false))
      else
        var r := Deliver(t, CreateTransport(t, a.trtype), i.fault);
        if r.error.None? || r.error.value.AlreadyExists?
        then State(r.target, s.transCreated, StoreFlag(true))
        else State(r.target, s.transCreated, Done(Publish, Failed(r.error.value)))
    case StoreFlag(store) => State(t, s.transCreated || store, MakeSubsystem)
    case MakeSubsystem =>
      var r := Deliver(t, CreateSubsystem(t, nqn), i.fault);
      State(r.target, s.transCreated, if r.error.Some? then Done(Publish, Failed(r.error.value)) else AttachNs)
    case AttachNs =>
      var r := Deliver(t, AddNs(t, nqn, v, i.nsid), i.fault);
      State(r.target, s.transCreated, if r.error.Some? then DropSubsystem(Rollback(r.error.value)) else Listen)
    case Listen =>
      var r := Deliver(t, AddListener(t, nqn, a), i.fault);
      State(r.target, s.transCreated, if r.error.Some? then ListNs(Rollback(r.error.value)) else Done(Publish, Success))
    case ListNs(why) =>
      var found := NsidOf(t, nqn, v);
      s.(pc := if i.fault.NoFault? && found.Some? then DetachNs(why, found.value) else DropSubsystem(why))
    case DetachNs(why, nsid) =>
      State(Deliver(t, RemoveNs(t, nqn, nsid), i.fault).target, s.transCreated, DropSubsystem(why))
    case DropSubsystem(why) =>
      var r := Deliver(t, DeleteSubsystem(t, nqn), i.fault);
      State(r.target, s.transCreated, AfterDrop(why, r.error))
  }

  /** The call of `v` run to its end with nobody else around. */
  function RunAlone(a: Address, v: string, s: State, env: Site -> Input): (r: State)
    ensures r.pc.Done?
    decreases Rank(s.pc)
  {
    if s.pc.Done? then s else RunAlone(a, v, Step(a, v, s, env(SiteOf(s.pc))), env)
  }

  /** Taking one step of a run early does not change where the run ends. */
  lemma Advance(a: Address, v: string, s: State, env: Site -> Input) returns (r: State)
    ensures r == Step(a, v, s, env(SiteOf(s.pc)))
    ensures RunAlone(a, v, s, env) == RunAlone(a, v, r, env)
    ensures r.pc.Done? ==> RunAlone(a, v, s, env) == r
  {
    r := Step(a, v, s, env(SiteOf(s.pc)));
  }

  function Call(a: Address, v: string, op: Op, t: Target, flag: bool, env: Site -> Input): (r: State)
    ensures r.pc.Done?
  {
    RunAlone(a, v, State(t, flag, QueryBdev(op)), env)
  }

  /** A step for `v` leaves every other subsystem alone. */
  lemma StepFrame(a: Address, v: string, s: State, i: Input, nqn: string)
    requires nqn != VolumeNqn(v)
    ensures var t := Step(a, v, s, i).target;
            && (nqn in t.subsystems <==> nqn in s.target.subsystems)
            && (nqn in t.subsystems ==> t.subsystems[nqn] == s.target.subsystems[nqn])
  {
  }

  // ---------------------------------------------------------------------
  // The driver's own code, in place.

  /** The remote end. */
  class RemoteTarget {
    var state: Target

    constructor (initial: Target)
      ensures state == initial
    {
      state := initial;
    }

    /** nvmf_get_subsystems: the order of the answer is the target's choice. */
    method GetSubsystems() returns (listing: seq<Listed>)
      ensures IsListing(listing, state.subsystems)
    {
      listing := [];
      var left := state.subsystems.Keys;
      while left != {}
        invariant left <= state.subsystems.Keys
        invariant forall i :: 0 <= i < |listing| ==>
                    && listing[i].nqn in state.subsystems
                    && listing[i].namespaces == state.subsystems[listing[i].nqn].namespaces
        invariant forall nqn :: nqn in state.subsystems && nqn !in left ==>
                    exists i :: 0 <= i < |listing| && listing[i].nqn == nqn
        decreases left
      {
        var nqn :| nqn in left;
        ghost var before := listing;
        listing := listing + [Listed(nqn, state.subsystems[nqn].namespaces)];
        left := left - {nqn};
        assert listing[|before|].nqn == nqn;
        forall n | n in state.subsystems && n !in left && n != nqn
          ensures exists i :: 0 <= i < |listing| && listing[i].nqn == n
        {
          var i :| 0 <= i < |before| && before[i].nqn == n;
          assert listing[i].nqn == n;
        }
      }
    }
  }

  class NodeNvmf {
    const target: RemoteTarget
    const address: Address
    var transCreated: bool

    constructor (target: RemoteTarget, address: Address)
      ensures this.target == target && this.address == address && !transCreated
    {
      this.target := target;
      this.address := address;
      transCreated := false;
    }

    /** Sends one call and hands back the error the caller sees. */
    method Send(r: Reply, f: Fault) returns (error: Option<Error>)
      modifies target
      ensures target.state == Deliver(old(target.state), r, f).target
      ensures error == Deliver(old(target.state), r, f).error
    {
      var d := Deliver(target.state, r, f);
      target.state := d.target;
      error := d.error;
    }

    method CreateTransport(f: Fault) returns (error: Option<Error>)
      modifies this, target
      ensures old(transCreated) ==> error.None? && target.state == old(target.state)
      ensures !old(transCreated) ==>
                var r := Deliver(old(target.state), SpdkTarget.CreateTransport(old(target.state), address.trtype), f);
                && target.state == r.target
                && error == if r.error == Some(AlreadyExists) then None else r.error
      ensures transCreated == (old(transCreated) || error.None?)
    {
      if transCreated {
        return None;
      }
      error := Send(SpdkTarget.CreateTransport(target.state, address.trtype), f);
      if error.None? {
        transCreated := true;
      } else if error.value.AlreadyExists? {
        error := None;
        transCreated := true;
      }
    }

    /** None: the answer could not be indexed, and the process panics. */
    method IsVolumeCreated(lvol: string, f: Fault) returns (exists': Option<bool>)
      ensures exists'.None? <==> f.Lost? || (f.Applied? && lvol !in target.state.bdevs)
      ensures exists'.Some? ==> exists'.value == (lvol in target.state.bdevs)
    {
      if f.Lost? || (f.Applied? && lvol !in target.state.bdevs) {
        return None;
      }
      return Some(lvol in target.state.bdevs);
    }

    method IsVolumePublished(lvol: string, f: Fault) returns (published: Option<bool>)
      ensures published.None? <==> !f.NoFault?
      ensures published.Some? ==> published.value == IsListening(target.state, VolumeNqn(lvol), address)
    {
      if !f.NoFault? {
        return None;
      }
      var nqn := VolumeNqn(lvol);
      if nqn !in target.state.subsystems {
        return Some(false); // "Invalid parameters": no such NQN
      }
      var found := SearchListeners(target.state.subsystems[nqn].listeners, address);
      return Some(found);
    }

    method SubsystemRemoveNs(lvol: string, env: Site -> Input, ghost why: Removal)
      modifies target
      ensures RunAlone(address, lvol, State(old(target.state), transCreated, ListNs(why)), env)
           == RunAlone(address, lvol, State(target.state, transCreated, DropSubsystem(why)), env)
    {
      ghost var s0 := State(target.state, transCreated, ListNs(why));
      if !env(ListSite).fault.NoFault? {
        assert Step(address, lvol, s0, env(ListSite)).pc == DropSubsystem(why);
        return;
      }
      var listing := target.GetSubsystems();
      var found := SearchNamespaces(listing, target.state, VolumeNqn(lvol), lvol);
      if found.None? {
        assert Step(address, lvol, s0, env(ListSite)).pc == DropSubsystem(why);
        return;
      }
      ghost var s1 := Step(address, lvol, s0, env(ListSite));
      assert s1.pc == DetachNs(why, found.value);
      var _ := Send(RemoveNs(target.state, VolumeNqn(lvol), found.value), env(DetachSite).fault);
      assert Step(address, lvol, s1, env(DetachSite)) == State(target.state, transCreated, DropSubsystem(why));
    }

    method PublishVolume(lvol: string, env: Site -> Input) returns (outcome: Outcome)
      modifies this, target
      ensures State(target.state, transCreated, Done(Publish, outcome))
           == Call(address, lvol, Publish, old(target.state), old(transCreated), env)
    {
      ghost var s := State(target.state, transCreated, QueryBdev(Publish));
      var created := IsVolumeCreated(lvol, env(BdevSite).fault);
      s := Advance(address, lvol, s, env);
      if created.None? {
        return Panicked;
      }
      if !created.value {
        return Failed(VolumeDeleted);
      }
      var published := IsVolumePublished(lvol, env(ListenersSite).fault);
      s := Advance(address, lvol, s, env);
      if published.None? {
        return Failed(CallFailed);
      }
      if published.value {
        return Success;
      }
      s := Advance(address, lvol, s, env);
      var error := CreateTransport(env(TransportSite).fault);
      s := Advance(address, lvol, s, env);
      if error.Some? {
        return Failed(error.value);
      }
      s := Advance(address, lvol, s, env);
      assert s == State(target.state, transCreated, MakeSubsystem);
      outcome := PublishSubsystem(lvol, env);
    }

    /** The middle part of PublishVolume, from createSubsystem on. */
    method PublishSubsystem(lvol: string, env: Site -> Input) returns (outcome: Outcome)
      modifies target
      ensures State(target.state, transCreated, Done(Publish, outcome))
           == RunAlone(address, lvol, State(old(target.state), transCreated, MakeSubsystem), env)
    {
      var nqn := VolumeNqn(lvol);
      ghost var s := State(target.state, transCreated, MakeSubsystem);
      var error := Send(CreateSubsystem(target.state, nqn), env(SubsystemSite).fault);
      s := Advance(address, lvol, s, env);
      if error.Some? {
        return Failed(error.value);
      }
      error := Send(AddNs(target.state, nqn, lvol, env(AttachSite).nsid), env(AttachSite).fault);
      s := Advance(address, lvol, s, env);
      if error.Some? {
        var _ := Send(DeleteSubsystem(target.state, nqn), env(DropSite).fault);
        s := Advance(address, lvol, s, env);
        return Failed(error.value);
      }
      assert s == State(target.state, transCreated, Listen);
      outcome := PublishListener(lvol, env);
    }

    /** The last part of PublishVolume, from subsystemAddListener on. */
    method PublishListener(lvol: string, env: Site -> Input) returns (outcome: Outcome)
      modifies target
      ensures State(target.state, transCreated, Done(Publish, outcome))
           == RunAlone(address, lvol, State(old(target.state), transCreated, Listen), env)
    {
      ghost var s := State(target.state, transCreated, Listen);
      var error := Send(AddListener(target.state, VolumeNqn(lvol), address), env(ListenSite).fault);
      s := Advance(address, lvol, s, env);
      if error.Some? {
        SubsystemRemoveNs(lvol, env, Rollback(error.value));
        s := State(target.state, transCreated, DropSubsystem(Rollback(error.value)));
        var _ := Send(DeleteSubsystem(target.state, VolumeNqn(lvol)), env(DropSite).fault);
        s := Advance(address, lvol, s, env);
        return Failed(error.value);
      }
      return Success;
    }

    method UnpublishVolume(lvol: string, env: Site -> Input) returns (outcome: Outcome)
      modifies this, target
      ensures State(target.state, transCreated, Done(Unpublish, outcome))
           == Call(address, lvol, Unpublish, old(target.state), old(transCreated), env)
    {
      ghost var s := State(target.state, transCreated, QueryBdev(Unpublish));
      var created := IsVolumeCreated(lvol, env(BdevSite).fault);
      s := Advance(address, lvol, s, env);
      if created.None? {
        return Panicked;
      }
      if !created.value {
        return Failed(VolumeDeleted);
      }
      var published := IsVolumePublished(lvol, env(ListenersSite).fault);
      s := Advance(address, lvol, s, env);
      if published.None? {
        return Failed(CallFailed);
      }
      if !published.value {
        return Success;
      }
      SubsystemRemoveNs(lvol, env, Withdraw);
      s := State(target.state, transCreated, DropSubsystem(Withdraw));
      var error := Send(DeleteSubsystem(target.state, VolumeNqn(lvol)), env(DropSite).fault);
      s := Advance(address, lvol, s, env);
      if error.Some? {
        return Failed(error.value);
      }
      return Success;
    }
  }
}
