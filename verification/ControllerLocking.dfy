/**
 * The controller's handlers as concurrent threads: each calls the gateway only inside the
 * critical section of its volume's name.
 */
module ControllerLocking {
  import opened Common
  import opened VolumeIdentity
  import opened Controller
  import KeyedLock
  import Utf8

  datatype Request = CreateCall(request: CreateRequest) | DeleteCall(id: string)

  /** The key a handler locks; a delete whose ID cannot be decoded returns before locking. */
  function LockKey(r: Request): Option<KeyedLock.Key> {
    match r
    case CreateCall(request) => Some(KeyedLock.Name(request.name))
    case DeleteCall(id) =>
      var x := DecodeVolumeID(id);
      if x.None? then None else Some(KeyedLock.Name(x.value.volumeName))
  }

  /** The name in a volume's ID is the key its create was locked under, exactly if the name is UTF-8. */
  lemma SameKey(x: VolumeIdentifier, r: CreateRequest)
    requires r.name == x.volumeName
    ensures LockKey(DeleteCall(EncodeVolumeID(x))) == LockKey(CreateCall(r)) <==> Utf8.Valid(x.volumeName)
  {
    VolumeIDRoundTrip(x);
    Utf8.SanitizeKeepsExactlyValid(x.volumeName);
  }

  /** The threads of the service, what each serves, and the gateway they share. */
  datatype Desk = Desk(locks: KeyedLock.Locks, serving: map<KeyedLock.ThreadId, Request>, gateway: Gateway)

  /** A request comes in; a thread makes a step on the lock; a thread that holds its lock calls the gateway. */
  datatype DeskEvent =
    | Receive(thread: KeyedLock.ThreadId, request: Request)
    | Move(event: KeyedLock.Event)
    | Act(thread: KeyedLock.ThreadId, nsid: Uint32, uuid: Text, fault: Fault)

  predicate Inside(d: Desk, t: KeyedLock.ThreadId) {
    KeyedLock.PhaseOf(d.locks, t).Holding? && t in d.serving
  }

  function GatewayCall(r: Request, nsid: Uint32, uuid: Text, f: Fault): Event {
    match r
    case CreateCall(request) => Created(request, nsid, uuid, f)
    case DeleteCall(id) => Deleted(id, f)
  }

  function NextDesk(d: Desk, e: DeskEvent): Desk {
    match e
    case Receive(t, r) =>
      if KeyedLock.PhaseOf(d.locks, t).Idle? && LockKey(r).Some?
      then d.(locks := KeyedLock.Next(d.locks, KeyedLock.Call(t, LockKey(r).value)), serving := d.serving[t := r])
      else d
    case Move(l) => if l.Call? then d else d.(locks := KeyedLock.Next(d.locks, l))
    case Act(t, nsid, uuid, f) =>
      if Inside(d, t) then d.(gateway := Next(d.gateway, GatewayCall(d.serving[t], nsid, uuid, f))) else d
  }

  function RunDesk(d: Desk, es: seq<DeskEvent>): Desk
    decreases |es|
  {
    if es == [] then d else RunDesk(NextDesk(d, es[0]), es[1..])
  }

  /** Every thread in or at the lock is there for the key of the request it serves. */
  ghost predicate DeskOk(d: Desk) {
    && KeyedLock.Inv(d.locks)
    && forall t :: !KeyedLock.PhaseOf(d.locks, t).Idle? ==>
         t in d.serving && LockKey(d.serving[t]) == Some(KeyedLock.PhaseOf(d.locks, t).key)
  }

  lemma NextDeskKeepsOk(d: Desk, e: DeskEvent)
    requires DeskOk(d)
    ensures DeskOk(NextDesk(d, e))
  {
    var d' := NextDesk(d, e);
    if !e.Act? && d' != d {
      var l := if e.Move? then e.event else KeyedLock.Call(e.thread, LockKey(e.request).value);
      KeyedLock.NextKeepsInv(d.locks, l);
      forall t | !KeyedLock.PhaseOf(d'.locks, t).Idle?
        ensures t in d'.serving && LockKey(d'.serving[t]) == Some(KeyedLock.PhaseOf(d'.locks, t).key)
      {
        KeyedLock.NextPhase(d.locks, l, t);
      }
    }
  }

  lemma {:induction false} RunDeskKeepsOk(d: Desk, es: seq<DeskEvent>)
    requires DeskOk(d)
    ensures DeskOk(RunDesk(d, es))
    decreases |es|
  {
    if es != [] {
      NextDeskKeepsOk(d, es[0]);
      RunDeskKeepsOk(NextDesk(d, es[0]), es[1..]);
    }
  }

  /**
   * However the handlers interleave, creating a volume and deleting it by its ID are never
   * inside their critical sections, where the gateway is called, at the same time.
   */
  lemma CreateAndDeleteNeverOverlap(g: Gateway, es: seq<DeskEvent>, t: KeyedLock.ThreadId, u: KeyedLock.ThreadId,
                                    r: CreateRequest, x: VolumeIdentifier)
    requires Utf8.Valid(x.volumeName) && r.name == x.volumeName
    ensures var d := RunDesk(Desk(KeyedLock.NEW, map[], g), es);
            !(Inside(d, t) && d.serving[t] == CreateCall(r) && Inside(d, u) && d.serving[u] == DeleteCall(EncodeVolumeID(x)))
  {
    var d := RunDesk(Desk(KeyedLock.NEW, map[], g), es);
    RunDeskKeepsOk(Desk(KeyedLock.NEW, map[], g), es);
    SameKey(x, r);
    if Inside(d, t) && Inside(d, u) {
      assert KeyedLock.ThreadOk(d.locks, t) && KeyedLock.ThreadOk(d.locks, u);
    }
  }

  /** The gateway calls that are made, in their order. */
  function GatewayCalls(d: Desk, es: seq<DeskEvent>): seq<Event>
    decreases |es|
  {
    if es == [] then []
    else
      var e, rest := es[0], GatewayCalls(NextDesk(d, es[0]), es[1..]);
      if e.Act? && Inside(d, e.thread) then [GatewayCall(d.serving[e.thread], e.nsid, e.uuid, e.fault)] + rest else rest
  }

  /** To the gateway, a run of concurrent handlers is a run of requests one after the other. */
  lemma {:induction false} DeskRefinesRun(d: Desk, es: seq<DeskEvent>)
    ensures RunDesk(d, es).gateway == Run(d.gateway, GatewayCalls(d, es))
    decreases |es|
  {
    if es != [] {
      var e, calls := es[0], GatewayCalls(d, es);
      DeskRefinesRun(NextDesk(d, e), es[1..]);
      if e.Act? && Inside(d, e.thread) {
        assert calls[1..] == GatewayCalls(NextDesk(d, e), es[1..]);
      }
    }
  }
}
