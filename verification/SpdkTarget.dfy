/**
 * The SPDK target as seen through its JSON-RPC interface: the state it keeps
 * and the effect of each call the driver issues (pkg/util/nvmf.go).
 */
module SpdkTarget {
  import opened Common

  datatype Address = Address(trtype: string, adrfam: string, traddr: string, trsvcid: string)

  datatype Namespace = Namespace(nsid: nat, bdev: string)

  datatype Subsystem = Subsystem(namespaces: seq<Namespace>, listeners: seq<Address>)

  datatype Target = Target(
    bdevs: set<string>,
    transports: set<string>,
    subsystems: map<string, Subsystem>)

  /** Errors, by what the driver can tell about their text. */
  datatype Error = CallFailed | Rejected | AlreadyExists | VolumeDeleted

  /** The state after a call, and the error the caller sees (if any). */
  datatype Reply = Reply(target: Target, error: Option<Error>)

  const NQN_PREFIX := "nqn.2020-04.io.spdk.csi:uuid:"

  function VolumeNqn(lvol: string): string {
    NQN_PREFIX + lvol
  }

  /** Distinct volumes live in distinct subsystems. */
  lemma VolumeNqnInjective(a: string, b: string)
    ensures VolumeNqn(a) == VolumeNqn(b) ==> a == b
  {
    if VolumeNqn(a) == VolumeNqn(b) {
      assert a == VolumeNqn(a)[|NQN_PREFIX|..];
      assert b == VolumeNqn(b)[|NQN_PREFIX|..];
    }
  }

  function CreateTransport(t: Target, trtype: string): Reply {
    if trtype in t.transports then Reply(t, Some(AlreadyExists))
    else Reply(t.(transports := t.transports + {trtype}), None)
  }

  function CreateSubsystem(t: Target, nqn: string): Reply {
    if nqn in t.subsystems then Reply(t, Some(Rejected))
    else Reply(t.(subsystems := t.subsystems[nqn := Subsystem([], [])]), None)
  }

  predicate NsidInUse(namespaces: seq<Namespace>, nsid: nat) {
    exists i :: 0 <= i < |namespaces| && namespaces[i].nsid == nsid
  }

  /** The target picks `nsid`; a number that is zero or taken cannot be handed out. */
  function AddNs(t: Target, nqn: string, bdev: string, nsid: nat): Reply {
    if nqn !in t.subsystems || bdev !in t.bdevs || nsid == 0
       || NsidInUse(t.subsystems[nqn].namespaces, nsid)
    then Reply(t, Some(Rejected))
    else
      var s := t.subsystems[nqn];
      Reply(t.(subsystems := t.subsystems[nqn := s.(namespaces := s.namespaces + [Namespace(nsid, bdev)])]), None)
  }

  function AddListener(t: Target, nqn: string, a: Address): Reply {
    if nqn !in t.subsystems || a.trtype !in t.transports then Reply(t, Some(Rejected))
    else
      var s := t.subsystems[nqn];
      if a in s.listeners then Reply(t, None)
      else Reply(t.(subsystems := t.subsystems[nqn := s.(listeners := s.listeners + [a])]), None)
  }

  function WithoutNsid(namespaces: seq<Namespace>, nsid: nat): seq<Namespace> {
    if namespaces == [] then []
    else if namespaces[0].nsid == nsid then WithoutNsid(namespaces[1..], nsid)
    else [namespaces[0]] + WithoutNsid(namespaces[1..], nsid)
  }

  function RemoveNs(t: Target, nqn: string, nsid: nat): Reply {
    if nqn !in t.subsystems || !NsidInUse(t.subsystems[nqn].namespaces, nsid) then Reply(t, Some(Rejected))
    else
      var s := t.subsystems[nqn];
      Reply(t.(subsystems := t.subsystems[nqn := s.(namespaces := WithoutNsid(s.namespaces, nsid))]), None)
  }

  function DeleteSubsystem(t: Target, nqn: string): Reply {
    if nqn !in t.subsystems then Reply(t, Some(Rejected))
    else Reply(t.(subsystems := t.subsystems - {nqn}), None)
  }

  /** What reaches the caller when call `r`, made in state `t`, meets fault `f`. */
  function Deliver(t: Target, r: Reply, f: Fault): Reply {
    match f
    case NoFault => r
    case Lost => Reply(t, Some(CallFailed))
    case Applied => Reply(r.target, Some(CallFailed))
  }

  /** The NSID under which `bdev` is attached, first match first. */
  function FindNsid(namespaces: seq<Namespace>, bdev: string): (r: Option<nat>)
    ensures r.None? <==> forall i :: 0 <= i < |namespaces| ==> namespaces[i].bdev != bdev
    ensures r.Some? ==> NsidInUse(namespaces, r.value)
    ensures r.Some? ==> exists i :: 0 <= i < |namespaces| && namespaces[i] == Namespace(r.value, bdev)
                                 && forall j :: 0 <= j < i ==> namespaces[j].bdev != bdev
  {
    if namespaces == [] then None
    else if namespaces[0].bdev == bdev then Some(namespaces[0].nsid)
    else
      var rest := FindNsid(namespaces[1..], bdev);
      assert forall i :: 1 <= i < |namespaces| ==> namespaces[i] == namespaces[1..][i - 1];
      assert forall i :: 0 <= i < |namespaces[1..]| ==> namespaces[1..][i] == namespaces[i + 1];
      rest
  }

  function NsidOf(t: Target, nqn: string, bdev: string): Option<nat> {
    if nqn in t.subsystems then FindNsid(t.subsystems[nqn].namespaces, bdev) else None
  }

  predicate IsListening(t: Target, nqn: string, a: Address) {
    nqn in t.subsystems && a in t.subsystems[nqn].listeners
  }

  /** One entry of the answer to nvmf_get_subsystems. */
  datatype Listed = Listed(nqn: string, namespaces: seq<Namespace>)

  /** A listing shows every subsystem once, in whatever order the target likes. */
  ghost predicate IsListing(listing: seq<Listed>, subsystems: map<string, Subsystem>) {
    && (forall i :: 0 <= i < |listing| ==>
          listing[i].nqn in subsystems && listing[i].namespaces == subsystems[listing[i].nqn].namespaces)
    && (forall nqn :: nqn in subsystems ==> exists i :: 0 <= i < |listing| && listing[i].nqn == nqn)
  }

  /** The search loop of isVolumePublished. */
  method SearchListeners(listeners: seq<Address>, a: Address) returns (found: bool)
    ensures found <==> a in listeners
  {
    for i := 0 to |listeners|
      invariant a !in listeners[..i]
    {
      if listeners[i].trtype == a.trtype && listeners[i].traddr == a.traddr
         && listeners[i].trsvcid == a.trsvcid && listeners[i].adrfam == a.adrfam
      {
        return true;
      }
    }
    return false;
  }

  /**
   * The nested search loops of subsystemGetNsID. However the target orders its
   * answer, the result is the one a direct look-up of the subsystem gives.
   */
  method SearchNamespaces(listing: seq<Listed>, ghost t: Target, nqn: string, bdev: string) returns (r: Option<nat>)
    requires IsListing(listing, t.subsystems)
    ensures r == NsidOf(t, nqn, bdev)
  {
    for i := 0 to |listing|
      invariant forall k :: 0 <= k < i && listing[k].nqn == nqn ==> FindNsid(listing[k].namespaces, bdev).None?
    {
      if listing[i].nqn == nqn {
        var namespaces := listing[i].namespaces;
        for j := 0 to |namespaces|
          invariant FindNsid(namespaces, bdev) == FindNsid(namespaces[j..], bdev)
        {
          if namespaces[j].bdev == bdev {
            return Some(namespaces[j].nsid);
          }
          assert namespaces[j..][1..] == namespaces[j + 1..];
        }
      }
    }
    return None;
  }
}
