/**
 * The controller service (pkg/driver/controllerserver.go) over the gateway's
 * namespaces: create, publish and delete a volume.
 */
module Controller {
  import opened Common
  import opened VolumeIdentity
  import Utf8

  datatype Ns = Ns(image: Text, uuid: Text)

  /** Subsystem NQN to its namespaces, by NSID. */
  type Gateway = map<Text, map<int, Ns>>

  /** ListFailed and UuidNotFound are plain errors without a gRPC code of their own. */
  datatype Code = Internal | InvalidArgument | ListFailed | UuidNotFound

  datatype CreateRequest = CreateRequest(name: Text, parameters: map<string, Text>, requiredBytes: int)

  datatype Volume = Volume(id: string, capacity: int, context: map<string, Text>)

  const DEFAULT_BYTES := 1 * 200 * 1024 * 1024

  // ---------------------------------------------------------------------
  // The gateway.

  function At(g: Gateway, nqn: Text, nsid: int): Option<Ns> {
    if nqn in g && nsid in g[nqn] then Some(g[nqn][nsid]) else None
  }

  /** The gateway chooses NSID and UUID of a new namespace; images are unique per subsystem, UUIDs everywhere. */
  predicate CanAdd(g: Gateway, nqn: Text, nsid: Uint32, ns: Ns) {
    && nqn in g && nsid !in g[nqn] && IsUuid(ns.uuid)
    && (forall n :: n in g[nqn] ==> g[nqn][n].image != ns.image)
    && (forall q :: q in g ==> forall n :: n in g[q] ==> g[q][n].uuid != ns.uuid)
  }

  function Add(g: Gateway, nqn: Text, nsid: Uint32, ns: Ns): Gateway
    requires nqn in g
  {
    g[nqn := g[nqn][nsid := ns]]
  }

  function Without(g: Gateway, nqn: Text, nsid: Uint32): Gateway {
    if nqn in g then g[nqn := g[nqn] - {nsid}] else g
  }

  ghost predicate GatewayOk(g: Gateway) {
    && (forall q, n :: At(g, q, n).Some? ==> IsUuid(At(g, q, n).value.uuid))
    && (forall q, m, n :: At(g, q, m).Some? && At(g, q, n).Some? ==>
          At(g, q, m).value.image == At(g, q, n).value.image ==> m == n)
    && (forall q, r, m, n :: At(g, q, m).Some? && At(g, r, n).Some? ==>
          At(g, q, m).value.uuid == At(g, r, n).value.uuid ==> q == r && m == n)
  }

  // ---------------------------------------------------------------------
  // The driver's requests, as functions of the gateway's state.

  function SubsystemNqn(r: CreateRequest): Text { Get(r.parameters, "SubsystemNqn") }

  function InitialContext(r: CreateRequest): map<string, Text> {
    map["nqn" := SubsystemNqn(r),
        "traddr" := Get(r.parameters, "traddr"),
        "trsvcid" := Get(r.parameters, "trsvcid"),
        "transport" := Get(r.parameters, "transport"),
        "image" := r.name]
  }

  function NewVolume(r: CreateRequest, nsid: Uint32): Volume {
    Volume(EncodeVolumeID(VolumeIdentifier(nsid, SubsystemNqn(r), r.name)),
           if r.requiredBytes == 0 then DEFAULT_BYTES else r.requiredBytes,
           InitialContext(r) + r.parameters)
  }

  datatype Step<T> = Step(gateway: Gateway, result: Result<T, Code>)

  function Create(g: Gateway, r: CreateRequest, nsid: Uint32, uuid: Text, f: Fault): Step<Volume> {
    var nqn, ns := SubsystemNqn(r), Ns(r.name, uuid);
    if f.Lost? || !CanAdd(g, nqn, nsid, ns) then Step(g, Err(Internal))
    else Step(Add(g, nqn, nsid, ns), if f.NoFault? then Ok(NewVolume(r, nsid)) else Err(Internal))
  }

  function Delete(g: Gateway, id: string, f: Fault): Step<()> {
    if id == "" then Step(g, Err(InvalidArgument))
    else
      var x := DecodeVolumeID(id);
      if x.None? then Step(g, Err(InvalidArgument))
      else if f.Lost? || At(g, x.value.nqn, x.value.nsid).None? then Step(g, Err(Internal))
      else Step(Without(g, x.value.nqn, x.value.nsid), if f.NoFault? then Ok(()) else Err(Internal))
  }

  /** The answer to list_namespaces, in the gateway's order. */
  ghost predicate IsListing(listing: seq<Ns>, g: Gateway, nqn: Text) {
    && (forall i :: 0 <= i < |listing| ==> exists n :: At(g, nqn, n) == Some(listing[i]))
    && (forall n :: At(g, nqn, n).Some? ==> At(g, nqn, n).value in listing)
  }

  /** UUID of the first entry with that image; empty if there is none. */
  function FirstUuid(listing: seq<Ns>, image: Text): Text {
    if listing == [] then []
    else if listing[0].image == image then listing[0].uuid
    else FirstUuid(listing[1..], image)
  }

  function PublishContext(context: map<string, Text>, uuid: Text): map<string, Text> {
    map["uuid" := uuid, "nqn" := Get(context, "nqn"), "traddr" := Get(context, "traddr"),
        "trsvcid" := Get(context, "trsvcid"), "transport" := Get(context, "transport")]
  }

  /** The first entry of the listing with that image has that UUID. */
  ghost predicate FirstEntry(listing: seq<Ns>, image: Text, uuid: Text) {
    exists i :: 0 <= i < |listing| && listing[i] == Ns(image, uuid) && forall j :: 0 <= j < i ==> listing[j].image != image
  }

  /** What a node is handed: the context's own address and subsystem, and a UUID. */
  predicate HandsOver(context: map<string, Text>, answer: map<string, Text>) {
    && answer.Keys == {"uuid", "nqn", "traddr", "trsvcid", "transport"}
    && forall k :: k in {"nqn", "traddr", "trsvcid", "transport"} ==> answer[k] == Get(context, k)
  }

  /** ControllerPublishVolume, given the listing it gets (None: the call failed). */
  function Publish(listing: Option<seq<Ns>>, context: map<string, Text>): (answer: Result<map<string, Text>, Code>)
    ensures answer == Err(ListFailed) <==> listing.None?
    ensures answer.Ok? ==>
              && HandsOver(context, answer.value) && answer.value["uuid"] != []
              && FirstEntry(listing.value, Get(context, "image"), answer.value["uuid"])
    ensures listing.Some? && answer.Err? ==>
              && answer.error == UuidNotFound
              && forall uuid :: FirstEntry(listing.value, Get(context, "image"), uuid) ==> uuid == []
  {
    if listing.None? then Err(ListFailed)
    else
      var uuid := FirstUuid(listing.value, Get(context, "image"));
      FirstUuidIsFirst(listing.value, Get(context, "image"));
      if uuid == [] then Err(UuidNotFound) else Ok(PublishContext(context, uuid))
  }

  lemma {:induction false} FirstUuidIsFirst(listing: seq<Ns>, image: Text)
    ensures FirstUuid(listing, image) != [] ==> FirstEntry(listing, image, FirstUuid(listing, image))
    ensures forall uuid :: FirstEntry(listing, image, uuid) ==> uuid == FirstUuid(listing, image)
  {
    if listing != [] {
      var rest := listing[1..];
      FirstUuidIsFirst(rest, image);
      assert forall i :: 0 <= i < |rest| ==> rest[i] == listing[i + 1];
      if listing[0].image == image {
        assert listing[0] == Ns(image, listing[0].uuid);
      } else {
        forall uuid
          ensures FirstEntry(listing, image, uuid) <==> FirstEntry(rest, image, uuid)
        {
          FirstEntryTail(listing, image, uuid);
        }
      }
    }
  }

  lemma FirstEntryTail(listing: seq<Ns>, image: Text, uuid: Text)
    requires listing != [] && listing[0].image != image
    ensures FirstEntry(listing, image, uuid) <==> FirstEntry(listing[1..], image, uuid)
  {
    var rest := listing[1..];
    if FirstEntry(listing, image, uuid) {
      var i :| 0 <= i < |listing| && listing[i] == Ns(image, uuid) && forall j :: 0 <= j < i ==> listing[j].image != image;
      assert rest[i - 1] == listing[i] && forall j :: 0 <= j < i - 1 ==> rest[j] == listing[j + 1];
    }
    if FirstEntry(rest, image, uuid) {
      var i :| 0 <= i < |rest| && rest[i] == Ns(image, uuid) && forall j :: 0 <= j < i ==> rest[j].image != image;
      assert listing[i + 1] == rest[i] && forall j :: 0 < j < i + 1 ==> listing[j] == rest[j - 1];
    }
  }

  // ---------------------------------------------------------------------
  // The driver's loops.

  /** The parameters of the storage class overwrite the volume context, in whatever order the map is walked. */
  method AddParameters(context: map<string, Text>, parameters: map<string, Text>) returns (all: map<string, Text>)
    ensures all == context + parameters
  {
    all := context;
    var left := parameters.Keys;
    while left != {}
      invariant left <= parameters.Keys
      invariant all.Keys == context.Keys + (parameters.Keys - left)
      invariant forall k :: k in all ==> all[k] == if k in parameters && k !in left then parameters[k] else context[k]
      decreases left
    {
      var k :| k in left;
      all := all[k := parameters[k]];
      left := left - {k};
    }
  }

  /** The search loop of ControllerPublishVolume: it stops at the first match, whatever its UUID. */
  method FindUuid(namespaces: seq<Ns>, image: Text) returns (uuid: Text)
    ensures uuid == FirstUuid(namespaces, image)
  {
    uuid := [];
    for i := 0 to |namespaces|
      invariant uuid == [] && FirstUuid(namespaces, image) == FirstUuid(namespaces[i..], image)
    {
      if namespaces[i].image == image {
        uuid := namespaces[i].uuid;
        break;
      }
      assert namespaces[i..][1..] == namespaces[i + 1..];
    }
  }

  // ---------------------------------------------------------------------
  // Whole runs.

  datatype Event =
    | Created(request: CreateRequest, nsid: Uint32, uuid: Text, fault: Fault)
    | Deleted(id: string, fault: Fault)

  function Next(g: Gateway, e: Event): Gateway {
    match e
    case Created(r, nsid, uuid, f) => Create(g, r, nsid, uuid, f).gateway
    case Deleted(id, f) => Delete(g, id, f).gateway
  }

  function Run(g: Gateway, es: seq<Event>): Gateway
    decreases |es|
  {
    if es == [] then g else Run(Next(g, es[0]), es[1..])
  }

  /** `e` is a delete request whose ID names this namespace. */
  predicate Aims(e: Event, nqn: Text, nsid: Uint32) {
    e.Deleted? && DecodeVolumeID(e.id).Some?
    && DecodeVolumeID(e.id).value.nqn == nqn && DecodeVolumeID(e.id).value.nsid == nsid
  }

  lemma AddKeepsOk(g: Gateway, nqn: Text, nsid: Uint32, ns: Ns)
    requires GatewayOk(g) && CanAdd(g, nqn, nsid, ns)
    ensures GatewayOk(Add(g, nqn, nsid, ns))
  {
    var g' := Add(g, nqn, nsid, ns);
    assert forall q, n :: At(g', q, n) == if q == nqn && n == nsid then Some(ns) else At(g, q, n);
    assert forall n :: At(g, nqn, n).Some? ==> At(g, nqn, n).value.image != ns.image;
    assert forall q, n :: At(g, q, n).Some? ==> At(g, q, n).value.uuid != ns.uuid;
  }

  lemma WithoutKeepsOk(g: Gateway, nqn: Text, nsid: Uint32)
    requires GatewayOk(g)
    ensures GatewayOk(Without(g, nqn, nsid))
  {
    var g' := Without(g, nqn, nsid);
    assert forall q, n :: At(g', q, n) == if q == nqn && n == nsid then None else At(g, q, n);
  }

  lemma NextKeepsOk(g: Gateway, e: Event)
    requires GatewayOk(g)
    ensures GatewayOk(Next(g, e))
  {
    match e {
      case Created(r, nsid, uuid, f) =>
        if CanAdd(g, SubsystemNqn(r), nsid, Ns(r.name, uuid)) {
          AddKeepsOk(g, SubsystemNqn(r), nsid, Ns(r.name, uuid));
        }
      case Deleted(id, f) =>
        if DecodeVolumeID(id).Some? {
          WithoutKeepsOk(g, DecodeVolumeID(id).value.nqn, DecodeVolumeID(id).value.nsid);
        }
    }
  }

  /** One request removes a namespace exactly when it is a delete aimed at it that reaches the gateway. */
  lemma NextRemoves(g: Gateway, e: Event, nqn: Text, nsid: Uint32)
    requires At(g, nqn, nsid).Some?
    ensures At(Next(g, e), nqn, nsid) == if Aims(e, nqn, nsid) && e.id != "" && !e.fault.Lost? then None else At(g, nqn, nsid)
  {
  }

  /** `e` is such a delete that is executed, whatever is answered. */
  predicate Strikes(e: Event, nqn: Text, nsid: Uint32) {
    Aims(e, nqn, nsid) && !e.fault.Lost?
  }

  ghost predicate Spared(es: seq<Event>, nqn: Text, nsid: Uint32) {
    forall i :: 0 <= i < |es| ==> !Strikes(es[i], nqn, nsid)
  }

  lemma {:induction false} NamespaceSurvives(g: Gateway, es: seq<Event>, nqn: Text, nsid: Uint32)
    requires GatewayOk(g) && At(g, nqn, nsid).Some? && Spared(es, nqn, nsid)
    ensures GatewayOk(Run(g, es)) && At(Run(g, es), nqn, nsid) == At(g, nqn, nsid)
    decreases |es|
  {
    if es != [] {
      NextKeepsOk(g, es[0]);
      NextRemoves(g, es[0], nqn, nsid);
      NamespaceSurvives(Next(g, es[0]), es[1..], nqn, nsid);
    }
  }

  /** The storage class parameters do not point the volume elsewhere. */
  predicate KeepsContext(r: CreateRequest) {
    && ("nqn" in r.parameters ==> r.parameters["nqn"] == SubsystemNqn(r))
    && ("image" in r.parameters ==> r.parameters["image"] == r.name)
  }

  lemma {:induction false} FirstUuidIsListed(listing: seq<Ns>, image: Text)
    ensures FirstUuid(listing, image) != [] ==>
              exists i :: 0 <= i < |listing| && listing[i].image == image && listing[i].uuid == FirstUuid(listing, image)
    ensures ((exists i :: 0 <= i < |listing| && listing[i].image == image)
             && forall i :: 0 <= i < |listing| ==> listing[i].uuid != []) ==> FirstUuid(listing, image) != []
  {
    if listing != [] && listing[0].image != image {
      var rest := listing[1..];
      FirstUuidIsListed(rest, image);
      assert forall i :: 0 <= i < |rest| ==> rest[i] == listing[i + 1];
      if i :| 0 <= i < |listing| && listing[i].image == image {
        assert rest[i - 1] == listing[i];
      }
    }
  }

  /** However the gateway orders its answer, the look-up finds the one namespace with the image. */
  lemma LookUp(g: Gateway, listing: seq<Ns>, q: Text, image: Text, nqn: Text, nsid: Uint32)
    requires GatewayOk(g) && At(g, nqn, nsid).Some? && IsListing(listing, g, q)
    ensures FirstUuid(listing, image) == At(g, nqn, nsid).value.uuid <==> q == nqn && image == At(g, nqn, nsid).value.image
  {
    var ns, found := At(g, nqn, nsid).value, FirstUuid(listing, image);
    FirstUuidIsListed(listing, image);
    forall i | 0 <= i < |listing|
      ensures listing[i].uuid != []
    {
      var n :| At(g, q, n) == Some(listing[i]);
    }
    if q == nqn && image == ns.image {
      assert ns in listing;
      var i :| 0 <= i < |listing| && listing[i].image == image && listing[i].uuid == found;
      var n :| At(g, q, n) == Some(listing[i]);
      assert n == nsid;
    }
    if found == ns.uuid {
      var i :| 0 <= i < |listing| && listing[i].image == image && listing[i].uuid == found;
      var n :| At(g, q, n) == Some(listing[i]);
      assert q == nqn && n == nsid;
    }
  }

  lemma ContextKept(r: CreateRequest, nsid: Uint32)
    ensures var context := NewVolume(r, nsid).context;
            Get(context, "nqn") == SubsystemNqn(r) && Get(context, "image") == r.name <==> KeepsContext(r)
  {
  }

  /** `volume` was made by a create that succeeded in `g`, and `now` is the gateway after requests `es` since. */
  ghost predicate CreatedBefore(g: Gateway, r: CreateRequest, nsid: Uint32, uuid: Text, es: seq<Event>, volume: Volume, now: Gateway) {
    && GatewayOk(g) && Create(g, r, nsid, uuid, NoFault).result == Ok(volume)
    && now == Run(Create(g, r, nsid, uuid, NoFault).gateway, es)
    && Spared(es, SubsystemNqn(r), nsid)
  }

  lemma VolumeSurvives(g: Gateway, r: CreateRequest, nsid: Uint32, uuid: Text, es: seq<Event>, volume: Volume, now: Gateway)
    requires CreatedBefore(g, r, nsid, uuid, es, volume, now)
    ensures GatewayOk(now) && At(now, SubsystemNqn(r), nsid) == Some(Ns(r.name, uuid)) && volume == NewVolume(r, nsid)
  {
    var nqn, ns := SubsystemNqn(r), Ns(r.name, uuid);
    AddKeepsOk(g, nqn, nsid, ns);
    NamespaceSurvives(Add(g, nqn, nsid, ns), es, nqn, nsid);
  }

  /**
   * Across any requests of which none is a delete executed on its namespace, publishing a
   * volume returns the UUID of the namespace that its own create added if and only if
   * the parameters do not redefine "nqn" or "image".
   */
  lemma PublishFindsOwnNamespace(g: Gateway, r: CreateRequest, nsid: Uint32, uuid: Text, es: seq<Event>,
                                 volume: Volume, now: Gateway, listing: seq<Ns>)
    requires CreatedBefore(g, r, nsid, uuid, es, volume, now)
    requires IsListing(listing, now, Get(volume.context, "nqn"))
    ensures Publish(Some(listing), volume.context) == Ok(PublishContext(volume.context, uuid)) <==> KeepsContext(r)
  {
    VolumeSurvives(g, r, nsid, uuid, es, volume, now);
    var context := volume.context;
    LookUp(now, listing, Get(context, "nqn"), Get(context, "image"), SubsystemNqn(r), nsid);
    PublishContextUuid(context, uuid, FirstUuid(listing, Get(context, "image")));
    ContextKept(r, nsid);
  }

  lemma NoEmptyID()
    ensures DecodeVolumeID("").None?
  {
  }

  /** What a delete request with an ID of the driver's own making does. */
  lemma DeleteById(g: Gateway, x: VolumeIdentifier, f: Fault)
    requires IsText(x)
    ensures Delete(g, EncodeVolumeID(x), f) ==
              if f.Lost? || At(g, x.nqn, x.nsid).None? then Step(g, Err(Internal))
              else Step(Without(g, x.nqn, x.nsid), if f.NoFault? then Ok(()) else Err(Internal))
  {
    VolumeIDRoundTrip(x);
    NoEmptyID();
  }

  /** Across the same requests, deleting the volume by its ID removes its namespace and nothing else. */
  lemma DeleteRemovesOwnNamespace(g: Gateway, r: CreateRequest, nsid: Uint32, uuid: Text, es: seq<Event>,
                                  volume: Volume, now: Gateway)
    requires CreatedBefore(g, r, nsid, uuid, es, volume, now)
    requires Utf8.Valid(r.name) && Utf8.Valid(SubsystemNqn(r))
    ensures Delete(now, volume.id, NoFault) == Step(Without(now, SubsystemNqn(r), nsid), Ok(()))
  {
    VolumeSurvives(g, r, nsid, uuid, es, volume, now);
    DeleteById(now, VolumeIdentifier(nsid, SubsystemNqn(r), r.name), NoFault);
  }

  /** The namespace with this UUID is gone, wherever it was. */
  ghost predicate Gone(g: Gateway, uuid: Text) {
    forall q, n :: At(g, q, n).Some? ==> At(g, q, n).value.uuid != uuid
  }

  /** UUIDs are not given out twice. */
  ghost predicate NeverAgain(es: seq<Event>, uuid: Text) {
    forall i :: 0 <= i < |es| && es[i].Created? ==> es[i].uuid != uuid
  }

  lemma {:induction false} StaysGone(g: Gateway, es: seq<Event>, uuid: Text)
    requires Gone(g, uuid) && NeverAgain(es, uuid)
    ensures Gone(Run(g, es), uuid)
    decreases |es|
  {
    if es != [] {
      NextStaysGone(g, es[0], uuid);
      StaysGone(Next(g, es[0]), es[1..], uuid);
    }
  }

  lemma NextStaysGone(g: Gateway, e: Event, uuid: Text)
    requires Gone(g, uuid) && (e.Created? ==> e.uuid != uuid)
    ensures Gone(Next(g, e), uuid)
  {
    var g' := Next(g, e);
    forall q, n | At(g', q, n).Some?
      ensures At(g', q, n).value.uuid != uuid
    {
      assert At(g, q, n).Some? ==> At(g, q, n).value.uuid != uuid;
    }
  }

  lemma StruckIsGone(g: Gateway, e: Event, nqn: Text, nsid: Uint32)
    requires GatewayOk(g) && At(g, nqn, nsid).Some? && Strikes(e, nqn, nsid)
    ensures Gone(Next(g, e), At(g, nqn, nsid).value.uuid)
  {
    NoEmptyID();
    var g' := Next(g, e);
    assert g' == Without(g, nqn, nsid);
    assert forall q, n :: At(g', q, n) == if q == nqn && n == nsid then None else At(g, q, n);
  }

  /** A namespace is still itself exactly if no delete was executed on its NQN and NSID. */
  lemma {:induction false} StillThere(g: Gateway, es: seq<Event>, nqn: Text, nsid: Uint32)
    requires GatewayOk(g) && At(g, nqn, nsid).Some? && NeverAgain(es, At(g, nqn, nsid).value.uuid)
    ensures At(Run(g, es), nqn, nsid) == At(g, nqn, nsid) <==> Spared(es, nqn, nsid)
    decreases |es|
  {
    if es != [] {
      NextKeepsOk(g, es[0]);
      if Strikes(es[0], nqn, nsid) {
        StruckIsGone(g, es[0], nqn, nsid);
        StaysGone(Next(g, es[0]), es[1..], At(g, nqn, nsid).value.uuid);
      } else {
        NextRemoves(g, es[0], nqn, nsid);
        StillThere(Next(g, es[0]), es[1..], nqn, nsid);
        assert forall i :: 0 < i < |es| ==> es[i] == es[1..][i - 1];
      }
    }
  }

  /**
   * Whatever has happened since its create, deleting a volume by its ID takes the volume's
   * own namespace away if and only if the call is executed and no delete was executed on
   * that NQN and NSID before.
   */
  lemma DeleteTakesOwnExactly(g: Gateway, r: CreateRequest, nsid: Uint32, uuid: Text, es: seq<Event>, f: Fault)
    requires GatewayOk(g) && Create(g, r, nsid, uuid, NoFault).result.Ok? && NeverAgain(es, uuid)
    requires Utf8.Valid(r.name) && Utf8.Valid(SubsystemNqn(r))
    ensures var nqn, own := SubsystemNqn(r), Some(Ns(r.name, uuid));
            var now := Run(Create(g, r, nsid, uuid, NoFault).gateway, es);
            At(now, nqn, nsid) == own && At(Delete(now, NewVolume(r, nsid).id, f).gateway, nqn, nsid) != own
            <==> Spared(es, nqn, nsid) && !f.Lost?
  {
    var nqn, ns := SubsystemNqn(r), Ns(r.name, uuid);
    AddKeepsOk(g, nqn, nsid, ns);
    StillThere(Add(g, nqn, nsid, ns), es, nqn, nsid);
    DeleteById(Run(Add(g, nqn, nsid, ns), es), VolumeIdentifier(nsid, nqn, r.name), f);
  }

  lemma PublishContextHas(context: map<string, Text>, uuid: Text)
    ensures Get(PublishContext(context, uuid), "uuid") == uuid
    ensures Get(PublishContext(context, uuid), "nqn") == Get(context, "nqn")
  {
  }

  lemma PublishContextUuid(context: map<string, Text>, u: Text, v: Text)
    ensures PublishContext(context, u) == PublishContext(context, v) <==> u == v
  {
    assert PublishContext(context, u)["uuid"] == u;
    assert PublishContext(context, v)["uuid"] == v;
  }

  /** What a delete does to the gateway, by what its ID decodes to. */
  function Removed(g: Gateway, x: VolumeIdentifier, f: Fault): Gateway {
    if f.Lost? then g else Without(g, x.nqn, x.nsid)
  }

  lemma DeleteIsRemoved(g: Gateway, id: string, f: Fault)
    ensures var x := DecodeVolumeID(id);
            Delete(g, id, f).gateway == if x.Some? then Removed(g, x.value, f) else g
  {
    NoEmptyID();
    var x := DecodeVolumeID(id);
    if x.Some? && At(g, x.value.nqn, x.value.nsid).None? && x.value.nqn in g {
      assert g[x.value.nqn] - {x.value.nsid} == g[x.value.nqn];
      assert Without(g, x.value.nqn, x.value.nsid) == g;
    }
  }

  // ---------------------------------------------------------------------
  // Stale volume IDs.

  /** A delete goes by NSID and NQN alone: the volume name in the ID plays no part. */
  lemma DeleteIgnoresName(g: Gateway, x: VolumeIdentifier, y: VolumeIdentifier, f: Fault)
    requires IsText(x) && IsText(y) && x.nsid == y.nsid && x.nqn == y.nqn
    ensures Delete(g, EncodeVolumeID(x), f) == Delete(g, EncodeVolumeID(y), f)
  {
    DeleteById(g, x, f);
    DeleteById(g, y, f);
  }

  /**
   * Why "none aimed at its namespace" is needed: volume `x` is deleted, but the answer
   * gets lost; volume `y` is created and receives the free NSID; the retried delete of
   * `x` then succeeds and takes the namespace of `y`.
   */
  lemma RetriedDeleteTakesReusedNsid(g: Gateway, x: VolumeIdentifier, r: CreateRequest, uuid: Text)
    requires IsText(x) && At(g, x.nqn, x.nsid).Some? && SubsystemNqn(r) == x.nqn && r.name != x.volumeName
    requires CanAdd(Without(g, x.nqn, x.nsid), x.nqn, x.nsid, Ns(r.name, uuid))
    ensures var id := EncodeVolumeID(x);
            var d1 := Delete(g, id, Applied);
            var c := Create(d1.gateway, r, x.nsid, uuid, NoFault);
            var d2 := Delete(c.gateway, id, NoFault);
            && d1.result.Err? && c.result.Ok? && d2.result.Ok?
            && At(c.gateway, x.nqn, x.nsid) == Some(Ns(r.name, uuid)) && At(d2.gateway, x.nqn, x.nsid).None?
  {
    DeleteById(g, x, Applied);
    var c := Create(Without(g, x.nqn, x.nsid), r, x.nsid, uuid, NoFault);
    DeleteById(c.gateway, x, NoFault);
  }

  // ---------------------------------------------------------------------
  // The service, acting in place on the gateway it talks to.

  lemma NotEmpty(s: set<int>)
    requires s != {}
    ensures exists k :: k in s
  {
    if forall k :: k !in s {
      assert false;
    }
  }

  /** The request to add a namespace. */
  datatype AddRequest = AddRequest(
    pool: Text, image: Text, subsystem: Text, blockSize: int,
    createImage: bool, size: int, noAutoVisible: bool, disableAutoResize: bool)

  /** The namespace is added unless the call is lost or refused, and nothing else changes. */
  ghost predicate IsAddedTo(g: Gateway, g': Gateway, r: CreateRequest, nsid: Uint32, uuid: Text, f: Fault) {
    var nqn, ns := Get(r.parameters, "SubsystemNqn"), Ns(r.name, uuid);
    forall q, n :: At(g', q, n) == if !f.Lost? && CanAdd(g, nqn, nsid, ns) && q == nqn && n == nsid then Some(ns) else At(g, q, n)
  }

  /**
   * The size asked for, or 200 MiB; an ID that decodes to the namespace and the name; and a
   * context in which parameters win over the subsystem and the image.
   */
  ghost predicate IsAnswerTo(r: CreateRequest, nsid: Uint32, v: Volume) {
    var nqn := Get(r.parameters, "SubsystemNqn");
    && v.capacity == (if r.requiredBytes == 0 then 209715200 else r.requiredBytes)
    && (Utf8.Valid(r.name) && Utf8.Valid(nqn) ==> DecodeVolumeID(v.id) == Some(VolumeIdentifier(nsid, nqn, r.name)))
    && v.context.Keys == r.parameters.Keys + {"nqn", "image", "traddr", "trsvcid", "transport"}
    && forall key :: key in v.context ==>
         v.context[key] == if key in r.parameters then r.parameters[key]
                           else if key == "nqn" then nqn else if key == "image" then r.name else []
  }

  lemma ContextMeans(r: CreateRequest)
    ensures var context := InitialContext(r) + r.parameters;
            && context.Keys == r.parameters.Keys + {"nqn", "image", "traddr", "trsvcid", "transport"}
            && forall key :: key in context ==>
                 context[key] == if key in r.parameters then r.parameters[key]
                                 else if key == "nqn" then Get(r.parameters, "SubsystemNqn")
                                 else if key == "image" then r.name else []
  {
  }

  lemma AnswerMeans(r: CreateRequest, nsid: Uint32)
    ensures IsAnswerTo(r, nsid, NewVolume(r, nsid))
  {
    ContextMeans(r);
    VolumeIDRoundTrip(VolumeIdentifier(nsid, SubsystemNqn(r), r.name));
  }

  lemma GatewayMeans(g: Gateway, r: CreateRequest, nsid: Uint32, uuid: Text, f: Fault)
    ensures IsAddedTo(g, Create(g, r, nsid, uuid, f).gateway, r, nsid, uuid, f)
  {
    var nqn, ns := SubsystemNqn(r), Ns(r.name, uuid);
    if nqn in g {
      assert forall q, n :: At(Add(g, nqn, nsid, ns), q, n) == if q == nqn && n == nsid then Some(ns) else At(g, q, n);
    }
  }

  lemma ResultMeans(g: Gateway, r: CreateRequest, nsid: Uint32, uuid: Text, f: Fault)
    ensures var result := Create(g, r, nsid, uuid, f).result;
            && (result.Ok? <==> f.NoFault? && CanAdd(g, Get(r.parameters, "SubsystemNqn"), nsid, Ns(r.name, uuid)))
            && result == if result.Ok? then Ok(NewVolume(r, nsid)) else Err(Internal)
  {
  }

  lemma NotListed(g: Gateway, listing: seq<Ns>, nqn: Text, image: Text)
    requires GatewayOk(g) && IsListing(listing, g, nqn)
    ensures FirstUuid(listing, image) == [] <==> forall n :: At(g, nqn, n).Some? ==> At(g, nqn, n).value.image != image
  {
    FirstUuidIsListed(listing, image);
    forall i | 0 <= i < |listing|
      ensures listing[i].uuid != []
    {
      var n :| At(g, nqn, n) == Some(listing[i]);
    }
    if n :| At(g, nqn, n).Some? && At(g, nqn, n).value.image == image {
      assert At(g, nqn, n).value in listing;
    }
    if FirstUuid(listing, image) != [] {
      var i :| 0 <= i < |listing| && listing[i].image == image && listing[i].uuid == FirstUuid(listing, image);
      var n :| At(g, nqn, n) == Some(listing[i]);
    }
  }

  class Server {
    var gateway: Gateway
    var sent: seq<AddRequest>

    constructor (g: Gateway)
      ensures gateway == g && sent == []
    {
      gateway, sent := g, [];
    }

    /** list_namespaces: the order of the answer is the gateway's choice. */
    method ListNamespaces(nqn: Text) returns (listing: seq<Ns>)
      ensures IsListing(listing, gateway, nqn)
    {
      listing := [];
      if nqn !in gateway {
        return;
      }
      var here := gateway[nqn];
      var left: set<int> := here.Keys;
      while left != {}
        invariant left <= here.Keys
        invariant forall i :: 0 <= i < |listing| ==> exists n :: At(gateway, nqn, n) == Some(listing[i])
        invariant forall n :: n in gateway[nqn] && n !in left ==> gateway[nqn][n] in listing
        decreases left
      {
        assert exists k: int :: k in left by { NotEmpty(left); }
        var n: int :| n in left;
        assert At(gateway, nqn, n) == Some(gateway[nqn][n]);
        listing := listing + [gateway[nqn][n]];
        left := left - {n};
      }
    }

    /** `nsid`, `uuid` and `f` are the gateway's part: what it would assign, and the fate of the call. */
    method CreateVolume(r: CreateRequest, nsid: Uint32, uuid: Text, f: Fault) returns (result: Result<Volume, Code>)
      modifies this
      ensures Step(gateway, result) == Create(old(gateway), r, nsid, uuid, f)
      ensures var size := if r.requiredBytes == 0 then 209715200 else r.requiredBytes;
              sent == old(sent) + [AddRequest(
                Get(r.parameters, "RbdPoolName"), r.name, Get(r.parameters, "SubsystemNqn"), 4096,
                true, size % 0x1_0000_0000_0000_0000, false, false)]
      ensures result.Ok? <==> f.NoFault? && CanAdd(old(gateway), Get(r.parameters, "SubsystemNqn"), nsid, Ns(r.name, uuid))
      ensures result.Err? ==> result.error == Internal
      ensures result.Ok? ==> IsAnswerTo(r, nsid, result.value)
      ensures IsAddedTo(old(gateway), gateway, r, nsid, uuid, f)
    {
      GatewayMeans(gateway, r, nsid, uuid, f);
      ResultMeans(gateway, r, nsid, uuid, f);
      AnswerMeans(r, nsid);
      var size := if r.requiredBytes == 0 then DEFAULT_BYTES else r.requiredBytes;
      var nqn := SubsystemNqn(r);
      sent := sent + [AddRequest(Get(r.parameters, "RbdPoolName"), r.name, nqn, 4096,
                                 true, size % 0x1_0000_0000_0000_0000, false, false)];
      var accepted := !f.Lost? && CanAdd(gateway, nqn, nsid, Ns(r.name, uuid));
      if accepted {
        gateway := Add(gateway, nqn, nsid, Ns(r.name, uuid));
      }
      if !accepted || !f.NoFault? {
        return Err(Internal);
      }
      var id := EncodeVolumeID(VolumeIdentifier(nsid, nqn, r.name));
      var context := AddParameters(InitialContext(r), r.parameters);
      return Ok(Volume(id, size, context));
    }

    method ControllerPublishVolume(context: map<string, Text>, f: Fault)
      returns (result: Result<map<string, Text>, Code>)
      ensures f.NoFault? ==>
                exists listing :: IsListing(listing, gateway, Get(context, "nqn")) && result == Publish(Some(listing), context)
      ensures !f.NoFault? ==> result == Err(ListFailed)
      ensures result.Ok? ==>
                && HandsOver(context, result.value)
                && exists n :: At(gateway, Get(context, "nqn"), n) == Some(Ns(Get(context, "image"), result.value["uuid"]))
      ensures f.NoFault? && GatewayOk(gateway) ==>
                (result.Err? <==> forall n :: At(gateway, Get(context, "nqn"), n).Some? ==>
                                    At(gateway, Get(context, "nqn"), n).value.image != Get(context, "image"))
    {
      var namespaces := ListNamespaces(Get(context, "nqn"));
      if !f.NoFault? {
        return Err(ListFailed);
      }
      var uuid := FindUuid(namespaces, Get(context, "image"));
      ghost var answer := Publish(Some(namespaces), context);
      assert GatewayOk(gateway) ==>
        (uuid == [] <==> forall n :: At(gateway, Get(context, "nqn"), n).Some? ==>
                           At(gateway, Get(context, "nqn"), n).value.image != Get(context, "image")) by {
        if GatewayOk(gateway) {
          NotListed(gateway, namespaces, Get(context, "nqn"), Get(context, "image"));
        }
      }
      if uuid == [] {
        return Err(UuidNotFound);
      }
      return Ok(PublishContext(context, uuid));
    }

    method DeleteVolume(id: string, f: Fault) returns (result: Result<(), Code>)
      modifies this
      ensures Step(gateway, result) == Delete(old(gateway), id, f)
      ensures result == Err(InvalidArgument) <==> DecodeVolumeID(id).None?
      ensures result.Err? && result.error.InvalidArgument? ==> gateway == old(gateway)
      ensures var x := DecodeVolumeID(id);
              x.Some? ==>
                && (result.Ok? <==> f.NoFault? && At(old(gateway), x.value.nqn, x.value.nsid).Some?)
                && (result.Err? ==> result.error == Internal)
                && forall q, n :: At(gateway, q, n) ==
                     if q == x.value.nqn && n == x.value.nsid && !f.Lost? then None else At(old(gateway), q, n)
    {
      NoEmptyID();
      if id == "" {
        return Err(InvalidArgument);
      }
      var x := DecodeVolumeID(id);
      if x.None? {
        return Err(InvalidArgument);
      }
      if f.Lost? || At(gateway, x.value.nqn, x.value.nsid).None? {
        return Err(Internal);
      }
      gateway := Without(gateway, x.value.nqn, x.value.nsid);
      return if f.NoFault? then Ok(()) else Err(Internal);
    }
  }
}
