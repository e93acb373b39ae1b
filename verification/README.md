# nvmeof-csi in Dafny

A model, with proofs, of the stateful parts of the NVMe-oF CSI driver: what it does to an SPDK target, to
the gateway that owns the namespaces, and to the mount table and NVMe connections of a node. The outside world is explicit state
with small steps. Every remote or system call may succeed, be lost, or take effect and still be reported as failed. The
driver's functions are the code that takes those steps, one at a time, with anything else happening in between.

`dafny verify dfyconfig.toml` checks everything.

## How it is built

Two protocols are state machines: `PublishProtocol` (publish and unpublish of a logical volume on an SPDK target) and
`NodeProtocol` (the four node RPCs). Each has one `Step` function. The same step function is used in three ways:

- the classes `PublishProtocol.NodeNvmf` and `NodeServer.Server` follow the driver's methods line by line and are proved
  to leave the world where a run of steps leaves it;
- closed forms of whole calls for every state and fault pattern (`PublishCalls`, `NodeCalls`), and what follows for callers
  (also `NodeRetries`, `NodeLifecycle`), are proved from the steps;
- `PublishRuns`, `PublishHistory`, `NodeRuns` and `NodeIdentity` interleave the steps of any number of requests and prove
  what holds in every reachable state.

`Initiator` models the links under /dev/disk/by-id, with aliases and partitions, and the glob on them; a stage finds its
device by looking at them, one look per step. `WholeSystem` puts the controller's requests, one gateway and the node into
one run, and `EndToEnd` and `Delivery` prove what follows for the workload.

The other modules are `SpdkTarget` (the target's own behaviour), `Paths` (the part of `path/filepath` that is used),
`KeyedLock` (the per-volume lock as a concurrent step system), `Base64`, `Utf8`, `JsonText` and `VolumeIdentity` (the
volume ID codec, written out in both directions), `Standards` (that codec against RFC 4648, RFC 3629 and RFC 8259), `Controller` (the controller service over the gateway), `DeviceName` and
`Discovery` (the sysfs search), `RpcIds` and `Sizes`.

Calls for one volume never overlap, because handlers take the lock of `pkg/util/idlocker.go`: `NodeLocking` proves that
threads with locks refine the runs of `NodeRuns`, which admit one request per volume at a time, and `ControllerLocking`
does the same for the controller.

## Main results

- `EndToEnd.TargetsShowOwnNamespace`: over one run of the whole system in CSI lifecycle order, under any faults and
  interleavings, whatever is mounted on a volume's target path is the device of the namespace that the volume's own create
  added; `EndToEnd.NoSharedDevice`: never another volume's. They rest on the path lemmas, the controller's look-up, the
  node's invariant and `Initiator.FoundIsOwn`. `Delivery.VolumeReachesTarget` shows that such runs exist for every volume.
- `EndToEnd.TargetsWork`: for exactly how long that device works.
- `PublishRuns.NonInterference`: what other volumes can and cannot do to a volume. `PublishHistory.FaultsTell`: when a
  volume is left without its namespace or without its listener, exactly as told by the faults its calls met.
- `PublishCalls.FailedPublishRollsBack` and `PublishCalls.SuccessMeansPublished`: what an error and a nil return mean,
  as equivalences.
- `NodeRuns.StagingMountsNeverStack`, `NodeRuns.FailedStages`, `NodeRetries.RetriesConverge`, `NodeLifecycle.WholeLife`.
- `VolumeIdentity.VolumeIDRoundTrip`, `Controller.PublishFindsOwnNamespace`, `Controller.DeleteRemovesOwnNamespace`.
- `KeyedLock.MutualExclusion` and `KeyedLock.NoDeadlock`; `Discovery.CachedAgrees`; `RpcIds.OwnResponseOnly`;
  `Sizes.SizesCompose`.

## Where an expected property fails

Each of these is kept as the code has it, with the exact condition under which the property does hold.

- A listener without a namespace can be left not only by an unpublish but also by the roll-back of a publish whose
  add_listener call was executed and reported as failed (`PublishCalls.PublishOrphans`).
- Publishing an orphan reports success although no namespace is attached (`PublishCalls.SuccessMeansPublished`).
- A subsystem left without its listener can be neither published nor removed by the driver any more
  (`PublishRuns.StuckForever`, reached in `PublishRuns.StuckIsReachable`); `PublishCalls.PublishSticks` says exactly when a
  call leads there, `PublishCalls.RetrySucceeds` exactly when a retry works.
- Two volumes are independent except that a create-transport call of one is skipped when another has already made it
  (`PublishRuns.NonInterference`, with a failing run in `PublishRuns.TransportCanDiffer`).
- A failed stage disconnects the whole NQN, so it cuts off every other volume of that subsystem on the node
  (`NodeLifecycle.OneFailureKillsAnother`); `NodeIdentity.LiveUntilCutOff` is the exact condition.
- A failed stage leaves a mount behind exactly when the mount call was executed although it was reported as failed (`NodeRuns.FailedStages`).
- A delete goes by NSID and NQN only, so a retried delete can remove a namespace that has since been given the same NSID
  (`Controller.RetriedDeleteTakesReusedNsid`); `Controller.DeleteTakesOwnExactly` is the exact condition.
- Storage class parameters named "nqn" or "image" with other values divert a volume (`Controller.PublishFindsOwnNamespace`).
- Under the staging directory "/" (or any directory that is not clean) stage and publish use different paths
  (`Paths.JoinIsConcatenation`).
- A uuid file that cannot be read when it is first listed is never read again (`Discovery.LateFileIsMissed`);
  `Discovery.CachedAgrees` is the exact condition.
- Request ids are safe within a window of 2^32 consecutive calls, not merely with few calls waiting
  (`RpcIds.TwoWaitingCallsCollide`); `RpcIds.IdsRepeat` is the exact condition.
- Above 2^63 - 2^20 bytes, rounding up to MiB overflows and the size sent is negative (`Sizes.RoundUp`).

The code's log message speaks of a default size of 1 GiB; the value is 200 MiB
(pkg/driver/controllerserver.go:107-111), and the model uses the value.

## Model

| member | source | states |
|---|---|---|
| `SpdkTarget.VolumeNqnInjective` | pkg/util/nvmf.go:264-266 | distinct volumes have distinct NQNs, hence distinct subsystems |
| `SpdkTarget.FindNsid` | pkg/util/nvmf.go:317-325 | no NSID exactly when no namespace of the list is backed by the device; an NSID found is in use |
| `SpdkTarget.SearchListeners` | pkg/util/nvmf.go:220-228 | the loop answers true exactly when a listener agrees in all four address fields |
| `SpdkTarget.SearchNamespaces` | pkg/util/nvmf.go:303-327 | however the target orders its answer, the nested loops give what a direct look-up of the subsystem gives |
| `PublishProtocol.Step` | pkg/util/nvmf.go:155-403 | every step gets strictly closer to the end of its call; the flag, once set, stays; transports only grow; a finished call does nothing |
| `PublishProtocol.RunAlone` | pkg/util/nvmf.go:155-258 | every call ends, under every fault pattern |
| `PublishProtocol.StepFrame` | pkg/util/jsonrpc.go:43-64 | a step for one volume leaves every other subsystem exactly as it is |
| `PublishProtocol.RemoteTarget.GetSubsystems` | pkg/util/nvmf.go:303-316 | each subsystem is listed, and nothing else, in an order the caller cannot rely on |
| `PublishProtocol.NodeNvmf.constructor` | pkg/util/nvmf.go:37-44 | a new node object has not created its transport |
| `PublishProtocol.NodeNvmf.CreateTransport` | pkg/util/nvmf.go:379-403 | no call when the flag is set; "already exists" counts as success; the flag is set exactly on success |
| `PublishProtocol.NodeNvmf.IsVolumePublished` | pkg/util/nvmf.go:198-229 | tells whether the subsystem has the node's listener; the namespace plays no part |
| `PublishProtocol.NodeNvmf.SubsystemRemoveNs` | pkg/util/nvmf.go:353-367 | the code takes the list and remove steps of the protocol; every error is swallowed |
| `PublishProtocol.NodeNvmf.PublishVolume` | pkg/util/nvmf.go:155-196 | final target, flag and outcome are those of the protocol run, for every fault pattern |
| `PublishProtocol.NodeNvmf.PublishSubsystem` | pkg/util/nvmf.go:175-186 | the part from createSubsystem on, with the roll-back after a failed subsystemAddNs |
| `PublishProtocol.NodeNvmf.PublishListener` | pkg/util/nvmf.go:187-196 | the part from subsystemAddListener on, with its two-call roll-back |
| `PublishProtocol.NodeNvmf.UnpublishVolume` | pkg/util/nvmf.go:231-258 | final target, flag and outcome are those of the protocol run, for every fault pattern |
| `PublishCalls.RemovalEffect` | pkg/util/nvmf.go:353-377 | the closed form of tearing a subsystem down, for all faults on the three calls |
| `PublishCalls.FromListen` | pkg/util/nvmf.go:187-196 | the closed form of add_listener and its roll-back |
| `PublishCalls.FromAttach` | pkg/util/nvmf.go:180-196 | the closed form from add_ns on |
| `PublishCalls.FromSubsystem` | pkg/util/nvmf.go:175-196 | the closed form from create_subsystem on |
| `PublishCalls.TransportEffect` | pkg/util/nvmf.go:379-403 | the closed form from createTransport on: the transport may be new, nothing else before the subsystem |
| `PublishCalls.PublishEffect` | pkg/util/nvmf.go:155-196 | the closed form of a whole publish, for every target state and fault pattern: subsystems, success, panic |
| `PublishCalls.UnpublishEffect` | pkg/util/nvmf.go:231-258 | the closed form of a whole unpublish, for every target state and fault pattern |
| `PublishCalls.PublishAnswers` | pkg/util/nvmf.go:155-196 | the answer of a publish to the letter (which error, success, panic), the transports and the flag, for every target and fault pattern |
| `PublishCalls.UnpublishAnswers` | pkg/util/nvmf.go:231-258 | the answer of an unpublish to the letter, for every target and fault pattern |
| `PublishCalls.DeletedMeans` | pkg/util/nvmf.go:155-162 | publish and unpublish answer "volume deleted" if and only if the logical volume is missing and the target says so |
| `PublishCalls.FailedPublishRollsBack` | pkg/util/nvmf.go:175-196 | a failed publish changes the subsystems if and only if create_subsystem took effect but was reported as failed, or the roll-back delete never reached the target |
| `PublishCalls.SuccessMeansPublished` | pkg/util/nvmf.go:155-196 | success means subsystem and listener are there, and the namespace too if and only if the volume was not an orphan before |
| `PublishCalls.PublishOrphans` | pkg/util/nvmf.go:187-196 | the exact fault pattern under which a publish alone leaves a listener without a namespace |
| `PublishCalls.UnpublishOrphans` | pkg/util/nvmf.go:231-258 | the exact fault pattern under which an unpublish leaves a listener without a namespace |
| `PublishCalls.PublishSticks` | pkg/util/nvmf.go:175-196 | the exact fault pattern under which a publish leaves the subsystem without its listener |
| `PublishCalls.UnpublishNeverSticks` | pkg/util/nvmf.go:231-258 | an unpublish neither makes nor frees a volume whose subsystem lacks the listener |
| `PublishCalls.RetrySucceeds` | pkg/util/nvmf.go:155-196 | without faults, publishing an existing volume succeeds if and only if it is not stuck |
| `PublishCalls.PublishThenUnpublish` | pkg/util/nvmf.go:155-258 | without faults, unpublish undoes publish on every subsystem; a second publish and a second unpublish are no-ops that succeed |
| `PublishCalls.PublishedAlready` | pkg/util/nvmf.go:163-169 | publishing a published volume returns success with target and flag untouched |
| `PublishCalls.UnpublishedAlready` | pkg/util/nvmf.go:239-245 | unpublishing an unpublished volume returns success with target and flag untouched |
| `PublishRuns.RunKeepsInv` | pkg/util/nvmf.go:155-258 | over every interleaving and fault pattern: tidy subsystems, and the flag set only when the transport exists |
| `PublishRuns.ReachableIsTidy` | pkg/util/nvmf.go:264-301 | from a clean start, every subsystem of the driver always has at most one namespace, backed by its own volume, and at most one listener, the node's own |
| `PublishRuns.Simulation` | pkg/util/jsonrpc.go:43-64 | a volume's view of two worlds stays the same after every prefix if and only if no failing create-transport call is made in one and skipped in the other |
| `PublishRuns.NonInterference` | pkg/util/jsonrpc.go:43-64 | whatever other volumes do in between, a volume finds its subsystem and its call where its own steps alone would have put them, if and only if the shared transport never makes the difference |
| `PublishRuns.TransportWithoutFaults` | pkg/util/nvmf.go:379-403 | with no fault on a volume's own create-transport calls, whatever its other calls meet, the shared transport never makes a difference |
| `PublishRuns.TransportCanDiffer` | pkg/util/nvmf.go:379-403 | from every clean start with two volumes there is a run in which the other volume sets the flag, the lost create-transport call is never made, and the view differs from the volume's own steps alone |
| `PublishRuns.ScriptIsCall` | pkg/util/nvmf.go:155-258 | a call whose steps are taken one by one in the world ends where the driver's method ends |
| `PublishHistory.FaultsTell` | pkg/util/nvmf.go:155-258 | over every run from a clean start, an idle volume has a listener and no namespace, or a subsystem and no listener, if and only if the faults its calls met say so; the target is not consulted |
| `PublishHistory.RunStaysTruthful` | pkg/util/nvmf.go:155-258 | at every point of every run and of every call, what the faults tell about a volume agrees with its subsystem |
| `PublishRuns.StuckForever` | pkg/util/nvmf.go:163-186 | a subsystem left without its listener is never published and never removed by any later sequence of calls, under any faults |
| `PublishRuns.StuckIsReachable` | pkg/util/nvmf.go:170-178 | from every clean start one publish, whose create_subsystem is executed but reported as failed, leads there |
| `NodeProtocol.Step` | pkg/driver/nodeserver.go:65-316 | every step gets strictly closer to the end of its request, which it never changes; a finished request does nothing; discovery is one look at the links per step |
| `NodeProtocol.StepStack` | pkg/driver/nodeserver.go:224-316 | a step leaves a path's mounts alone, drops the top one, or puts on top what the bind mount's source shows |
| `NodeProtocol.RunAlone` | pkg/driver/nodeserver.go:65-204 | every node request ends, under every fault pattern |
| `NodeProtocol.StepMountFrame` | pkg/driver/nodeserver.go:224-316 | a step changes the mounts of its own request's path and of no other |
| `NodeServer.Server.IsStaged` | pkg/driver/nodeserver.go:242-252 | a missing path is not staged; any other error is passed on; otherwise staged means mounted |
| `NodeServer.Server.CreateMountPoint` | pkg/driver/nodeserver.go:255-281 | error, "already mounted" and "ready to mount" each leave the host where the protocol does; a publish goes on to mount in either case |
| `NodeServer.Server.CreateDirs` | pkg/driver/nodeserver.go:260-264 | the parent directories and all above them are made, or the error path is taken |
| `NodeServer.Server.CreateFile` | pkg/driver/nodeserver.go:267-274 | the file is made unless something is already there |
| `NodeServer.Server.Mount` | pkg/driver/nodeserver.go:233-238 | the bind mount takes effect or not, is reported or not, as the world decides |
| `NodeServer.Server.NodeStageVolume` | pkg/driver/nodeserver.go:65-118 | final host, outcome and history are those of the protocol run and of the closed form; the commands run are connect-all exactly if it gets that far and disconnect exactly if the clean-up runs |
| `NodeServer.CommandFields` | pkg/util/initiator.go:70-73 | which option of the command lines carries which field of the publish context |
| `NodeServer.Server.ConnectDevice` | pkg/util/initiator.go:69-91 | connect-all may connect further subsystems; its own error is ignored; what counts is the link that is found |
| `NodeServer.Server.WaitForDeviceReady` | pkg/util/initiator.go:85-121 | the polling loop takes the first name the glob yields at the first of 21 looks that yields one, as the protocol does |
| `NodeServer.Server.StageDevice` | pkg/driver/nodeserver.go:103-117 | stageVolume and the deferred clean-up |
| `NodeServer.Server.DisconnectAll` | pkg/util/initiator.go:93-104 | the whole NQN is disconnected, and the request fails whatever Disconnect says |
| `NodeServer.Server.NodePublishVolume` | pkg/driver/nodeserver.go:166-191 | InvalidArgument if and only if the request is not for a block volume, and then nothing is touched; otherwise success if and only if the mount point was made, the source showed something and the bind mount was answered, and then that is on top of the target |
| `NodeServer.Server.NodeUnstageVolume` | pkg/driver/nodeserver.go:120-164 | final host and outcome are those of the protocol run and of the closed form; success means unmounted, under every fault pattern; no command is run |
| `NodeServer.Server.NodeUnpublishVolume` | pkg/driver/nodeserver.go:193-204 | final host and outcome are those of the protocol run and of the closed form; success means unmounted and gone, under every fault pattern |
| `NodeServer.Server.DeleteMountPoint` | pkg/driver/nodeserver.go:284-316 | unmount, remove the file, remove an empty parent, with each error path |
| `NodeServer.Server.RemoveFile` | pkg/driver/nodeserver.go:301-303 | a vanished file is no error, a busy one is |
| `NodeServer.Server.RemoveEmptyDir` | pkg/driver/nodeserver.go:306-313 | the parent goes if it is empty; errors are ignored |
| `NodeCalls.MadeMeans` | pkg/driver/nodeserver.go:255-281 | createMountPoint leaves mounts alone, adds at most the file and the directories above it, and succeeds if and only if every call it needs is answered; then the path exists |
| `NodeCalls.PublishCall` | pkg/driver/nodeserver.go:166-191 | the closed form of a whole publish, for every host and fault pattern |
| `NodeCalls.PublishMeans` | pkg/driver/nodeserver.go:166-191 | what each answer of a publish means: refused exactly for non-block requests; success exactly if every step was answered well; what is mounted then; no other path changes |
| `NodeCalls.DropCall` | pkg/driver/nodeserver.go:284-316 | the closed form of deleteMountPoint, for every host and fault pattern |
| `NodeCalls.DropMeans` | pkg/driver/nodeserver.go:284-316 | success means unmounted and gone, under every fault pattern, and is answered if and only if each call needed was answered and at most one mount was there |
| `NodeCalls.DropRemoves` | pkg/driver/nodeserver.go:300-313 | exactly which files and directories success takes away: the path, and its directory if that was all there was in it |
| `NodeCalls.UnstageCall` | pkg/driver/nodeserver.go:120-164 | the closed form of a whole unstage, for every host and fault pattern |
| `NodeCalls.UnstageMeans` | pkg/driver/nodeserver.go:120-141 | success means unmounted; a failed check or unmount is an error; nothing is disconnected |
| `NodeCalls.UnpublishCall` | pkg/driver/nodeserver.go:193-204 | the closed form of a whole unpublish, for every host and fault pattern |
| `NodeCalls.SearchFinds` | pkg/util/initiator.go:108-121 | a device that shows up at any of the looks, all answered so far, is found under its own name, and nothing else ever is |
| `NodeCalls.StageCall` | pkg/driver/nodeserver.go:65-118 | the closed form of a whole stage, for every host and fault pattern, with 21 looks |
| `NodeCalls.StageRefuses` | pkg/util/initiator.go:42-58 | a failed check, a staged path and a context without one of the five fields: answer, and nothing touched |
| `NodeCalls.StageMeans` | pkg/driver/nodeserver.go:65-118 | a stage of a path that is not mounted succeeds if and only if its device shows up at one of 21 looks, the mount point can be made, and the bind mount is answered; then that device is what is mounted |
| `NodeRuns.StagingMountsNeverStack` | pkg/driver/nodeserver.go:65-141 | in every interleaving, with target paths off the staging paths, no staging path ever carries two mounts, and every mount point exists |
| `NodeRuns.StageMountsOnlyByBind` | pkg/driver/nodeserver.go:224-239 | a stage changes the mount table in the step of its bind mount and in no other |
| `NodeRuns.FailedStages` | pkg/driver/nodeserver.go:65-118 | in every interleaving, between the arrival of a stage and its failure: Disconnect was run if and only if Connect had found a link, and the mounts at its path are what they were if and only if the bind mount was not executed and misreported |
| `NodeRuns.ScriptIsCall` | pkg/driver/nodeserver.go:65-204 | a request whose steps are taken one by one in the world ends where the driver's method ends |
| `NodeLocking.RunRefines` | pkg/driver/nodeserver.go:73-195 | every run of threads that take the volume's lock, work while they hold it and release it when done, is a run in which each volume's requests are served one at a time |
| `NodeLocking.ThreadsRefineRuns` | pkg/util/idlocker.go:34-39 | from an idle service, the host after such a run of threads is the host after that run of requests |
| `NodeRetries.DropOnce` | pkg/driver/nodeserver.go:284-316 | without faults: with two or more mounts the call fails and lowers the depth by one; otherwise it succeeds and the path is gone |
| `NodeRetries.RetriesConverge` | pkg/driver/nodeserver.go:193-204 | with n stacked mounts, calls 1 to n-1 fail and each lowers the depth by one, call max(n,1) succeeds, and nothing else changes save an emptied parent directory |
| `NodeLifecycle.DeviceIsOwn` | pkg/util/initiator.go:85-90 | a device that shows up under the context's link has the context's UUID and is live |
| `NodeLifecycle.ArrivalShowsUp` | pkg/util/initiator.go:85-90 | a namespace that arrives with any aliases and partitions, and is not there yet, shows up as its own device |
| `NodeLifecycle.StageEffect` | pkg/driver/nodeserver.go:65-118 | a fault-free stage on a free path connects the NQN and mounts exactly the device behind the link of the context's UUID |
| `NodeLifecycle.StageAgain` | pkg/driver/nodeserver.go:81-89 | staging a staged volume succeeds and changes nothing |
| `NodeLifecycle.PublishEffect` | pkg/driver/nodeserver.go:166-191 | a fault-free publish mounts on the target what the staging path shows |
| `NodeLifecycle.UnstageEffect` | pkg/driver/nodeserver.go:120-164 | a fault-free unstage unmounts and removes the path, and touches nothing else |
| `NodeLifecycle.UnstageOfPlainFile` | pkg/driver/nodeserver.go:132-135 | a plain file left at the staging path stays there, and success is reported |
| `NodeLifecycle.WholeLife` | pkg/driver/nodeserver.go:65-204 | stage, publish, unpublish, unstage all succeed; both paths show the device with the context's UUID in between; mounts and files end as they began; the connection remains |
| `NodeLifecycle.FailedStageCutsOff` | pkg/driver/nodeserver.go:103-107 | from every host, a stage that fails at its bind mount leaves all mounts in place and kills every live device of its NQN |
| `NodeLifecycle.OneFailureKillsAnother` | pkg/driver/nodeserver.go:103-107 | one volume is staged, published and live; the stage of another volume of the subsystem fails; the first one's target keeps its mount, which is dead |
| `NodeIdentity.FoundLink` | pkg/util/initiator.go:85-90 | what a stage takes from its looks at the links is the link of its own volume's UUID |
| `NodeIdentity.BehindOwnLink` | pkg/util/initiator.go:85-90 | what that link leads to is the live device with that UUID and NQN |
| `NodeIdentity.TargetsShowTheirVolume` | pkg/driver/nodeserver.go:91-190 | in every run in lifecycle order, under any faults, every mount on a target is the device with the UUID and NQN of its own volume's publish context, as found by the glob |
| `NodeIdentity.LiveUntilCutOff` | pkg/util/initiator.go:93-104 | a device that works now works at the end of a run if and only if no failed stage, of whichever volume, disconnects its NQN in between |
| `Base64.RoundTrip` | pkg/driver/controllerserver.go:60-65 | decoding undoes encoding for every byte string |
| `Standards.SymbolsAreStandard` | pkg/driver/controllerserver.go:60 | the alphabet is that of Table 1 of RFC 4648 |
| `Standards.EncodesAsRfc4648` | pkg/driver/controllerserver.go:60 | every group of three bytes, as a number of 24 bits, is written as its four base-64 digits in the standard alphabet, with "=" exactly for missing bytes |
| `Standards.DecodeAccepts` | pkg/driver/controllerserver.go:65-68 | decoding succeeds if and only if the text without line breaks consists of groups of four of the alphabet, the last padded properly |
| `Base64.SlashInEncoding` | pkg/driver/controllerserver.go:60 | for ASCII input the output contains a slash if and only if a "?" or DEL ends a group of three bytes |
| `Utf8.SanitizeKeepsExactlyValid` | pkg/driver/controllerserver.go:56 | replacing stray bytes by U+FFFD changes a string if and only if it is not UTF-8 |
| `Standards.RunesAreUtf8` | pkg/driver/controllerserver.go:56 | what is taken for a code point is the shortest UTF-8 form of a Unicode scalar value (section 3 of RFC 3629) |
| `Standards.Utf8IsRune` | pkg/driver/controllerserver.go:56 | and every such form is taken for one, whatever follows |
| `Standards.EncodeRuneIsUtf8` | pkg/driver/controllerserver.go:71 | the UTF-8 form of a scalar value is the standard one |
| `Standards.SanitizedAsUtf8` | pkg/driver/controllerserver.go:56 | sanitising keeps code points and puts U+FFFD for every stray byte |
| `Standards.AsciiQuoted` | pkg/driver/controllerserver.go:56 | how each ASCII character is written inside a string, character by character (section 7 of RFC 8259, with &, < and > escaped) |
| `Standards.CodePointQuoted` | pkg/driver/controllerserver.go:56 | other code points are written as themselves, U+2028 and U+2029 as escapes |
| `Standards.StrayQuoted` | pkg/driver/controllerserver.go:56 | a stray byte is written as the escape of U+FFFD |
| `Standards.SimpleQuoted` | pkg/driver/controllerserver.go:56 | printable ASCII without the escaped characters is written as it is |
| `Standards.ShortEscapesRead` | pkg/driver/controllerserver.go:71 | what the eight short escapes are read as |
| `Standards.HexEscapesRead` | pkg/driver/controllerserver.go:71 | what four hexadecimal digits are read as |
| `Standards.SurrogatesRead` | pkg/driver/controllerserver.go:71 | two escapes of surrogates are read as one code point |
| `Standards.HalfPairRead` | pkg/driver/controllerserver.go:71 | and half a pair as U+FFFD |
| `Standards.OthersRead` | pkg/driver/controllerserver.go:71 | everything else is read as itself, stray bytes as U+FFFD, and the quote ends the string |
| `Standards.UnquoteRefuses` | pkg/driver/controllerserver.go:71 | control characters, unknown escapes and unterminated strings are refused |
| `JsonText.StringRoundTrip` | pkg/driver/controllerserver.go:56-71 | reading back an escaped string yields it with stray bytes replaced, and leaves the rest of the input (section 7 of RFC 8259) |
| `VolumeIdentity.NumberRoundTrip` | pkg/driver/controllerserver.go:49 | decimal printing and reading of every uint32 is exact, whatever follows that is no digit |
| `Standards.DigitsAreDecimal` | pkg/driver/controllerserver.go:49 | numbers are written in decimal, last digit last |
| `Standards.NumbersRead` | pkg/driver/controllerserver.go:49 | a number is read if and only if it is decimal without leading zeros, fits 32 bits and ends there |
| `Standards.MarshalIsJson` | pkg/driver/controllerserver.go:48-56 | the text of the object, key by key, as literals |
| `Standards.UnmarshalAccepts` | pkg/driver/controllerserver.go:71 | the reader accepts exactly the whole object in the layout that is written |
| `VolumeIdentity.ObjectRoundTrip` | pkg/driver/controllerserver.go:48-71 | unmarshalling undoes marshalling of the three-field object, up to U+FFFD for stray bytes |
| `VolumeIdentity.VolumeIDRoundTrip` | pkg/driver/controllerserver.go:55-77 | decodeVolumeID undoes encodeVolumeID, exactly if and only if NQN and name are UTF-8 |
| `VolumeIdentity.VolumeIDInjective` | pkg/driver/controllerserver.go:55-61 | different identifiers get different volume IDs |
| `Standards.VolumeIDIsStandard` | pkg/driver/controllerserver.go:55-61 | the volume ID is the standard base64 of that JSON text |
| `VolumeIdentity.VolumeIDIsOneComponent` | pkg/driver/controllerserver.go:55-61 | for printable ASCII without "?" the ID has no slash and is neither empty nor a dot name |
| `VolumeIdentity.StagingPathsAgree` | pkg/driver/nodeserver.go:77-168 | the concatenation of stage and unstage equals the Join of publish if and only if the staging directory is clean and neither "/" nor "." |
| `Paths.JoinIsConcatenation` | pkg/driver/nodeserver.go:168 | for any one-component name, Join is concatenation if and only if the directory is clean and neither "/" nor "." |
| `Paths.CleanLaws` | pkg/driver/nodeserver.go:168 | a trailing slash and "." mean nothing, a component and ".." cancel, ".." above the root is the root |
| `Paths.KeptIsNormal` | pkg/driver/nodeserver.go:168 | a cleaned path has no empty or "." component, and ".." only in front of a relative one |
| `Paths.CleanTwice` | pkg/driver/nodeserver.go:168 | cleaning is idempotent and keeps what the path says |
| `Paths.DirIsParent` | pkg/driver/nodeserver.go:260 | the directory of a file is the cleaned directory it was put in |
| `Paths.AncestryMeans` | pkg/driver/nodeserver.go:262 | what MkdirAll makes: the directory and every directory above it on the path |
| `Paths.RootDiffers` | pkg/driver/nodeserver.go:77 | under "/" the two spellings differ |
| `Paths.OneOwner` | pkg/driver/nodeserver.go:77 | a path ends in one volume ID only |
| `KeyedLock.RunKeepsInv` | pkg/util/idlocker.go:34-39 | over every interleaving: waiting and holding threads refer to the mutex of their key, distinct keys have distinct mutexes, owners hold |
| `KeyedLock.OneMutexForever` | pkg/util/idlocker.go:35-36 | once a key has a mutex it has that mutex in every later state |
| `KeyedLock.MutualExclusion` | pkg/util/idlocker.go:34-39 | no two threads ever hold the same key |
| `KeyedLock.WaitsForOwnKey` | pkg/util/idlocker.go:37 | a blocked thread waits for another thread that holds the same key |
| `KeyedLock.Drain` | pkg/util/idlocker.go:34-39 | from every state of the invariant, the threads can finish without new calls |
| `KeyedLock.NoDeadlock` | pkg/util/idlocker.go:34-39 | from every reachable state there is a continuation, with no new calls, in which every thread gets its lock and releases it |
| `KeyedLock.VolumeLocks.LoadMutex` | pkg/util/idlocker.go:35-36 | LoadOrStore is the atomic load step: the stored mutex wins, a fresh one is used only for a new key |
| `KeyedLock.VolumeLocks.TryAcquire` | pkg/util/idlocker.go:37 | succeeds exactly when the mutex is free, and is the acquire step |
| `KeyedLock.VolumeLocks.Release` | pkg/util/idlocker.go:38 | the returned closure is the unlock step |
| `Controller.AddParameters` | pkg/driver/controllerserver.go:94-96 | in whatever order the map is walked, parameters overwrite the context's keys and the rest stays |
| `Controller.FindUuid` | pkg/driver/controllerserver.go:199-207 | the loop yields the UUID of the first entry with the image, or nothing |
| `Controller.Publish` | pkg/driver/controllerserver.go:187-226 | the answer has exactly the five keys, four of them copied from the volume context, and the UUID of the first listed namespace with the image; an error exactly if there is none or the call failed |
| `Controller.NextRemoves` | pkg/driver/controllerserver.go:236-270 | a request removes a namespace if and only if it is a delete with that NQN and NSID in its ID that reaches the gateway |
| `Controller.NamespaceSurvives` | pkg/driver/controllerserver.go:129-258 | a namespace stays as it is across any requests of which none is a delete executed on its NQN and NSID |
| `Controller.StillThere` | pkg/driver/controllerserver.go:249-258 | and, UUIDs not recurring, only then |
| `Controller.LookUp` | pkg/driver/controllerserver.go:199-207 | however the listing is ordered, the look-up yields a namespace's UUID if and only if NQN and image are its own |
| `Controller.PublishFindsOwnNamespace` | pkg/driver/controllerserver.go:187-226 | across any such requests, publishing returns the UUID its own create added if and only if the parameters do not redefine "nqn" or "image" |
| `Controller.DeleteById` | pkg/driver/controllerserver.go:236-270 | what a delete with an ID of the driver's making does, in every case |
| `Controller.DeleteRemovesOwnNamespace` | pkg/driver/controllerserver.go:236-270 | across any such requests, including lost deletes of the same volume, deleting by ID removes the namespace of the create and nothing else |
| `Controller.DeleteTakesOwnExactly` | pkg/driver/controllerserver.go:236-270 | whatever has happened since the create, a delete by ID takes the volume's own namespace if and only if the call is executed and no delete was executed on that NQN and NSID before |
| `Controller.DeleteIsRemoved` | pkg/driver/controllerserver.go:236-270 | the effect of a delete depends on its ID only through the NQN and NSID it decodes to |
| `Controller.DeleteIgnoresName` | pkg/driver/controllerserver.go:249-258 | two IDs that differ in the volume name only delete the same namespace |
| `Controller.RetriedDeleteTakesReusedNsid` | pkg/driver/controllerserver.go:249-258 | a delete whose answer was lost, retried after the NSID was given to a new volume, succeeds and removes the new volume's namespace |
| `ControllerLocking.SameKey` | pkg/driver/controllerserver.go:242-248 | the name in the ID is the key the create locked if and only if the name is UTF-8 |
| `ControllerLocking.CreateAndDeleteNeverOverlap` | pkg/driver/controllerserver.go:79-248 | in every interleaving of handler threads with lock steps and gateway calls, a create of a volume and a delete by its ID are never inside their critical sections together |
| `ControllerLocking.DeskRefinesRun` | pkg/driver/controllerserver.go:79-270 | to the gateway, such an interleaving is a run of requests one after the other |
| `Controller.Server.ListNamespaces` | pkg/driver/controllerserver.go:193-198 | every namespace of the subsystem is listed and nothing else, in an order of the gateway's choice |
| `Controller.Server.CreateVolume` | pkg/driver/controllerserver.go:79-164 | the request sent, field by field; success if and only if the gateway can add the namespace and answers; that namespace, and nothing else, is added; capacity asked for or 200 MiB; an ID that decodes to the namespace; a context in which parameters win |
| `Controller.Server.ControllerPublishVolume` | pkg/driver/controllerserver.go:187-226 | each key of the answer is the volume context's own, the UUID is that of a namespace of the subsystem with the image, and an answered call fails if and only if there is no such namespace |
| `Controller.Server.DeleteVolume` | pkg/driver/controllerserver.go:236-270 | InvalidArgument if and only if the ID does not decode; success if and only if the namespace was there and the call was answered; that namespace, and no other, is gone exactly when the call was executed |
| `DeviceName.DeviceNameFromPath` | pkg/util/util.go:88-107 | for a path component nvmeXnZ or nvmeXcYnZ, any digits, with no match before it, the extracted name is nvmeXnZ |
| `DeviceName.SysfsDevice` | pkg/util/util.go:113 | on every path of the driver's glob, at any PCI address without an "n", the extracted name is nvmeXnZ |
| `Discovery.PlainFinds` | pkg/util/util.go:112-135 | a rescan of everything finds the first match of the first round that has one |
| `Discovery.CachedFinds` | pkg/util/util.go:138-154 | a rescan that remembers finds the first match of the first round that has one never listed before |
| `Discovery.CachedAgrees` | pkg/util/util.go:112-154 | the two find the same file in the same round if and only if the plain one finds nothing or a file no earlier round listed |
| `Discovery.StableFilesAgree` | pkg/util/util.go:112-154 | with files that read alike whenever listed, remembering changes neither device nor time-out |
| `Discovery.LateFileIsMissed` | pkg/util/util.go:94-135 | a uuid file that cannot be read when first listed is never looked at again: the plain rescan finds it, the cached one times out |
| `Discovery.DetectReadsOnce` | pkg/util/util.go:112-154 | over all rounds together no file is read twice, whatever the file system does |
| `Discovery.TrimSpaceTrims` | pkg/util/util.go:102 | white space goes from both ends, and nothing else does |
| `Discovery.UnicodeSpaces` | pkg/util/util.go:102 | what counts as white space |
| `Discovery.MatchingMeans` | pkg/util/util.go:94-110 | a path leads to the device if and only if its file can be read and holds the model between white space, and the path yields a name |
| `Discovery.PlainReads` | pkg/util/util.go:112-135 | without an ignore set every path up to the hit is read, and all if there is none |
| `Discovery.Sysfs.GetNvmeDeviceName` | pkg/util/util.go:94-110 | one read; answered without error if and only if the file can be read and holds the model between white space, with the name the path yields |
| `Discovery.Sysfs.CheckIfNvmeDeviceExists` | pkg/util/util.go:112-135 | result, reads and the updated ignore set are those of one scan, with or without such a set |
| `Discovery.Sysfs.DetectNvmeDeviceName` | pkg/util/util.go:138-154 | result and reads are those of twenty scans with one growing ignore set |
| `Initiator.DeviceGlobMeans` | pkg/util/initiator.go:85 | the glob accepts exactly the names with the prefix and, somewhere behind it, the UUID |
| `Initiator.OccursAsItself` | pkg/util/initiator.go:85 | a UUID occurs in another UUID with an alias or partition suffix only if it is that UUID |
| `Initiator.GlobFindsOwnUuid` | pkg/util/initiator.go:85 | the glob accepts a link, with whatever suffix, if and only if the link is one of its own namespace |
| `Initiator.FoundIsOwn` | pkg/util/initiator.go:85-90 | with aliases and partitions of any namespaces around, the glob finds nothing exactly when the own link is missing, and otherwise its first name is the own link |
| `Initiator.PlugKeepsOk` | pkg/util/initiator.go:113-118 | links that show up keep the directory in order and leave the links that are there |
| `Initiator.WaitForDeviceReady` | pkg/util/initiator.go:108-121 | the first poll with a match or an error ends the wait and decides the result; time-out exactly when none does |
| `Initiator.WaitForDeviceGone` | pkg/util/initiator.go:124-136 | the first poll without a match or with an error ends the wait; time-out after exactly 21 others |
| `RpcIds.RpcClient.NextId` | pkg/util/jsonrpc.go:308 | the counter takes its successor in 32-bit two's complement, and that is the id |
| `RpcIds.RunKeepsInv` | pkg/util/jsonrpc.go:308-313 | under any interleaving the k-th call's id is k wrapped to 32 bits |
| `RpcIds.IdsRepeat` | pkg/util/jsonrpc.go:308-313 | two calls have the same id if and only if a multiple of 2^32 lies between them |
| `RpcIds.OwnResponseOnly` | pkg/util/jsonrpc.go:363-372 | while waiting calls lie within the latest 2^32, a waiting call accepts a response if and only if it is its own (section 5 of JSON-RPC 2.0) |
| `RpcIds.TwoWaitingCallsCollide` | pkg/util/jsonrpc.go:308-372 | with only two calls waiting, 2^32 apart, one accepts the other's response |
| `Sizes.RoundUp` | pkg/util/util.go:56-59 | up to 2^63 - 2^20 bytes, the size sent is the request rounded up to whole MiB; beyond, it is negative |
| `Sizes.ReportedSize` | pkg/util/jsonrpc.go:169-176 | the reported MiB never exceed the store, and are its whole MiB if and only if the product fits in 63 bits |
| `Sizes.SizesCompose` | pkg/util/jsonrpc.go:155-204 | a request that passes the free-space comparison yields a size that covers it, by less than 1 MiB, and fits the store |
| `Sizes.LvStores` | pkg/util/jsonrpc.go:155-179 | one record per store, in order, with its own name, UUID and both sizes |
| `WholeSystem.RunKeepsOk` | pkg/driver/controllerserver.go:79-270 | over every orderly run: live volumes are where their create put them, UUIDs of volumes differ, publish contexts are the right ones and are never taken back |
| `WholeSystem.AnswerIsOwn` | pkg/driver/controllerserver.go:187-226 | publishing a volume on whose namespace no delete was executed yields the context with its own UUID |
| `WholeSystem.HandedOver` | pkg/driver/controllerserver.go:212-220 | what a node is handed for a volume: the subsystem, address, port and transport of the create's parameters, and the UUID the create was given |
| `EndToEnd.ContextIsOwn` | pkg/driver/controllerserver.go:199-220 | the publish context names the UUID and the subsystem of the volume's own create |
| `EndToEnd.RunFollowsLifecycle` | pkg/driver/nodeserver.go:65-190 | what the node sees of an orderly run is in lifecycle order, and every arriving namespace is at home |
| `EndToEnd.AddressedBelongs` | pkg/driver/nodeserver.go:77-168 | the paths stage, unstage and publish make of one staging directory and volume ID are the same path |
| `EndToEnd.StagingIsDistinct` | pkg/driver/nodeserver.go:77 | two volumes never share a staging path |
| `EndToEnd.TargetsShowOwnNamespace` | pkg/driver/nodeserver.go:65-190 | over one run of gateway, controller and node, whatever is mounted on a volume's target is the device of the namespace that the volume's create added, which is still in the gateway unless a delete was executed on it |
| `EndToEnd.NoSharedDevice` | pkg/driver/nodeserver.go:65-190 | the targets of different volumes never show the same device |
| `Delivery.VolumeReachesTarget` | pkg/driver/nodeserver.go:65-191 | for every create the gateway accepts and every free target path there is an orderly run that leaves exactly the volume's own device on the target |
| `EndToEnd.TargetsWork` | pkg/driver/nodeserver.go:103-107 | a device on a target that works at some point of a run works at the end if and only if no failed stage of any volume disconnected its subsystem in between |
| `EndToEnd.UndisturbedTargetsWork` | pkg/driver/nodeserver.go:103-107 | if none has since the node started, everything on the volume's targets works |

## Left out

- The gRPC and HTTP transports, timeouts, logging, the nvme command line and kernel mounts: they are steps of the world that may fail.
- Error texts: errors are kinds. A lost or misreported call never reads "already exists", "Invalid parameters" or "No such device".
- Bdevs appear and disappear only outside a run: creating, cloning, snapshotting and deleting logical volumes would add only thin cases.
- The answers to `nvmf_get_subsystems` and `list_namespaces` and the results of the sysfs glob come in an arbitrary order; the internals of the target, the gateway and `filepath.Glob` are not modelled beyond their state.
- The generated protobuf code, the csi-common defaults, the identity server, start-up and flag parsing.
- `ValidateNodeStageVolumeRequest`, `ValidateVolumeCapabilities`, `TryLock`, `FromEnv`, `ConvertInterfaceToMap`, the stash files: each is settled by reading one branch.
- `GetVirtioBlkDeviceName` and the branch of `GetNvmeDeviceName` with a bus address.
- NewNvmeofCsiInitiator appears as the predicate `NodeProtocol.Complete`; a nil publish context counts as one without fields.
- Standards.UnmarshalAccepts: the reader accepts the layout the writer produces; Go's decoder also accepts other white space, key order and unknown keys, which the driver never writes.
- VolumeIdentity.VolumeIDIsOneComponent: stated for printable ASCII without "?"; what decides for all ASCII input is in Base64.SlashInEncoding.
- PublishProtocol.Step: the fast path of createTransport takes as many steps as the slow one, with no call made, so that runs can be compared step by step.
- KeyedLock.NoDeadlock: says that a finishing continuation always exists, not that a scheduler takes it.
- Initiator.FoundIsOwn: covers names with at most one dash behind the UUID (such as -part1 or _1-part2), a device's own link being there whenever its aliases and partitions are.
- The kernel removing a device whose namespace is deleted while its connection stays open is not modelled.
- Controller.Server.CreateVolume: the content source, which is copied into the answer, is not modelled.
- NodeServer.CommandFields: lower-casing of the transport is modelled on ASCII.
- Controller.DeleteRemovesOwnNamespace: assumes that no delete on the same NSID and NQN was executed in between; Controller.DeleteTakesOwnExactly shows that this is exactly what is needed.
- WholeSystem.RunKeepsOk: volume IDs do not recur in a run (the names a provisioner makes are unique), names are printable ASCII without "?", and no storage class parameter redefines "nqn" or "image"; deletes are unrestricted.
- EndToEnd.TargetsWork: a device is live while its NQN stays connected; loss of the network below NVMe-oF is not modelled.
- NodeServer.Server.DisconnectAll: the wait for the device to be gone, whose result the caller ignores, is in Initiator.WaitForDeviceGone only.
