/**
 * What one whole PublishVolume or UnpublishVolume call does to the subsystems,
 * in closed form, for every fault pattern.
 */
module PublishCalls {
  import opened Common
  import opened SpdkTarget
  import opened PublishProtocol

  /** The checks before the first change all pass: the call goes on to build the subsystem. */
  predicate GoesOn(a: Address, v: string, t: Target, flag: bool, env: Site -> Input) {
    && v in t.bdevs && !env(BdevSite).fault.Lost?
    && env(ListenersSite).fault.NoFault? && !IsListening(t, VolumeNqn(v), a)
    && (flag || env(TransportSite).fault.NoFault?)
  }

  function NewNs(v: string, env: Site -> Input): Namespace {
    Namespace(env(AttachSite).nsid, v)
  }

  predicate Executed(f: Fault) { !f.Lost? }

  /** What is left under the NQN when the roll-back after a failed add_listener cannot delete it. */
  function LeftAfterListen(a: Address, v: string, env: Site -> Input): Subsystem {
    Subsystem(
      if env(ListSite).fault.NoFault? && Executed(env(DetachSite).fault) then [] else [NewNs(v, env)],
      if env(ListenSite).fault.Applied? then [a] else [])
  }

  /** The subsystems after a publish that goes on, and whether it reports success. */
  function BuildEffect(a: Address, v: string, subs: map<string, Subsystem>, env: Site -> Input)
    : (map<string, Subsystem>, bool)
  {
    var nqn := VolumeNqn(v);
    if nqn in subs || env(SubsystemSite).fault.Lost? then (subs, false)
    else if env(SubsystemSite).fault.Applied? then (subs[nqn := Subsystem([], [])], false)
    else if env(AttachSite).nsid == 0 || !env(AttachSite).fault.NoFault? then
      var left := if env(AttachSite).nsid != 0 && env(AttachSite).fault.Applied? then [NewNs(v, env)] else [];
      (if Executed(env(DropSite).fault) then subs else subs[nqn := Subsystem(left, [])], false)
    else if env(ListenSite).fault.NoFault? then (subs[nqn := Subsystem([NewNs(v, env)], [a])], true)
    else (if Executed(env(DropSite).fault) then subs else subs[nqn := LeftAfterListen(a, v, env)], false)
  }

  lemma Overwrite(m: map<string, Subsystem>, before: map<string, Subsystem>, nqn: string, x: Subsystem)
    requires m - {nqn} == before
    ensures m[nqn := x] == before[nqn := x]
  {
  }

  /** Tearing down: from ListNs to the end. */
  lemma {:induction false} RemovalEffect(a: Address, v: string, s: State, env: Site -> Input)
    requires s.pc.ListNs? && VolumeNqn(v) in s.target.subsystems
    ensures var r := RunAlone(a, v, s, env);
            var nqn, subs := VolumeNqn(v), s.target.subsystems;
            var found := FindNsid(subs[nqn].namespaces, v);
            && r.transCreated == s.transCreated
            && r.pc == AfterDrop(s.pc.why, if env(DropSite).fault.NoFault? then None else Some(CallFailed))
            && r.target == s.target.(subsystems :=
                 if Executed(env(DropSite).fault) then subs - {nqn}
                 else if found.Some? && env(ListSite).fault.NoFault? && Executed(env(DetachSite).fault)
                 then subs[nqn := subs[nqn].(namespaces := WithoutNsid(subs[nqn].namespaces, found.value))]
                 else subs)
  {
    var nqn, subs := VolumeNqn(v), s.target.subsystems;
    var s1 := Advance(a, v, s, env);
    if s1.pc.DetachNs? {
      var s2 := Advance(a, v, s1, env);
      assert s2.pc == DropSubsystem(s.pc.why);
      assert s2.target.subsystems - {nqn} == subs - {nqn};
      var s3 := Advance(a, v, s2, env);
    } else {
      var s2 := Advance(a, v, s1, env);
    }
  }

  lemma {:induction false} FromListen(a: Address, v: string, s: State, env: Site -> Input)
    requires s.pc.Listen? && a.trtype in s.target.transports && VolumeNqn(v) in s.target.subsystems
    requires s.target.subsystems[VolumeNqn(v)] == Subsystem([NewNs(v, env)], [])
    ensures var r := RunAlone(a, v, s, env);
            var nqn, subs := VolumeNqn(v), s.target.subsystems;
            && r.transCreated == s.transCreated
            && r.pc == Done(Publish, if env(ListenSite).fault.NoFault? then Success else Failed(CallFailed))
            && r.target == s.target.(subsystems :=
                 if env(ListenSite).fault.NoFault? then subs[nqn := Subsystem([NewNs(v, env)], [a])]
                 else if Executed(env(DropSite).fault) then subs - {nqn}
                 else subs[nqn := LeftAfterListen(a, v, env)])
  {
    var nqn, subs := VolumeNqn(v), s.target.subsystems;
    var s1 := Advance(a, v, s, env);
    if env(ListenSite).fault.NoFault? {
      assert s1.target.subsystems[nqn] == Subsystem([NewNs(v, env)], [a]);
    } else {
      RemovalEffect(a, v, s1, env);
      var sub1 := s1.target.subsystems[nqn];
      assert sub1.namespaces == [NewNs(v, env)];
      assert FindNsid(sub1.namespaces, v) == Some(NewNs(v, env).nsid);
      assert WithoutNsid(sub1.namespaces, NewNs(v, env).nsid) == [];
      assert sub1.listeners == if env(ListenSite).fault.Applied? then [a] else [];
      assert s1.target.subsystems - {nqn} == subs - {nqn};
      if !Executed(env(DropSite).fault) {
        assert RunAlone(a, v, s1, env).target.subsystems[nqn] == LeftAfterListen(a, v, env);
        assert RunAlone(a, v, s1, env).target.subsystems == subs[nqn := LeftAfterListen(a, v, env)];
      }
    }
  }

  lemma {:induction false} FromAttach(a: Address, v: string, s: State, env: Site -> Input)
    requires s.pc.AttachNs? && a.trtype in s.target.transports && v in s.target.bdevs
    requires VolumeNqn(v) in s.target.subsystems && s.target.subsystems[VolumeNqn(v)] == Subsystem([], [])
    ensures var r := RunAlone(a, v, s, env);
            var nqn, subs := VolumeNqn(v), s.target.subsystems - {VolumeNqn(v)};
            && r.transCreated == s.transCreated && r.pc.op == Publish && !r.pc.outcome.Panicked?
            && (env(SubsystemSite).fault.NoFault? ==>
                  && r.target == s.target.(subsystems := BuildEffect(a, v, subs, env).0)
                  && (r.pc.outcome.Success? <==> BuildEffect(a, v, subs, env).1))
  {
    var nqn, before := VolumeNqn(v), s.target.subsystems - {VolumeNqn(v)};
    var s1 := Advance(a, v, s, env);
    if s1.pc.Listen? {
      assert s1.target.subsystems[nqn] == Subsystem([NewNs(v, env)], []);
      FromListen(a, v, s1, env);
      Overwrite(s1.target.subsystems, before, nqn, Subsystem([NewNs(v, env)], [a]));
      Overwrite(s1.target.subsystems, before, nqn, LeftAfterListen(a, v, env));
    } else {
      var s2 := Advance(a, v, s1, env);
      assert s1.target.subsystems - {nqn} == before;
      var left := if env(AttachSite).nsid != 0 && env(AttachSite).fault.Applied? then [NewNs(v, env)] else [];
      assert s1.target.subsystems[nqn] == Subsystem(left, []);
      assert s1.target.subsystems == before[nqn := Subsystem(left, [])];
    }
  }

  lemma {:induction false} FromSubsystem(a: Address, v: string, s: State, env: Site -> Input)
    requires s.pc.MakeSubsystem? && a.trtype in s.target.transports && v in s.target.bdevs
    ensures var r := RunAlone(a, v, s, env);
            var effect := BuildEffect(a, v, s.target.subsystems, env);
            && r.transCreated == s.transCreated && r.pc.op == Publish && !r.pc.outcome.Panicked?
            && r.target == s.target.(subsystems := effect.0)
            && (r.pc.outcome.Success? <==> effect.1)
  {
    var nqn := VolumeNqn(v);
    var s1 := Advance(a, v, s, env);
    if s1.pc.AttachNs? {
      assert s1.target.subsystems - {nqn} == s.target.subsystems;
      FromAttach(a, v, s1, env);
    }
  }

  /** PublishVolume in closed form, for every state of the target and every fault pattern. */
  lemma {:induction false} PublishEffect(a: Address, v: string, t: Target, flag: bool, env: Site -> Input)
    requires flag ==> a.trtype in t.transports
    ensures var r := Call(a, v, Publish, t, flag, env);
            var effect := BuildEffect(a, v, t.subsystems, env);
            && r.pc.op == Publish && r.target.bdevs == t.bdevs
            && t.transports <= r.target.transports <= t.transports + {a.trtype}
            && r.target.subsystems == (if GoesOn(a, v, t, flag, env) then effect.0 else t.subsystems)
            && (r.pc.outcome.Success? <==>
                  if GoesOn(a, v, t, flag, env) then effect.1
                  else v in t.bdevs && !env(BdevSite).fault.Lost?
                       && env(ListenersSite).fault.NoFault? && IsListening(t, VolumeNqn(v), a))
            && (r.pc.outcome.Panicked? <==>
                  env(BdevSite).fault.Lost? || (env(BdevSite).fault.Applied? && v !in t.bdevs))
  {
    var s1 := Advance(a, v, State(t, flag, QueryBdev(Publish)), env);
    if !s1.pc.Done? {
      var s2 := Advance(a, v, s1, env);
      if !s2.pc.Done? {
        TransportEffect(a, v, s2, env);
      }
    }
  }

  lemma {:induction false} TransportEffect(a: Address, v: string, s: State, env: Site -> Input)
    requires s.pc.LoadFlag? && v in s.target.bdevs
    requires s.transCreated ==> a.trtype in s.target.transports
    ensures var r := RunAlone(a, v, s, env);
            var ok := s.transCreated || env(TransportSite).fault.NoFault?;
            var effect := BuildEffect(a, v, s.target.subsystems, env);
            && r.pc.op == Publish && !r.pc.outcome.Panicked? && r.target.bdevs == s.target.bdevs
            && s.target.transports <= r.target.transports <= s.target.transports + {a.trtype}
            && r.target.subsystems == (if ok then effect.0 else s.target.subsystems)
            && (r.pc.outcome.Success? <==> ok && effect.1)
  {
    var s1 := Advance(a, v, s, env);
    var s2 := Advance(a, v, s1, env);
    if !s2.pc.Done? {
      var s3 := Advance(a, v, s2, env);
      FromSubsystem(a, v, s3, env);
    }
  }

  /** UnpublishVolume in closed form. */
  lemma {:induction false} UnpublishEffect(a: Address, v: string, t: Target, flag: bool, env: Site -> Input)
    ensures var r := Call(a, v, Unpublish, t, flag, env);
            var nqn, subs := VolumeNqn(v), t.subsystems;
            var answered := v in t.bdevs && !env(BdevSite).fault.Lost? && env(ListenersSite).fault.NoFault?;
            && r.pc.op == Unpublish && r.transCreated == flag
            && r.target.bdevs == t.bdevs && r.target.transports == t.transports
            && (!(answered && IsListening(t, nqn, a)) ==>
                  r.target.subsystems == subs && (r.pc.outcome.Success? <==> answered))
            && (answered && IsListening(t, nqn, a) ==>
                  var found := FindNsid(subs[nqn].namespaces, v);
                  && (r.pc.outcome.Success? <==> env(DropSite).fault.NoFault?)
                  && r.target.subsystems ==
                     if Executed(env(DropSite).fault) then subs - {nqn}
                     else if found.Some? && env(ListSite).fault.NoFault? && Executed(env(DetachSite).fault)
                     then subs[nqn := subs[nqn].(namespaces := WithoutNsid(subs[nqn].namespaces, found.value))]
                     else subs)
  {
    var s1 := Advance(a, v, State(t, flag, QueryBdev(Unpublish)), env);
    if !s1.pc.Done? {
      var s2 := Advance(a, v, s1, env);
      if !s2.pc.Done? {
        RemovalEffect(a, v, s2, env);
      }
    }
  }

  // ---------------------------------------------------------------------
  // The answers, to the letter.

  /** What a publish that goes on answers. */
  function BuildOutcome(v: string, subs: map<string, Subsystem>, env: Site -> Input): Outcome {
    if !env(SubsystemSite).fault.NoFault? then Failed(CallFailed)
    else if VolumeNqn(v) in subs then Failed(Rejected)
    else if !env(AttachSite).fault.NoFault? then Failed(CallFailed)
    else if env(AttachSite).nsid == 0 then Failed(Rejected)
    else if env(ListenSite).fault.NoFault? then Success
    else Failed(CallFailed)
  }

  /** The two checks before a call does anything: None if it is to go on. */
  function CheckOutcome(v: string, t: Target, env: Site -> Input): Option<Outcome> {
    if env(BdevSite).fault.Lost? || (env(BdevSite).fault.Applied? && v !in t.bdevs) then Some(Panicked)
    else if v !in t.bdevs then Some(Failed(VolumeDeleted))
    else if !env(ListenersSite).fault.NoFault? then Some(Failed(CallFailed))
    else None
  }

  function PublishOutcome(a: Address, v: string, t: Target, flag: bool, env: Site -> Input): Outcome {
    var check := CheckOutcome(v, t, env);
    if check.Some? then check.value
    else if IsListening(t, VolumeNqn(v), a) then Success
    else if !flag && !env(TransportSite).fault.NoFault? then Failed(CallFailed)
    else BuildOutcome(v, t.subsystems, env)
  }

  function UnpublishOutcome(a: Address, v: string, t: Target, env: Site -> Input): Outcome {
    var check := CheckOutcome(v, t, env);
    if check.Some? then check.value
    else if !IsListening(t, VolumeNqn(v), a) || env(DropSite).fault.NoFault? then Success
    else Failed(CallFailed)
  }

  lemma {:induction false} BuildAnswers(a: Address, v: string, s: State, env: Site -> Input)
    requires s.pc.MakeSubsystem? && a.trtype in s.target.transports && v in s.target.bdevs
    ensures RunAlone(a, v, s, env).pc == Done(Publish, BuildOutcome(v, s.target.subsystems, env))
    ensures RunAlone(a, v, s, env).target.transports == s.target.transports
  {
    var nqn := VolumeNqn(v);
    var s1 := Advance(a, v, s, env);
    if s1.pc.AttachNs? {
      var s2 := Advance(a, v, s1, env);
      if s2.pc.Listen? {
        assert s2.target.subsystems[nqn] == Subsystem([NewNs(v, env)], []);
        FromListen(a, v, s2, env);
      } else {
        var s3 := Advance(a, v, s2, env);
      }
    }
  }

  /** A create-transport call is made. */
  predicate Asks(a: Address, v: string, t: Target, flag: bool, env: Site -> Input) {
    CheckOutcome(v, t, env).None? && !IsListening(t, VolumeNqn(v), a) && !flag
  }

  /** The answer of a publish, the transports and the flag, for every target and fault pattern. */
  lemma {:induction false} PublishAnswers(a: Address, v: string, t: Target, flag: bool, env: Site -> Input)
    requires flag ==> a.trtype in t.transports
    ensures var r := Call(a, v, Publish, t, flag, env);
            && r.pc == Done(Publish, PublishOutcome(a, v, t, flag, env))
            && r.transCreated == (flag || (Asks(a, v, t, flag, env) && env(TransportSite).fault.NoFault?))
            && r.target.transports ==
                 if Asks(a, v, t, flag, env) && Executed(env(TransportSite).fault) then t.transports + {a.trtype} else t.transports
  {
    var s1 := Advance(a, v, State(t, flag, QueryBdev(Publish)), env);
    if !s1.pc.Done? {
      var s2 := Advance(a, v, s1, env);
      if !s2.pc.Done? {
        TransportAnswers(a, v, s2, env);
      }
    }
  }

  lemma {:induction false} TransportAnswers(a: Address, v: string, s: State, env: Site -> Input)
    requires s.pc.LoadFlag? && v in s.target.bdevs
    requires s.transCreated ==> a.trtype in s.target.transports
    ensures var r, asked := RunAlone(a, v, s, env), !s.transCreated;
            && r.pc == Done(Publish, if asked && !env(TransportSite).fault.NoFault? then Failed(CallFailed)
                                     else BuildOutcome(v, s.target.subsystems, env))
            && r.transCreated == (s.transCreated || env(TransportSite).fault.NoFault?)
            && r.target.transports ==
                 if asked && Executed(env(TransportSite).fault) then s.target.transports + {a.trtype} else s.target.transports
  {
    var s1 := Advance(a, v, s, env);
    var s2 := Advance(a, v, s1, env);
    if !s2.pc.Done? {
      var s3 := Advance(a, v, s2, env);
      BuildAnswers(a, v, s3, env);
      FromSubsystem(a, v, s3, env);
    }
  }

  /** And of an unpublish. */
  lemma {:induction false} UnpublishAnswers(a: Address, v: string, t: Target, flag: bool, env: Site -> Input)
    ensures Call(a, v, Unpublish, t, flag, env).pc == Done(Unpublish, UnpublishOutcome(a, v, t, env))
  {
    var s1 := Advance(a, v, State(t, flag, QueryBdev(Unpublish)), env);
    if !s1.pc.Done? {
      var s2 := Advance(a, v, s1, env);
      if !s2.pc.Done? {
        RemovalEffect(a, v, s2, env);
      }
    }
  }

  /** "Volume deleted" is answered exactly when the logical volume is missing and the target says so. */
  lemma DeletedMeans(a: Address, v: string, t: Target, flag: bool, env: Site -> Input)
    requires flag ==> a.trtype in t.transports
    ensures var missing := v !in t.bdevs && env(BdevSite).fault.NoFault?;
            && (Call(a, v, Publish, t, flag, env).pc.outcome == Failed(VolumeDeleted) <==> missing)
            && (Call(a, v, Unpublish, t, flag, env).pc.outcome == Failed(VolumeDeleted) <==> missing)
  {
    PublishAnswers(a, v, t, flag, env);
    UnpublishAnswers(a, v, t, flag, env);
  }

  // ---------------------------------------------------------------------
  // What follows for callers.

  /**
   * All or nothing, exactly: a publish that fails changes the subsystems if and
   * only if create_subsystem took effect although it was reported as failed, or
   * the roll-back's delete_subsystem never reached the target.
   */
  lemma FailedPublishRollsBack(a: Address, v: string, t: Target, flag: bool, env: Site -> Input)
    requires flag ==> a.trtype in t.transports
    requires Call(a, v, Publish, t, flag, env).pc.outcome.Failed?
    ensures Call(a, v, Publish, t, flag, env).target.subsystems != t.subsystems <==>
              && GoesOn(a, v, t, flag, env) && VolumeNqn(v) !in t.subsystems
              && (env(SubsystemSite).fault.Applied?
                  || (env(SubsystemSite).fault.NoFault? && env(DropSite).fault.Lost?))
  {
    PublishEffect(a, v, t, flag, env);
    var after := Call(a, v, Publish, t, flag, env).target.subsystems;
    if GoesOn(a, v, t, flag, env) && VolumeNqn(v) !in t.subsystems
       && (env(SubsystemSite).fault.Applied? || (env(SubsystemSite).fault.NoFault? && env(DropSite).fault.Lost?))
    {
      assert VolumeNqn(v) in after;
    }
  }

  /** A volume that listens with no namespace behind the listener. */
  predicate Orphaned(t: Target, v: string) {
    && VolumeNqn(v) in t.subsystems
    && t.subsystems[VolumeNqn(v)].listeners != []
    && FindNsid(t.subsystems[VolumeNqn(v)].namespaces, v).None?
  }

  /**
   * Success means the subsystem and its listener are there, and the namespace behind
   * them too, unless the volume was an orphan to begin with.
   */
  lemma SuccessMeansPublished(a: Address, v: string, t: Target, flag: bool, env: Site -> Input)
    requires flag ==> a.trtype in t.transports
    requires Call(a, v, Publish, t, flag, env).pc.outcome.Success?
    ensures var r := Call(a, v, Publish, t, flag, env).target;
            && IsListening(r, VolumeNqn(v), a)
            && (FindNsid(r.subsystems[VolumeNqn(v)].namespaces, v).Some? <==> !Orphaned(t, v))
  {
    PublishEffect(a, v, t, flag, env);
  }

  /**
   * One publish call turns a sound volume into an orphan exactly under this fault
   * pattern; no unpublish need be involved.
   */
  lemma PublishOrphans(a: Address, v: string, t: Target, flag: bool, env: Site -> Input)
    requires flag ==> a.trtype in t.transports
    requires !Orphaned(t, v)
    ensures Orphaned(Call(a, v, Publish, t, flag, env).target, v) <==>
              && GoesOn(a, v, t, flag, env) && VolumeNqn(v) !in t.subsystems
              && env(SubsystemSite).fault.NoFault?
              && env(AttachSite).fault.NoFault? && env(AttachSite).nsid != 0
              && env(ListenSite).fault.Applied?
              && env(ListSite).fault.NoFault? && Executed(env(DetachSite).fault)
              && env(DropSite).fault.Lost?
  {
    PublishEffect(a, v, t, flag, env);
    assert FindNsid([NewNs(v, env)], v).Some?;
  }

  /**
   * One unpublish call turns a sound volume into an orphan exactly when the namespace is
   * found and removed and the delete_subsystem after it never reaches the target.
   */
  lemma UnpublishOrphans(a: Address, v: string, t: Target, flag: bool, env: Site -> Input)
    requires !Orphaned(t, v)
    requires VolumeNqn(v) in t.subsystems ==> |t.subsystems[VolumeNqn(v)].namespaces| <= 1
    ensures Orphaned(Call(a, v, Unpublish, t, flag, env).target, v) <==>
              && v in t.bdevs && Executed(env(BdevSite).fault)
              && env(ListenersSite).fault.NoFault? && IsListening(t, VolumeNqn(v), a)
              && env(ListSite).fault.NoFault? && Executed(env(DetachSite).fault)
              && env(DropSite).fault.Lost?
  {
    UnpublishEffect(a, v, t, flag, env);
    if IsListening(t, VolumeNqn(v), a) {
      var namespaces := t.subsystems[VolumeNqn(v)].namespaces;
      assert |namespaces| == 1 && namespaces[0].bdev == v;
      assert WithoutNsid(namespaces, namespaces[0].nsid) == [];
    }
  }

  // ---------------------------------------------------------------------
  // Volumes that can no longer be published.

  /** The subsystem is there without the node's listener. */
  predicate Stuck(a: Address, t: Target, v: string) {
    VolumeNqn(v) in t.subsystems && !IsListening(t, VolumeNqn(v), a)
  }

  /** One publish call leaves a volume stuck that was not stuck before exactly under these faults. */
  lemma PublishSticks(a: Address, v: string, t: Target, flag: bool, env: Site -> Input)
    requires flag ==> a.trtype in t.transports
    requires !Stuck(a, t, v)
    ensures Stuck(a, Call(a, v, Publish, t, flag, env).target, v) <==>
              && GoesOn(a, v, t, flag, env)
              && (|| env(SubsystemSite).fault.Applied?
                  || (&& env(SubsystemSite).fault.NoFault? && env(DropSite).fault.Lost?
                      && (env(AttachSite).nsid == 0 || !env(AttachSite).fault.NoFault? || env(ListenSite).fault.Lost?)))
  {
    PublishEffect(a, v, t, flag, env);
  }

  /** An unpublish call neither makes a volume stuck nor frees it. */
  lemma UnpublishNeverSticks(a: Address, v: string, t: Target, flag: bool, env: Site -> Input)
    ensures Stuck(a, Call(a, v, Unpublish, t, flag, env).target, v) <==> Stuck(a, t, v)
  {
    UnpublishEffect(a, v, t, flag, env);
  }

  /** Without faults, publishing a volume that exists succeeds exactly if it is not stuck. */
  lemma RetrySucceeds(a: Address, v: string, t: Target, flag: bool, env: Site -> Input)
    requires Faultless(env) && v in t.bdevs
    requires flag ==> a.trtype in t.transports
    ensures Call(a, v, Publish, t, flag, env).pc.outcome.Success? <==> !Stuck(a, t, v)
  {
    PublishEffect(a, v, t, flag, env);
  }

  predicate Faultless(env: Site -> Input) {
    && env(AttachSite).nsid != 0
    && env(BdevSite).fault.NoFault? && env(ListenersSite).fault.NoFault? && env(TransportSite).fault.NoFault?
    && env(SubsystemSite).fault.NoFault? && env(AttachSite).fault.NoFault? && env(ListenSite).fault.NoFault?
    && env(ListSite).fault.NoFault? && env(DetachSite).fault.NoFault? && env(DropSite).fault.NoFault?
  }

  /**
   * Without faults, publish then unpublish puts every subsystem back, and a second
   * publish or a second unpublish succeeds without changing anything.
   */
  lemma PublishThenUnpublish(a: Address, v: string, t: Target, flag: bool, env: Site -> Input)
    requires Faultless(env) && v in t.bdevs && VolumeNqn(v) !in t.subsystems
    requires flag ==> a.trtype in t.transports
    ensures var p := Call(a, v, Publish, t, flag, env);
            var p2 := Call(a, v, Publish, p.target, p.transCreated, env);
            var u := Call(a, v, Unpublish, p.target, p.transCreated, env);
            var u2 := Call(a, v, Unpublish, u.target, u.transCreated, env);
            && p.pc.outcome.Success? && IsListening(p.target, VolumeNqn(v), a)
            && p2 == p
            && u.pc.outcome.Success? && u.target.subsystems == t.subsystems
            && u2 == u
  {
    var nqn := VolumeNqn(v);
    PublishEffect(a, v, t, flag, env);
    var p := Call(a, v, Publish, t, flag, env);
    assert p.target.subsystems[nqn] == Subsystem([NewNs(v, env)], [a]);
    assert p.target.subsystems - {nqn} == t.subsystems;
    UnpublishEffect(a, v, p.target, p.transCreated, env);
    var u := Call(a, v, Unpublish, p.target, p.transCreated, env);
    PublishedAlready(a, v, p.target, p.transCreated, env);
    UnpublishedAlready(a, v, u.target, u.transCreated, env);
  }

  lemma {:induction false} PublishedAlready(a: Address, v: string, t: Target, flag: bool, env: Site -> Input)
    requires Faultless(env) && v in t.bdevs && IsListening(t, VolumeNqn(v), a)
    ensures Call(a, v, Publish, t, flag, env) == State(t, flag, Done(Publish, Success))
  {
    var s1 := Advance(a, v, State(t, flag, QueryBdev(Publish)), env);
    var s2 := Advance(a, v, s1, env);
  }

  lemma {:induction false} UnpublishedAlready(a: Address, v: string, t: Target, flag: bool, env: Site -> Input)
    requires Faultless(env) && v in t.bdevs && !IsListening(t, VolumeNqn(v), a)
    ensures Call(a, v, Unpublish, t, flag, env) == State(t, flag, Done(Unpublish, Success))
  {
    var s1 := Advance(a, v, State(t, flag, QueryBdev(Unpublish)), env);
    var s2 := Advance(a, v, s1, env);
  }
}
