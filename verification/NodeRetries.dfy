/** Retried NodeUnpublishVolume calls on a target path with any number of stacked mounts. */
module NodeRetries {
  import opened Common
  import opened Paths
  import opened NodeProtocol
  import Initiator

  /** A world without faults, in which these namespaces show up. */
  function CalmWith(news: seq<Initiator.Arrival>): Pc -> Input {
    (pc: Pc) => Input(NoFault, {}, news)
  }

  function Unpublished(h: Host, p: string): State {
    RunAlone(State(h, Begin(Unpublish(p))), CalmWith([]))
  }

  /** The host after `k` calls in a row. */
  function Retried(h: Host, p: string, k: nat): Host {
    if k == 0 then h else Unpublished(Retried(h, p, k - 1), p).host
  }

  /** Two hosts differ at most in path `p`, its mounts, and its (emptied) parent directory. */
  ghost predicate OnlyAt(h: Host, g: Host, p: string) {
    && (forall q :: q != p ==> Stack(g, q) == Stack(h, q))
    && (forall q :: q != p ==> (q in g.files <==> q in h.files))
    && (forall q :: q != p ==> (q in g.dirs <==> q in h.dirs) || (q == Dir(p) && q !in g.dirs && IsEmptyDir(g, q)))
    && g.connected == h.connected && g.epochs == h.epochs
  }

  /** What a call may meet: the target is a file or nothing, and a mounted target is a file. */
  ghost predicate TargetOk(h: Host, p: string) {
    && p !in h.dirs && p != Dir(p) && (IsMountPoint(h, p) ==> p in h.files)
  }

  lemma {:induction false} DropOnce(h: Host, p: string)
    requires TargetOk(h, p)
    ensures var t, n := Unpublished(h, p), |Stack(h, p)|;
            && (n >= 2 ==> t.host == Pop(h, p) && t.handler.pc == Done(Failed(Internal)))
            && (n <= 1 ==> t.handler.pc == Done(Success) && !Exists(t.host, p) && Stack(t.host, p) == [])
            && (n <= 1 ==> OnlyAt(h, t.host, p))
  {
    var s0 := State(h, Begin(Unpublish(p)));
    var s1 := Advance(s0, CalmWith([]));
    if s1.handler.pc.DropMount? {
      var s2 := Advance(s1, CalmWith([]));
      FinishDrop(h, s2, p);
    } else if s1.handler.pc.DropFile? {
      FinishDrop(h, s1, p);
    }
  }

  /** From the removal of the file on. */
  lemma {:induction false} FinishDrop(h: Host, s: State, p: string)
    requires s.handler.pc.DropFile? && s.handler.request.path == p
    requires p != Dir(p) && p in s.host.files && p !in s.host.dirs
    requires s.host == Pop(h, p)
    ensures var t := RunAlone(s, CalmWith([]));
            && (IsMountPoint(s.host, p) ==> t.host == s.host && t.handler.pc == Done(Failed(Internal)))
            && (!IsMountPoint(s.host, p) ==>
                  t.handler.pc == Done(Success) && !Exists(t.host, p) && Stack(t.host, p) == [] && OnlyAt(h, t.host, p))
  {
    var s1 := Advance(s, CalmWith([]));
    if s1.handler.pc.DropDir? {
      var s2 := Advance(s1, CalmWith([]));
      assert forall q :: q != p ==> Stack(s2.host, q) == Stack(h, q);
      var d := Dir(p);
      if d in s1.host.dirs && d !in s2.host.dirs {
        assert IsEmptyDir(s2.host, d);
      }
    }
  }

  lemma {:induction false} PopLowers(h: Host, p: string)
    requires TargetOk(h, p) && |Stack(h, p)| >= 1
    ensures TargetOk(Pop(h, p), p) && |Stack(Pop(h, p), p)| == |Stack(h, p)| - 1
    ensures OnlyAt(h, Pop(h, p), p)
  {
  }

  /**
   * Retrying converges: with n mounts stacked on the target, each call before the last
   * one fails and lowers the depth by one, call max(n, 1) succeeds, and then the
   * path is unmounted and gone and nothing else has changed, save an emptied parent
   * directory.
   */
  lemma {:induction false} RetriesConverge(h: Host, p: string, k: nat)
    requires TargetOk(h, p)
    requires 1 <= k <= if |Stack(h, p)| == 0 then 1 else |Stack(h, p)|
    ensures var n, last := |Stack(h, p)|, Unpublished(Retried(h, p, k - 1), p);
            && Retried(h, p, k) == last.host && OnlyAt(h, last.host, p)
            && (k < n ==> last.handler.pc == Done(Failed(Internal)) && |Stack(last.host, p)| == n - k)
            && (k >= n ==> last.handler.pc == Done(Success) && Stack(last.host, p) == [] && !Exists(last.host, p))
  {
    DepthAfter(h, p, k - 1);
    var g := Retried(h, p, k - 1);
    DropOnce(g, p);
    if k < |Stack(h, p)| {
      PopLowers(g, p);
    }
  }

  lemma {:induction false} DepthAfter(h: Host, p: string, k: nat)
    requires TargetOk(h, p) && (k == 0 || k < |Stack(h, p)|)
    ensures var g := Retried(h, p, k);
            && TargetOk(g, p) && |Stack(g, p)| == |Stack(h, p)| - k
            && g.files == h.files && g.dirs == h.dirs && OnlyAt(h, g, p)
  {
    if k > 0 {
      DepthAfter(h, p, k - 1);
      var g := Retried(h, p, k - 1);
      DropOnce(g, p);
      PopLowers(g, p);
    }
  }
}
