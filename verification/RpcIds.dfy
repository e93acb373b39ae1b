/**
 * Request ids (pkg/util/jsonrpc.go): every call takes the next value of an int32 that
 * wraps around, and accepts a response that carries the same value.
 */
module RpcIds {

  const SPAN: int := 0x1_0000_0000

  type Int32 = x: int | -0x8000_0000 <= x < 0x8000_0000

  /** Two's complement. */
  function Wrap(x: int): Int32 {
    (x + 0x8000_0000) % SPAN - 0x8000_0000
  }

  lemma WrapAgain(x: int)
    ensures Wrap(Wrap(x) + 1) == Wrap(x + 1)
  {
  }

  lemma SameWrap(x: int, y: int)
    ensures Wrap(x) == Wrap(y) <==> (x - y) % SPAN == 0
  {
  }

  class RpcClient {
    var rpcID: Int32

    constructor ()
      ensures rpcID == 0
    {
      rpcID := 0;
    }

    /** atomic.AddInt32(&client.rpcID, 1) */
    method NextId() returns (id: Int32)
      modifies this
      ensures rpcID == id == Wrap(old(rpcID) + 1)
    {
      rpcID := if rpcID == 0x7FFF_FFFF then -0x8000_0000 else rpcID + 1;
      id := rpcID;
    }
  }

  /** `response.ID != id` rejects; calls are numbered in the order in which they took their ids. */
  predicate Accepts(ids: seq<Int32>, call: nat, answered: nat)
    requires call < |ids| && answered < |ids|
  {
    ids[answered] == ids[call]
  }

  // ---------------------------------------------------------------------
  // Concurrent callers.

  datatype State = State(counter: Int32, ids: seq<Int32>, open: set<nat>)

  /** Some caller takes an id and sends its request; the n-th call returns. */
  datatype Event = Issue | Return(n: nat)

  function Next(s: State, e: Event): State {
    match e
    case Issue =>
      var id := Wrap(s.counter + 1);
      State(id, s.ids + [id], s.open + {|s.ids|})
    case Return(n) => s.(open := s.open - {n})
  }

  function Run(s: State, es: seq<Event>): State
    decreases |es|
  {
    if es == [] then s else Run(Next(s, es[0]), es[1..])
  }

  const START := State(0, [], {})

  ghost predicate Inv(s: State) {
    && s.counter == Wrap(|s.ids|)
    && (forall k :: 0 <= k < |s.ids| ==> s.ids[k] == Wrap(k + 1))
    && (forall k :: k in s.open ==> k < |s.ids|)
  }

  lemma {:induction false} RunKeepsInv(s: State, es: seq<Event>)
    requires Inv(s)
    ensures Inv(Run(s, es))
    decreases |es|
  {
    if es != [] {
      WrapAgain(|s.ids|);
      RunKeepsInv(Next(s, es[0]), es[1..]);
    }
  }

  /** Under any interleaving, two calls have the same id exactly when a multiple of 2^32 lies between them. */
  lemma IdsRepeat(es: seq<Event>, i: nat, j: nat)
    requires i < |Run(START, es).ids| && j < |Run(START, es).ids|
    ensures var ids := Run(START, es).ids;
            ids[i] == ids[j] <==> (i - j) % SPAN == 0
  {
    RunKeepsInv(START, es);
    SameWrap(i + 1, j + 1);
  }

  /** Calls whose response is still awaited are among the latest 2^32. */
  ghost predicate InWindow(s: State) {
    forall k :: k in s.open ==> |s.ids| - k <= SPAN
  }

  /** Inside the window a waiting call accepts no response but its own. */
  lemma OwnResponseOnly(es: seq<Event>, call: nat, answered: nat)
    requires InWindow(Run(START, es))
    requires call in Run(START, es).open && answered in Run(START, es).open
    ensures call < |Run(START, es).ids| && answered < |Run(START, es).ids|
    ensures Accepts(Run(START, es).ids, call, answered) <==> call == answered
  {
    RunKeepsInv(START, es);
    IdsRepeat(es, call, answered);
    Small(call - answered);
  }

  lemma Small(d: int)
    requires -SPAN < d < SPAN
    ensures d % SPAN == 0 <==> d == 0
  {
  }

  /** `k` calls that return at once. */
  function Brief(k: nat, first: nat): seq<Event> {
    if k == 0 then [] else [Issue, Return(first)] + Brief(k - 1, first + 1)
  }

  lemma {:induction false} RunBrief(s: State, k: nat, es: seq<Event>) returns (t: State)
    requires s.open == {0} && s.ids != []
    ensures t.open == {0} && |t.ids| == |s.ids| + k && Run(s, Brief(k, |s.ids|) + es) == Run(t, es)
    decreases k
  {
    if k == 0 {
      t := s;
      assert Brief(0, |s.ids|) + es == es;
    } else {
      var all := Brief(k, |s.ids|) + es;
      var mid := Next(s, Issue);
      var s' := Next(mid, Return(|s.ids|));
      assert all[0] == Issue && all[1] == Return(|s.ids|);
      assert all[1..][1..] == Brief(k - 1, |s.ids| + 1) + es;
      assert Run(s, all) == Run(mid, all[1..]) == Run(s', all[1..][1..]);
      assert s'.open == {0};
      t := RunBrief(s', k - 1, es);
    }
  }

  /** The window matters, not the number of waiting calls: two are enough to be confused. */
  lemma TwoWaitingCallsCollide(k: nat)
    requires k + 1 == SPAN
    ensures exists es :: var s := Run(START, es);
              s.open == {0, k + 1} && |s.ids| == k + 2 && Accepts(s.ids, 0, k + 1)
  {
    var es := [Issue] + (Brief(k, 1) + [Issue]);
    LongWait(es, k);
    IdsRepeat(es, 0, k + 1);
  }

  lemma LongWait(es: seq<Event>, k: nat)
    requires es == [Issue] + (Brief(k, 1) + [Issue])
    ensures Run(START, es).open == {0, k + 1} && |Run(START, es).ids| == k + 2
  {
    var first := Next(START, Issue);
    assert first.open == {0};
    assert es[1..] == Brief(k, 1) + [Issue];
    var t := RunBrief(first, k, [Issue]);
    RunOne(t);
    assert Run(START, es) == Next(t, Issue);
  }

  lemma RunOne(t: State)
    ensures Run(t, [Issue]) == Next(t, Issue)
  {
  }
}
