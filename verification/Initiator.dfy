/**
 * Finding the block device of a connected namespace (pkg/util/initiator.go): the links
 * under /dev/disk/by-id, the glob on them, and the counted polling loops.
 */
module Initiator {
  import opened Common

  const STAR: Byte := 42
  const SLASH: Byte := 47
  /** nvme-uuid. */
  const PREFIX: Text := [110, 118, 109, 101, 45, 117, 117, 105, 100, 46]

  // ---------------------------------------------------------------------
  // The directory.

  /** A link to the device of a namespace (empty suffix), or to an alias or a partition of it. */
  datatype Link = Link(uuid: Text, suffix: Text, nqn: Text, epoch: nat)

  function OwnName(uuid: Text): Text { PREFIX + uuid }

  function Name(l: Link): Text { PREFIX + (l.uuid + l.suffix) }

  /** What may follow the UUID in a name, such as -part1 or _1-part2: at most one dash. */
  predicate IsSuffix(s: Text) {
    && SLASH !in s
    && forall i, j :: 0 <= i < |s| && 0 <= j < |s| && s[i] == DASH && s[j] == DASH ==> i == j
  }

  predicate LinkOk(l: Link) { IsUuid(l.uuid) && IsSuffix(l.suffix) }

  /** Order of byte strings. */
  predicate Less(a: Text, b: Text) {
    b != [] && (a == [] || a[0] < b[0] || (a[0] == b[0] && Less(a[1..], b[1..])))
  }

  /** Adds a link unless its name is taken; the directory is kept in the order of names. */
  function Insert(dir: seq<Link>, l: Link): seq<Link> {
    if dir == [] then [l]
    else if Name(dir[0]) == Name(l) then dir
    else if Less(Name(l), Name(dir[0])) then [l] + dir
    else [dir[0]] + Insert(dir[1..], l)
  }

  function InsertAll(dir: seq<Link>, ls: seq<Link>): seq<Link>
    decreases |ls|
  {
    if ls == [] then dir else InsertAll(Insert(dir, ls[0]), ls[1..])
  }

  function Lookup(dir: seq<Link>, name: Text): (l: Option<Link>)
    ensures l.Some? ==> l.value in dir && Name(l.value) == name
    ensures l.None? ==> forall m :: m in dir ==> Name(m) != name
  {
    if dir == [] then None else if Name(dir[0]) == name then Some(dir[0]) else Lookup(dir[1..], name)
  }

  /** All links that lead to `nqn` disappear. */
  function Without(dir: seq<Link>, nqn: Text): (r: seq<Link>)
    ensures forall l :: l in r <==> l in dir && l.nqn != nqn
  {
    if dir == [] then [] else (if dir[0].nqn == nqn then [] else [dir[0]]) + Without(dir[1..], nqn)
  }

  /** A namespace that shows up, with the suffixes of its aliases and partitions. */
  datatype Arrival = Arrival(uuid: Text, nqn: Text, suffixes: seq<Text>)

  predicate ArrivalOk(a: Arrival) {
    IsUuid(a.uuid) && forall i :: 0 <= i < |a.suffixes| ==> IsSuffix(a.suffixes[i])
  }

  /** The links of a namespace appear together. A UUID that is already there under another NQN stays as it is. */
  function Plug(dir: seq<Link>, a: Arrival, epoch: nat): seq<Link> {
    var own := Link(a.uuid, [], a.nqn, epoch);
    var dir1 := Insert(dir, own);
    if !ArrivalOk(a) || Lookup(dir1, OwnName(a.uuid)) != Some(own) then dir
    else InsertAll(dir1, seq(|a.suffixes|, i requires 0 <= i < |a.suffixes| => own.(suffix := a.suffixes[i])))
  }

  ghost predicate Sorted(dir: seq<Link>) {
    forall i, j :: 0 <= i < j < |dir| ==> Less(Name(dir[i]), Name(dir[j]))
  }

  ghost predicate Accompanied(dir: seq<Link>) {
    forall l :: l in dir ==> l.(suffix := []) in dir
  }

  ghost predicate DirOk(dir: seq<Link>) {
    Sorted(dir) && Accompanied(dir) && forall l :: l in dir ==> LinkOk(l)
  }

  lemma {:induction false} LessTransitive(a: Text, b: Text, c: Text)
    requires Less(a, b) && Less(b, c)
    ensures Less(a, c)
  {
    if a != [] && a[0] == b[0] == c[0] {
      LessTransitive(a[1..], b[1..], c[1..]);
    }
  }

  lemma {:induction false} LessTotal(a: Text, b: Text)
    ensures Less(a, b) || a == b || Less(b, a)
  {
    if a != [] && b != [] && a[0] == b[0] {
      LessTotal(a[1..], b[1..]);
      assert a == [a[0]] + a[1..] && b == [b[0]] + b[1..];
    }
  }

  lemma {:induction false} LessIsStrict(a: Text, b: Text)
    requires Less(a, b)
    ensures !Less(b, a) && a != b
  {
    if a != [] && a[0] == b[0] {
      LessIsStrict(a[1..], b[1..]);
    }
  }

  lemma {:induction false} PrefixIsLess(a: Text, s: Text)
    requires s != []
    ensures Less(a, a + s)
  {
    if a != [] {
      assert (a + s)[1..] == a[1..] + s;
      PrefixIsLess(a[1..], s);
    }
  }

  lemma {:induction false} InsertContains(dir: seq<Link>, l: Link)
    ensures forall m :: m in dir ==> m in Insert(dir, l)
    ensures forall m :: m in Insert(dir, l) ==> m in dir || m == l
    ensures l in Insert(dir, l) || exists m :: m in dir && Name(m) == Name(l)
  {
    if dir != [] && Name(dir[0]) != Name(l) && !Less(Name(l), Name(dir[0])) {
      InsertContains(dir[1..], l);
    }
  }

  lemma SortedTail(dir: seq<Link>)
    requires Sorted(dir) && dir != []
    ensures Sorted(dir[1..]) && forall m :: m in dir[1..] ==> Less(Name(dir[0]), Name(m))
  {
  }

  lemma SortedCons(l: Link, dir: seq<Link>)
    requires Sorted(dir) && forall m :: m in dir ==> Less(Name(l), Name(m))
    ensures Sorted([l] + dir)
  {
  }

  lemma {:induction false} InsertSorted(dir: seq<Link>, l: Link)
    requires Sorted(dir)
    ensures Sorted(Insert(dir, l))
  {
    if dir != [] && Name(dir[0]) != Name(l) {
      SortedTail(dir);
      if Less(Name(l), Name(dir[0])) {
        forall m | m in dir
          ensures Less(Name(l), Name(m))
        {
          if m != dir[0] {
            LessTransitive(Name(l), Name(dir[0]), Name(m));
          }
        }
        SortedCons(l, dir);
      } else {
        LessTotal(Name(l), Name(dir[0]));
        InsertSorted(dir[1..], l);
        InsertContains(dir[1..], l);
        SortedCons(dir[0], Insert(dir[1..], l));
      }
    }
  }

  lemma InsertKeepsOk(dir: seq<Link>, l: Link)
    requires DirOk(dir) && LinkOk(l) && (l.suffix == [] || l.(suffix := []) in dir)
    ensures DirOk(Insert(dir, l))
  {
    InsertSorted(dir, l);
    InsertContains(dir, l);
  }

  lemma {:induction false} InsertAllKeepsOk(dir: seq<Link>, ls: seq<Link>)
    requires DirOk(dir) && forall i :: 0 <= i < |ls| ==> LinkOk(ls[i]) && ls[i].(suffix := []) in dir
    ensures DirOk(InsertAll(dir, ls))
    ensures forall m :: m in dir ==> m in InsertAll(dir, ls)
    ensures forall m :: m in InsertAll(dir, ls) ==> m in dir || m in ls
    decreases |ls|
  {
    if ls != [] {
      InsertKeepsOk(dir, ls[0]);
      InsertContains(dir, ls[0]);
      InsertAllKeepsOk(Insert(dir, ls[0]), ls[1..]);
    }
  }

  /** Links that are there stay; new ones all lead to the namespace that arrived. */
  lemma PlugKeepsOk(dir: seq<Link>, a: Arrival, epoch: nat)
    requires DirOk(dir)
    ensures DirOk(Plug(dir, a, epoch))
    ensures forall m :: m in dir ==> m in Plug(dir, a, epoch)
    ensures forall m :: m in Plug(dir, a, epoch) ==> m in dir || (m.uuid == a.uuid && m.nqn == a.nqn && m.epoch == epoch)
  {
    var own := Link(a.uuid, [], a.nqn, epoch);
    var dir1 := Insert(dir, own);
    if ArrivalOk(a) && Lookup(dir1, OwnName(a.uuid)) == Some(own) {
      InsertKeepsOk(dir, own);
      InsertContains(dir, own);
      InsertAllKeepsOk(dir1, seq(|a.suffixes|, i requires 0 <= i < |a.suffixes| => own.(suffix := a.suffixes[i])));
    }
  }

  /** A namespace whose own name is free is found under it once it has arrived. */
  lemma PlugShows(dir: seq<Link>, a: Arrival, epoch: nat)
    requires DirOk(dir) && ArrivalOk(a) && Lookup(dir, OwnName(a.uuid)).None?
    ensures Lookup(Plug(dir, a, epoch), OwnName(a.uuid)) == Some(Link(a.uuid, [], a.nqn, epoch))
  {
    var own := Link(a.uuid, [], a.nqn, epoch);
    assert Name(own) == OwnName(a.uuid);
    InsertContains(dir, own);
    InsertKeepsOk(dir, own);
    LookupFinds(Insert(dir, own), own);
    PlugKeepsOk(dir, a, epoch);
    var all := seq(|a.suffixes|, i requires 0 <= i < |a.suffixes| => own.(suffix := a.suffixes[i]));
    InsertAllKeepsOk(Insert(dir, own), all);
    LookupFinds(InsertAll(Insert(dir, own), all), own);
  }

  lemma LookupFinds(dir: seq<Link>, l: Link)
    requires Sorted(dir) && l in dir
    ensures Lookup(dir, Name(l)) == Some(l)
  {
    var m := Lookup(dir, Name(l)).value;
    var i :| 0 <= i < |dir| && dir[i] == l;
    var j :| 0 <= j < |dir| && dir[j] == m;
    if i < j {
      LessIsStrict(Name(dir[i]), Name(dir[j]));
    } else if j < i {
      LessIsStrict(Name(dir[j]), Name(dir[i]));
    }
  }

  lemma {:induction false} WithoutKeepsOk(dir: seq<Link>, nqn: Text)
    requires DirOk(dir)
    ensures DirOk(Without(dir, nqn))
  {
    WithoutSorted(dir, nqn);
  }

  lemma {:induction false} WithoutSorted(dir: seq<Link>, nqn: Text)
    requires Sorted(dir)
    ensures Sorted(Without(dir, nqn))
  {
    if dir != [] {
      SortedTail(dir);
      WithoutSorted(dir[1..], nqn);
      if dir[0].nqn != nqn {
        SortedCons(dir[0], Without(dir[1..], nqn));
      }
    }
  }

  // ---------------------------------------------------------------------
  // The glob.

  /** filepath.Match for patterns whose only special character is the star. */
  predicate GlobMatch(pattern: Text, name: Text)
    decreases |pattern| + |name|
  {
    if pattern == [] then name == []
    else if pattern[0] == STAR then
      GlobMatch(pattern[1..], name) || (name != [] && name[0] != SLASH && GlobMatch(pattern, name[1..]))
    else name != [] && name[0] == pattern[0] && GlobMatch(pattern[1..], name[1..])
  }

  /** The last component of the pattern the driver builds for a namespace. */
  function DeviceGlob(uuid: Text): Text { PREFIX + ([STAR] + (uuid + [STAR])) }

  ghost predicate Within(part: Text, whole: Text) {
    exists k :: 0 <= k <= |whole| && part <= whole[k..]
  }

  lemma {:induction false} LiteralFirst(lit: Text, pattern: Text, name: Text)
    requires STAR !in lit
    ensures GlobMatch(lit + pattern, name) <==> lit <= name && GlobMatch(pattern, name[|lit|..])
  {
    if lit == [] {
      assert lit + pattern == pattern && name[0..] == name;
    } else {
      assert (lit + pattern)[1..] == lit[1..] + pattern && (lit + pattern)[0] == lit[0];
      if name != [] && name[0] == lit[0] {
        LiteralFirst(lit[1..], pattern, name[1..]);
        HeadAndTail(lit, name);
        if lit <= name {
          assert name[1..][|lit| - 1..] == name[|lit|..];
        }
      }
    }
  }

  lemma HeadAndTail(part: Text, whole: Text)
    requires part != [] && whole != [] && part[0] == whole[0]
    ensures part <= whole <==> part[1..] <= whole[1..]
  {
  }

  lemma {:induction false} StarLast(name: Text)
    requires SLASH !in name
    ensures GlobMatch([STAR], name)
  {
    if name == [] {
      assert GlobMatch([STAR][1..], name);
    } else {
      StarLast(name[1..]);
    }
  }

  /** A star and then a literal and a star: the literal occurs somewhere. */
  lemma {:induction false} StarBoth(lit: Text, name: Text)
    requires STAR !in lit && SLASH !in name
    ensures GlobMatch([STAR] + (lit + [STAR]), name) <==> Within(lit, name)
    decreases |name|
  {
    var pattern := [STAR] + (lit + [STAR]);
    assert pattern[1..] == lit + [STAR];
    LiteralFirst(lit, [STAR], name);
    if lit <= name {
      StarLast(name[|lit|..]);
      assert name[0..] == name;
    }
    if name == [] {
      WithinEmpty(lit);
    } else {
      StarBoth(lit, name[1..]);
      WithinTail(lit, name);
    }
  }

  lemma WithinEmpty(part: Text)
    ensures Within(part, []) ==> part <= []
  {
  }

  lemma WithinTail(part: Text, whole: Text)
    requires whole != []
    ensures Within(part, whole) <==> part <= whole || Within(part, whole[1..])
  {
    if Within(part, whole) {
      var k :| 0 <= k <= |whole| && part <= whole[k..];
      if k == 0 {
        assert whole[0..] == whole;
      } else {
        assert whole[1..][k - 1..] == whole[k..];
      }
    }
    if part <= whole {
      assert whole[0..] == whole;
    }
    if Within(part, whole[1..]) {
      var k :| 0 <= k <= |whole[1..]| && part <= whole[1..][k..];
      assert whole[1..][k..] == whole[k + 1..];
    }
  }

  /** The glob accepts exactly the names that carry the prefix and, somewhere behind it, the UUID. */
  lemma DeviceGlobMeans(uuid: Text, name: Text)
    requires STAR !in uuid && SLASH !in name
    ensures GlobMatch(DeviceGlob(uuid), name) <==>
            PREFIX <= name && Within(uuid, name[|PREFIX|..])
  {
    LiteralFirst(PREFIX, [STAR] + (uuid + [STAR]), name);
    if PREFIX <= name {
      StarBoth(uuid, name[|PREFIX|..]);
    }
  }

  /** A UUID occurs in another one and its suffix only if it is that other one: its dashes fit nowhere else. */
  lemma OccursAsItself(u: Text, v: Text, s: Text)
    requires IsUuid(u) && IsUuid(v) && IsSuffix(s)
    ensures Within(u, v + s) <==> u == v
  {
    if Within(u, v + s) {
      var k :| 0 <= k <= |v + s| && u <= (v + s)[k..];
      assert u[18] == (v + s)[k + 18] && u[23] == (v + s)[k + 23];
      if k > 0 {
        assert false;
      }
      assert u == (v + s)[..36] == v;
    }
    if u == v {
      assert u <= (v + s)[0..];
    }
  }

  lemma GlobFindsOwnUuid(uuid: Text, l: Link)
    requires IsUuid(uuid) && LinkOk(l)
    ensures GlobMatch(DeviceGlob(uuid), Name(l)) <==> l.uuid == uuid
  {
    assert SLASH !in Name(l) && STAR !in uuid;
    assert Name(l)[|PREFIX|..] == l.uuid + l.suffix;
    DeviceGlobMeans(uuid, Name(l));
    OccursAsItself(uuid, l.uuid, l.suffix);
  }

  /** filepath.Glob in the directory: the names that match, in order. */
  function Glob(dir: seq<Link>, pattern: Text): seq<Text> {
    if dir == [] then []
    else (if GlobMatch(pattern, Name(dir[0])) then [Name(dir[0])] else []) + Glob(dir[1..], pattern)
  }

  lemma {:induction false} GlobStartsWith(dir: seq<Link>, pattern: Text) returns (k: nat)
    ensures k <= |dir|
    ensures forall i :: 0 <= i < k ==> !GlobMatch(pattern, Name(dir[i]))
    ensures k < |dir| ==> GlobMatch(pattern, Name(dir[k])) && Glob(dir, pattern) != [] && Glob(dir, pattern)[0] == Name(dir[k])
    ensures k == |dir| ==> Glob(dir, pattern) == []
  {
    if dir == [] || GlobMatch(pattern, Name(dir[0])) {
      k := 0;
    } else {
      k := GlobStartsWith(dir[1..], pattern);
      k := k + 1;
    }
  }

  lemma OwnNameIsFirst(dir: seq<Link>, k: nat)
    requires DirOk(dir) && k < |dir| && dir[k].suffix != []
    ensures exists i :: 0 <= i < k && dir[i] == dir[k].(suffix := [])
  {
    var own := dir[k].(suffix := []);
    var i :| 0 <= i < |dir| && dir[i] == own;
    assert Name(dir[k]) == Name(own) + dir[k].suffix;
    PrefixIsLess(Name(own), dir[k].suffix);
    LessIsStrict(Name(own), Name(dir[k]));
  }

  /**
   * The device Connect waits for is the namespace's own: whatever aliases and partitions
   * are around, the glob finds nothing exactly when the own link is missing, and otherwise the own link
   * comes first.
   */
  lemma FoundIsOwn(dir: seq<Link>, uuid: Text)
    requires IsUuid(uuid) && DirOk(dir)
    ensures var found := Glob(dir, DeviceGlob(uuid));
            && (found != [] <==> Lookup(dir, OwnName(uuid)).Some?)
            && (found != [] ==> found[0] == OwnName(uuid))
  {
    var k := GlobStartsWith(dir, DeviceGlob(uuid));
    if k < |dir| {
      assert dir[k] in dir;
      GlobFindsOwnUuid(uuid, dir[k]);
      if dir[k].suffix != [] {
        OwnNameIsFirst(dir, k);
        var i :| 0 <= i < k && dir[i] == dir[k].(suffix := []);
        GlobFindsOwnUuid(uuid, dir[i]);
        assert false;
      }
      assert Name(dir[k]) == OwnName(uuid);
    } else if Lookup(dir, OwnName(uuid)).Some? {
      var l := Lookup(dir, OwnName(uuid)).value;
      OwnLink(l, uuid);
      GlobFindsOwnUuid(uuid, l);
      assert false;
    }
  }

  /** A link of that name leads to the device with that UUID. */
  lemma OwnLink(l: Link, uuid: Text)
    requires LinkOk(l) && IsUuid(uuid) && Name(l) == OwnName(uuid)
    ensures l.uuid == uuid && l.suffix == []
  {
    assert Name(l)[|PREFIX|..] == l.uuid + l.suffix && OwnName(uuid)[|PREFIX|..] == uuid;
    assert (l.uuid + l.suffix)[..36] == l.uuid;
  }

  // ---------------------------------------------------------------------
  // Polling. Each element is the glob's answer at one poll, None for an error.

  datatype Failure = GlobFailed | TimedOut

  /** The first poll that ends the wait is the n-th; before it the glob kept answering what it should not. */
  ghost predicate EndsAt(polls: seq<Option<seq<Text>>>, n: nat, wantDevice: bool) {
    && n <= |polls|
    && (forall j :: 0 <= j < n ==> polls[j].Some? && ((polls[j].value == []) == wantDevice))
    && (n < |polls| ==> polls[n].None? || ((polls[n].value != []) == wantDevice))
  }

  method WaitForDeviceReady(polls: seq<Option<seq<Text>>>, seconds: int)
    returns (device: Result<Text, Failure>, n: nat)
    requires |polls| == if seconds < 0 then 0 else seconds + 1
    ensures EndsAt(polls, n, true)
    ensures device.Ok? <==> n < |polls| && polls[n].Some?
    ensures device.Ok? ==> device.value == polls[n].value[0]
    ensures device == Err(TimedOut) <==> n == |polls|
  {
    n := 0;
    while n <= seconds
      invariant n <= |polls|
      invariant forall j :: 0 <= j < n ==> polls[j] == Some([])
    {
      if polls[n].None? {
        return Err(GlobFailed), n;
      }
      if |polls[n].value| >= 1 {
        return Ok(polls[n].value[0]), n;
      }
      n := n + 1;
    }
    device := Err(TimedOut);
  }

  method WaitForDeviceGone(polls: seq<Option<seq<Text>>>) returns (gone: Result<(), Failure>, n: nat)
    requires |polls| == 21
    ensures EndsAt(polls, n, false)
    ensures gone.Ok? <==> n < 21 && polls[n].Some?
    ensures gone == Err(TimedOut) <==> n == 21
  {
    n := 0;
    while n <= 20
      invariant n <= 21
      invariant forall j :: 0 <= j < n ==> polls[j].Some? && polls[j].value != []
    {
      if polls[n].None? {
        return Err(GlobFailed), n;
      }
      if |polls[n].value| == 0 {
        return Ok(()), n;
      }
      n := n + 1;
    }
    gone := Err(TimedOut);
  }
}
