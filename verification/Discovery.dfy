/**
 * Looking for a device in sysfs again and again (pkg/util/util.go): a rescan that
 * remembers the paths it has already read, against one that reads everything anew.
 */
module Discovery {
  import opened Common
  import DeviceName

  /** The file system during one rescan: the glob's answer (None for an error) and the uuid files that can be read. */
  datatype Snapshot = Snapshot(glob: Option<seq<string>>, files: map<string, string>)

  function Glob(s: Snapshot): seq<string> { if s.glob.Some? then s.glob.value else [] }

  /** Unicode White_Space, which strings.TrimSpace removes. */
  predicate IsSpace(c: char) {
    var n := c as int;
    || 9 <= n <= 13 || n == 32 || n == 0x85 || n == 0xA0 || n == 0x1680 || 0x2000 <= n <= 0x200A
    || n == 0x2028 || n == 0x2029 || n == 0x202F || n == 0x205F || n == 0x3000
  }

  function TrimSpace(s: string): string
    decreases |s|
  {
    if s == "" then ""
    else if IsSpace(s[0]) then TrimSpace(s[1..])
    else if IsSpace(s[|s| - 1]) then TrimSpace(s[..|s| - 1])
    else s
  }

  ghost predicate Blank(s: string) { forall i :: 0 <= i < |s| ==> IsSpace(s[i]) }

  /** No white space at either end. */
  predicate Trimmed(s: string) { s == "" || (!IsSpace(s[0]) && !IsSpace(s[|s| - 1])) }

  /** `content` is `model` between white space. */
  ghost predicate Padded(content: string, model: string) {
    exists a, b :: Blank(a) && Blank(b) && content == a + model + b
  }

  /** The ASCII characters among them. */
  lemma AsciiSpaces(c: char)
    requires c < 128 as char
    ensures IsSpace(c) <==> c == ' ' || c == '\t' || c == '\n' || c == '\r' || c == 11 as char || c == 12 as char
  {
  }

  /** Property White_Space of Unicode, in full. */
  lemma UnicodeSpaces(c: char)
    ensures IsSpace(c) <==>
              || c in "\t\n\U{B}\U{C}\r \U{85}\U{A0}\U{1680}\U{2028}\U{2029}\U{202F}\U{205F}\U{3000}"
              || '\U{2000}' <= c <= '\U{200A}'
  {
  }

  lemma {:induction false} TrimSplits(s: string)
    ensures Trimmed(TrimSpace(s)) && Padded(s, TrimSpace(s))
    decreases |s|
  {
    if s != "" && IsSpace(s[0]) {
      TrimSplits(s[1..]);
      assert s == [s[0]] + s[1..] + "";
      MorePadding([s[0]], s[1..], "", TrimSpace(s));
    } else if s != "" && IsSpace(s[|s| - 1]) {
      TrimSplits(s[..|s| - 1]);
      assert s == "" + s[..|s| - 1] + [s[|s| - 1]];
      MorePadding("", s[..|s| - 1], [s[|s| - 1]], TrimSpace(s));
    } else {
      assert s == "" + s + "" && Blank("");
    }
  }

  lemma MorePadding(x: string, content: string, y: string, model: string)
    requires Blank(x) && Blank(y) && Padded(content, model)
    ensures Padded(x + content + y, model)
  {
    var a, b :| Blank(a) && Blank(b) && content == a + model + b;
    assert x + (a + model + b) + y == (x + a) + model + (b + y);
    assert Blank(x + a) && Blank(b + y);
  }

  /** White space goes from both ends, and nothing else does. */
  lemma {:induction false} TrimSpaceTrims(a: string, s: string, b: string)
    requires Blank(a) && Blank(b) && Trimmed(s)
    ensures TrimSpace(a + s + b) == s
    decreases |a| + |b|
  {
    var t := a + s + b;
    if a != "" {
      assert t[0] == a[0] && t[1..] == a[1..] + s + b;
      TrimSpaceTrims(a[1..], s, b);
    } else if s == "" {
      if b != "" {
        assert t[0] == b[0] && t[1..] == "" + "" + b[1..];
        TrimSpaceTrims("", "", b[1..]);
      }
    } else if b != "" {
      assert t[0] == s[0] && t[|t| - 1] == b[|b| - 1];
      assert t[..|t| - 1] == "" + s + b[..|b| - 1];
      TrimSpaceTrims("", s, b[..|b| - 1]);
    } else {
      assert t == s;
    }
  }

  lemma TrimSpaceMeans(content: string, model: string)
    ensures TrimSpace(content) == model <==> Trimmed(model) && Padded(content, model)
  {
    TrimSplits(content);
    if Trimmed(model) && Padded(content, model) {
      var c, d :| Blank(c) && Blank(d) && content == c + model + d;
      TrimSpaceTrims(c, model, d);
    }
  }

  function Read(files: map<string, string>, path: string): Option<string> {
    if path in files then Some(files[path]) else None
  }

  /** The device behind a uuid file with this content; empty for a failed read, another uuid or an odd path. */
  function Name(content: Option<string>, path: string, model: string): string {
    if content.Some? && TrimSpace(content.value) == model then DeviceName.DeviceOf(path) else ""
  }

  /** What matters of a snapshot to a search: the paths to look at, and those that lead to the device. */
  datatype Round = Round(paths: seq<string>, matching: set<string>)

  function View(s: Snapshot, model: string): Round {
    Round(Glob(s),
          set path | path in s.files && Name(Some(s.files[path]), path, model) != "")
  }

  function Views(history: seq<Snapshot>, model: string): (rounds: seq<Round>)
    ensures |rounds| == |history|
    ensures forall k :: 0 <= k < |history| ==> rounds[k] == View(history[k], model)
  {
    seq(|history|, k requires 0 <= k < |history| => View(history[k], model))
  }

  /** A scan's hit, the paths remembered after it, and the paths it read, in order. */
  datatype Outcome<T> = Outcome(hit: Option<T>, ignore: Option<set<string>>, log: seq<string>)

  predicate Skips(ignore: Option<set<string>>, path: string) { ignore.Some? && path in ignore.value }

  function Remember(ignore: Option<set<string>>, path: string): Option<set<string>> {
    if ignore.Some? then Some(ignore.value + {path}) else None
  }

  /** One scan. Without a set to ignore (a nil map) it reads every path up to the hit. */
  function Scan(r: Round, paths: seq<string>, ignore: Option<set<string>>): Outcome<string> {
    if paths == [] then Outcome(None, ignore, [])
    else if Skips(ignore, paths[0]) then Scan(r, paths[1..], ignore)
    else if paths[0] in r.matching then Outcome(Some(paths[0]), Remember(ignore, paths[0]), [paths[0]])
    else
      var rest := Scan(r, paths[1..], Remember(ignore, paths[0]));
      rest.(log := [paths[0]] + rest.log)
  }

  datatype Hit = Hit(round: nat, path: string)

  /** Scan round after round, from round `k` on, until a hit. */
  function Detect(rounds: seq<Round>, k: nat, ignore: Option<set<string>>): (o: Outcome<Hit>)
    requires k <= |rounds|
    ensures o.hit.Some? ==> k <= o.hit.value.round < |rounds|
    decreases |rounds| - k
  {
    if k == |rounds| then Outcome(None, ignore, [])
    else
      var scan := Scan(rounds[k], rounds[k].paths, ignore);
      if scan.hit.Some? then Outcome(Some(Hit(k, scan.hit.value)), scan.ignore, scan.log)
      else
        var rest := Detect(rounds, k + 1, scan.ignore);
        rest.(log := scan.log + rest.log)
  }

  function PlainHit(rounds: seq<Round>): (hit: Option<Hit>)
    ensures hit.Some? ==> hit.value.round < |rounds|
  {
    Detect(rounds, 0, None).hit
  }

  function CachedHit(rounds: seq<Round>): Option<Hit> {
    Detect(rounds, 0, Some({})).hit
  }

  // ---------------------------------------------------------------------
  // What each of them finds.

  ghost predicate FirstMatch(r: Round, paths: seq<string>, ignore: set<string>, path: string) {
    exists i :: 0 <= i < |paths| && paths[i] == path && path !in ignore && path in r.matching
      && forall j :: 0 <= j < i ==> paths[j] in ignore || paths[j] !in r.matching
  }

  function Ignored(ignore: Option<set<string>>): set<string> {
    if ignore.Some? then ignore.value else {}
  }

  /** A scan's hit is the first matching path it may look at. */
  lemma {:induction false} ScanFinds(r: Round, paths: seq<string>, ignore: Option<set<string>>)
    ensures var o := Scan(r, paths, ignore);
            && (o.hit.Some? ==> FirstMatch(r, paths, Ignored(ignore), o.hit.value))
            && (o.hit.None? ==>
                  forall i :: 0 <= i < |paths| ==> paths[i] in Ignored(ignore) || paths[i] !in r.matching)
            && (ignore.None? ==> o.ignore.None?)
  {
    if paths != [] {
      var p, rest := paths[0], paths[1..];
      if Skips(ignore, p) {
        ScanFinds(r, rest, ignore);
        ScanShift(r, paths, Ignored(ignore), Ignored(ignore));
      } else if p !in r.matching {
        ScanFinds(r, rest, Remember(ignore, p));
        ScanShift(r, paths, Ignored(ignore), Ignored(Remember(ignore, p)));
      }
    }
  }

  /** A scan without a hit has remembered every path. */
  lemma {:induction false} ScanRemembers(r: Round, paths: seq<string>, ignore: set<string>)
    requires Scan(r, paths, Some(ignore)).hit.None?
    ensures Scan(r, paths, Some(ignore)).ignore == Some(ignore + Elements(paths))
  {
    if paths == [] {
      assert ignore + Elements(paths) == ignore;
    } else {
      ElementsOf(paths);
      var more := ignore + {paths[0]};
      assert ignore + Elements(paths) == more + Elements(paths[1..]);
      if paths[0] in ignore {
        assert more == ignore;
      }
      ScanRemembers(r, paths[1..], more);
    }
  }

  function Elements(paths: seq<string>): set<string> { set p | p in paths }

  lemma ElementsOf(paths: seq<string>)
    requires paths != []
    ensures Elements(paths) == {paths[0]} + Elements(paths[1..])
  {
  }

  /** From the tail of a path list to the whole, the head being ignored or no match. */
  lemma ScanShift(r: Round, paths: seq<string>, ignore: set<string>, more: set<string>)
    requires paths != [] && (paths[0] in ignore || paths[0] !in r.matching)
    requires more == ignore || more == ignore + {paths[0]}
    ensures forall p :: FirstMatch(r, paths[1..], more, p) ==> FirstMatch(r, paths, ignore, p)
    ensures (forall i :: 0 <= i < |paths[1..]| ==> paths[1..][i] in more || paths[1..][i] !in r.matching) ==>
              forall i :: 0 <= i < |paths| ==> paths[i] in ignore || paths[i] !in r.matching
  {
    var rest := paths[1..];
    forall p | FirstMatch(r, rest, more, p)
      ensures FirstMatch(r, paths, ignore, p)
    {
      var i :| 0 <= i < |rest| && rest[i] == p && p !in more && p in r.matching
        && forall j :: 0 <= j < i ==> rest[j] in more || rest[j] !in r.matching;
      forall j | 0 <= j < i + 1
        ensures paths[j] in ignore || paths[j] !in r.matching
      {
        if j > 0 {
          assert rest[j - 1] == paths[j];
        }
      }
      assert paths[i + 1] == p;
    }
    if forall i :: 0 <= i < |rest| ==> rest[i] in more || rest[i] !in r.matching {
      forall i | 0 <= i < |paths|
        ensures paths[i] in ignore || paths[i] !in r.matching
      {
        if i > 0 {
          assert rest[i - 1] == paths[i];
        }
      }
    }
  }

  predicate Listed(rounds: seq<Round>, k: nat, path: string)
    requires k <= |rounds|
  {
    exists j :: 0 <= j < k && path in rounds[j].paths
  }

  /** Nothing listed in the rounds before `k` matched when it was listed. */
  ghost predicate Quiet(rounds: seq<Round>, k: nat)
    requires k <= |rounds|
  {
    forall j, p :: 0 <= j < k && p in rounds[j].paths ==> p !in rounds[j].matching
  }

  /** A rescan with no memory finds the first match of the first round that has one. */
  lemma {:induction false} PlainFinds(rounds: seq<Round>, k: nat)
    requires k <= |rounds| && Quiet(rounds, k)
    ensures var hit := Detect(rounds, k, None).hit;
            && (hit.None? ==> Quiet(rounds, |rounds|))
            && (hit.Some? ==>
                  && hit.value.round < |rounds| && Quiet(rounds, hit.value.round)
                  && var r := rounds[hit.value.round];
                     FirstMatch(r, r.paths, {}, hit.value.path))
    decreases |rounds| - k
  {
    if k < |rounds| {
      var r := rounds[k];
      ScanFinds(r, r.paths, None);
      if Scan(r, r.paths, None).hit.None? {
        PlainFinds(rounds, k + 1);
      }
    }
  }

  /** Everything listed in the rounds before `k`. */
  function Before(rounds: seq<Round>, k: nat): set<string>
    requires k <= |rounds|
  {
    if k == 0 then {} else Before(rounds, k - 1) + Elements(rounds[k - 1].paths)
  }

  lemma {:induction false} BeforeIsListed(rounds: seq<Round>, k: nat, path: string)
    requires k <= |rounds|
    ensures path in Before(rounds, k) <==> Listed(rounds, k, path)
  {
    if k > 0 {
      BeforeIsListed(rounds, k - 1, path);
      if Listed(rounds, k - 1, path) {
        var j :| 0 <= j < k - 1 && path in rounds[j].paths;
        assert 0 <= j < k;
      }
    }
  }

  /** Nothing that was unlisted before it matched in the rounds from `k` to `m`. */
  ghost predicate NoFresh(rounds: seq<Round>, k: nat, m: nat)
    requires m <= |rounds|
  {
    forall j, p :: k <= j < m && p in rounds[j].paths && p in rounds[j].matching ==> p in Before(rounds, j)
  }

  /** A rescan that remembers finds the first match of the first round that has one never listed before. */
  lemma {:induction false} CachedFinds(rounds: seq<Round>, k: nat)
    requires k <= |rounds|
    ensures var hit := Detect(rounds, k, Some(Before(rounds, k))).hit;
            && (hit.None? ==> NoFresh(rounds, k, |rounds|))
            && (hit.Some? ==>
                  && NoFresh(rounds, k, hit.value.round)
                  && var r := rounds[hit.value.round];
                     FirstMatch(r, r.paths, Before(rounds, hit.value.round), hit.value.path))
    decreases |rounds| - k
  {
    if k < |rounds| {
      var r, known := rounds[k], Before(rounds, k);
      ScanFinds(r, r.paths, Some(known));
      if Scan(r, r.paths, Some(known)).hit.None? {
        ScanRemembers(r, r.paths, known);
        CachedFinds(rounds, k + 1);
      }
    }
  }

  /** A first match is the only one: two descriptions of the same list's first match agree. */
  lemma FirstMatchUnique(r: Round, paths: seq<string>, p: string, known: set<string>, q: string)
    requires FirstMatch(r, paths, {}, p) && FirstMatch(r, paths, known, q) && p !in known
    ensures p == q
  {
  }

  /** When no earlier round has a match, and the plain hit is new to its round, so is the cached hit's round. */
  lemma NothingEarlier(rounds: seq<Round>, plain: Hit)
    requires PlainHit(rounds) == Some(plain) && plain.path !in Before(rounds, plain.round)
    ensures CachedHit(rounds).Some? && CachedHit(rounds).value.round == plain.round
  {
    PlainFinds(rounds, 0);
    CachedFinds(rounds, 0);
  }

  /**
   * The rescan with a visited set finds the same file in the same round as the rescan of
   * everything exactly when the latter finds nothing or finds a file that no earlier round listed.
   */
  lemma CachedAgrees(rounds: seq<Round>)
    ensures var plain := PlainHit(rounds);
            CachedHit(rounds) == plain
            <==> plain.None? || !Listed(rounds, plain.value.round, plain.value.path)
  {
    var plain, cached := PlainHit(rounds), CachedHit(rounds);
    PlainFinds(rounds, 0);
    CachedFinds(rounds, 0);
    if cached.Some? {
      BeforeIsListed(rounds, cached.value.round, cached.value.path);
    }
    if plain.Some? {
      var k, p := plain.value.round, plain.value.path;
      BeforeIsListed(rounds, k, p);
      if !Listed(rounds, k, p) {
        NothingEarlier(rounds, plain.value);
        FirstMatchUnique(rounds[k], rounds[k].paths, p, Before(rounds, k), cached.value.path);
      }
    }
  }

  /** A uuid file reads the same, or fails the same, in every round that lists it. */
  ghost predicate Stable(history: seq<Snapshot>) {
    forall j, k, p :: 0 <= j < k < |history| && p in Glob(history[j]) && p in Glob(history[k]) ==>
      Read(history[j].files, p) == Read(history[k].files, p)
  }

  /** With stable files, remembering what has been read changes nothing. */
  lemma StableFilesAgree(history: seq<Snapshot>, model: string)
    requires Stable(history)
    ensures CachedHit(Views(history, model)) == PlainHit(Views(history, model))
  {
    var rounds := Views(history, model);
    CachedAgrees(rounds);
    PlainFinds(rounds, 0);
    var plain := PlainHit(rounds);
    if plain.Some? {
      var k, p := plain.value.round, plain.value.path;
      forall j | 0 <= j < k
        ensures p !in rounds[j].paths
      {
        if p in rounds[j].paths {
          StableMatch(history, model, j, k, p);
        }
      }
    }
  }

  lemma StableMatch(history: seq<Snapshot>, model: string, j: nat, k: nat, p: string)
    requires Stable(history) && j < k < |history|
    requires var rounds := Views(history, model);
             p in rounds[j].paths && p in rounds[k].paths
    ensures p in View(history[j], model).matching <==> p in View(history[k], model).matching
  {
  }

  /** A path leads to the device exactly if its file can be read and holds the model between white space, and the path has a name. */
  lemma MatchingMeans(s: Snapshot, model: string, path: string)
    ensures path in View(s, model).matching <==>
            path in s.files && Trimmed(model) && Padded(s.files[path], model) && DeviceName.DeviceOf(path) != ""
  {
    if path in s.files {
      TrimSpaceMeans(s.files[path], model);
    }
  }

  /** Without an ignore set a scan reads every path up to the hit, and all of them if there is none. */
  lemma {:induction false} PlainReads(r: Round, paths: seq<string>)
    ensures var o := Scan(r, paths, None);
            && o.log <= paths
            && (o.hit.None? ==> o.log == paths)
            && (o.hit.Some? ==> o.log != [] && o.log[|o.log| - 1] == o.hit.value)
  {
    if paths != [] {
      PlainReads(r, paths[1..]);
      assert paths == [paths[0]] + paths[1..];
    }
  }

  /** A file that cannot be read yet when it first shows up is never looked at again. */
  lemma LateFileIsMissed(path: string, uuid: string)
    requires TrimSpace(uuid) == uuid && DeviceName.DeviceOf(path) != ""
    ensures var history := [Snapshot(Some([path]), map[]), Snapshot(Some([path]), map[path := uuid])];
            && PlainHit(Views(history, uuid)) == Some(Hit(1, path))
            && CachedHit(Views(history, uuid)) == None
  {
    var history := [Snapshot(Some([path]), map[]), Snapshot(Some([path]), map[path := uuid])];
    LateMatch(path);
    assert View(history[0], uuid).matching == {};
    assert View(history[1], uuid).matching == {path};
    assert Views(history, uuid) == [Round([path], {}), Round([path], {path})];
  }

  lemma LateMatch(path: string)
    ensures var rounds := [Round([path], {}), Round([path], {path})];
            PlainHit(rounds) == Some(Hit(1, path)) && CachedHit(rounds) == None
  {
    var rounds := [Round([path], {}), Round([path], {path})];
    assert [path][1..] == [];
    assert Scan(rounds[0], [path][1..], None).hit.None?;
    assert Detect(rounds, 1, None).hit == Some(Hit(1, path));
    var seen := {} + {path};
    assert Scan(rounds[0], [path][1..], Some(seen)) == Outcome(None, Some(seen), []);
    assert Scan(rounds[1], [path][1..], Some(seen)) == Outcome(None, Some(seen), []);
    assert Detect(rounds, 2, Some(seen)).hit.None?;
    assert Detect(rounds, 1, Some(seen)).hit.None?;
  }

  // ---------------------------------------------------------------------
  // What they read.

  ghost predicate Distinct(s: seq<string>) {
    forall i, j :: 0 <= i < j < |s| ==> s[i] != s[j]
  }

  /** Reads are distinct, new, and remembered. */
  ghost predicate ReadsOnce(log: seq<string>, before: set<string>, after: Option<set<string>>) {
    && after.Some? && before <= after.value && Distinct(log)
    && forall i :: 0 <= i < |log| ==> log[i] !in before && log[i] in after.value
  }

  lemma ReadsChain(a: seq<string>, before: set<string>, mid: set<string>, b: seq<string>, after: Option<set<string>>)
    requires ReadsOnce(a, before, Some(mid)) && ReadsOnce(b, mid, after)
    ensures ReadsOnce(a + b, before, after)
  {
  }

  lemma {:induction false} ScanReadsOnce(r: Round, paths: seq<string>, ignore: set<string>)
    ensures var o := Scan(r, paths, Some(ignore));
            ReadsOnce(o.log, ignore, o.ignore)
  {
    if paths != [] {
      if paths[0] in ignore {
        ScanReadsOnce(r, paths[1..], ignore);
      } else if paths[0] !in r.matching {
        var rest := Scan(r, paths[1..], Some(ignore + {paths[0]}));
        ScanReadsOnce(r, paths[1..], ignore + {paths[0]});
        ReadsChain([paths[0]], ignore, ignore + {paths[0]}, rest.log, rest.ignore);
      }
    }
  }

  /** Over all rounds together no file is read twice, whatever the file system does. */
  lemma {:induction false} DetectReadsOnce(rounds: seq<Round>, k: nat, ignore: set<string>)
    requires k <= |rounds|
    ensures var o := Detect(rounds, k, Some(ignore));
            ReadsOnce(o.log, ignore, o.ignore)
    decreases |rounds| - k
  {
    if k < |rounds| {
      var scan := Scan(rounds[k], rounds[k].paths, Some(ignore));
      ScanReadsOnce(rounds[k], rounds[k].paths, ignore);
      if scan.hit.None? {
        var rest := Detect(rounds, k + 1, scan.ignore);
        DetectReadsOnce(rounds, k + 1, scan.ignore.value);
        ReadsChain(scan.log, ignore, scan.ignore.value, rest.log, rest.ignore);
      }
    }
  }

  // ---------------------------------------------------------------------
  // The code.

  /** `whole` is what has been read so far followed by what `rest` does. */
  ghost predicate Continues<T>(whole: Outcome<T>, done: seq<string>, rest: Outcome<T>) {
    whole.hit == rest.hit && whole.ignore == rest.ignore && whole.log == done + rest.log
  }

  lemma ContinuesOn<T>(whole: Outcome<T>, done: seq<string>, rest: Outcome<T>, more: seq<string>, last: Outcome<T>)
    requires Continues(whole, done, rest) && Continues(rest, more, last)
    ensures Continues(whole, done + more, last)
  {
  }

  /** One more round of a search: it ends with a hit, or goes on behind what the round has read. */
  lemma DetectStep(whole: Outcome<Hit>, done: seq<string>, rounds: seq<Round>, k: nat, ignore: Option<set<string>>)
    requires k < |rounds| && Continues(whole, done, Detect(rounds, k, ignore))
    ensures var scan := Scan(rounds[k], rounds[k].paths, ignore);
            if scan.hit.Some? then whole.hit == Some(Hit(k, scan.hit.value)) && whole.log == done + scan.log
            else Continues(whole, done + scan.log, Detect(rounds, k + 1, scan.ignore))
  {
    var scan := Scan(rounds[k], rounds[k].paths, ignore);
    if scan.hit.None? {
      ContinuesOn(whole, done, Detect(rounds, k, ignore), scan.log, Detect(rounds, k + 1, scan.ignore));
    }
  }

  lemma ScanStep(r: Round, paths: seq<string>, i: nat, ignore: Option<set<string>>)
    requires i < |paths|
    ensures var o, p := Scan(r, paths[i..], ignore), paths[i];
            if Skips(ignore, p) then o == Scan(r, paths[i + 1..], ignore)
            else if p in r.matching then o == Outcome(Some(p), Remember(ignore, p), [p])
            else Continues(o, [p], Scan(r, paths[i + 1..], Remember(ignore, p)))
  {
  }

  datatype Error = NotExist | BadPattern | DeadlineExceeded

  /** The driver's ignorePaths map, filled in place. */
  class PathSet {
    var paths: set<string>

    constructor ()
      ensures paths == {}
    {
      paths := {};
    }
  }

  function Remembered(ignore: PathSet?): Option<set<string>>
    reads ignore
  {
    if ignore == null then None else Some(ignore.paths)
  }

  /** The files as the successive rescans meet them, with a record of what has been read. */
  class Sysfs {
    const history: seq<Snapshot>
    var log: seq<string>

    constructor (history: seq<Snapshot>)
      ensures this.history == history && log == []
    {
      this.history := history;
      log := [];
    }

    method GetNvmeDeviceName(k: nat, path: string, model: string) returns (name: Result<string, Error>)
      requires k < |history|
      modifies this`log
      ensures log == old(log) + [path]
      ensures name.Ok? && name.value != "" <==> path in View(history[k], model).matching
      ensures name.Ok? ==> name.value == DeviceName.DeviceOf(path)
      ensures name.Ok? <==> path in history[k].files && Trimmed(model) && Padded(history[k].files[path], model)
    {
      if path in history[k].files {
        TrimSpaceMeans(history[k].files[path], model);
      }
      log := log + [path];
      if path !in history[k].files {
        return Err(NotExist);
      }
      if TrimSpace(history[k].files[path]) == model {
        var found := DeviceName.Find(path);
        return Ok(DeviceName.DropControllers(found));
      }
      return Err(NotExist);
    }

    method CheckIfNvmeDeviceExists(k: nat, model: string, ignore: PathSet?) returns (name: Result<string, Error>)
      requires k < |history|
      modifies this`log, ignore
      ensures var o := Scan(View(history[k], model), Glob(history[k]), old(Remembered(ignore)));
              && log == old(log) + o.log
              && Remembered(ignore) == o.ignore
              && (name.Ok? <==> o.hit.Some?)
              && (o.hit.Some? ==> name.value == DeviceName.DeviceOf(o.hit.value))
      ensures history[k].glob.None? <==> name == Err(BadPattern)
    {
      if history[k].glob.None? {
        return Err(BadPattern);
      }
      ghost var r := View(history[k], model);
      var paths := history[k].glob.value;
      ghost var whole, done := Scan(r, paths, Remembered(ignore)), [];
      for i := 0 to |paths|
        invariant log == old(log) + done
        invariant Continues(whole, done, Scan(r, paths[i..], Remembered(ignore)))
      {
        var path := paths[i];
        ghost var rest := Scan(r, paths[i..], Remembered(ignore));
        ScanStep(r, paths, i, Remembered(ignore));
        if ignore != null {
          if path in ignore.paths {
            continue;
          }
          ignore.paths := ignore.paths + {path};
        }
        var device := GetNvmeDeviceName(k, path, model);
        ghost var sofar := done;
        done := done + [path];
        if device.Ok? && device.value != "" {
          return device;
        }
        ContinuesOn(whole, sofar, rest, [path], Scan(r, paths[i + 1..], Remembered(ignore)));
      }
      return Err(NotExist);
    }

    /** Up to twenty rescans, a second apart. */
    method DetectNvmeDeviceName(model: string) returns (name: Result<string, Error>)
      requires |history| == 20
      modifies this`log
      ensures var o := Detect(Views(history, model), 0, Some({}));
              && log == old(log) + o.log
              && name == if o.hit.Some? then Ok(DeviceName.DeviceOf(o.hit.value.path)) else Err(DeadlineExceeded)
    {
      var visited := new PathSet();
      name := Rescan(model, visited, Views(history, model));
    }

    /** The loop, with a fresh set of visited paths. */
    method Rescan(model: string, visited: PathSet, ghost rounds: seq<Round>) returns (name: Result<string, Error>)
      requires |history| == 20 == |rounds| && visited.paths == {}
      requires forall k :: 0 <= k < 20 ==> rounds[k] == View(history[k], model)
      modifies this`log, visited
      ensures var o := Detect(rounds, 0, Some({}));
              && log == old(log) + o.log
              && name == if o.hit.Some? then Ok(DeviceName.DeviceOf(o.hit.value.path)) else Err(DeadlineExceeded)
    {
      ghost var whole, done := Detect(rounds, 0, Some({})), [];
      for second := 0 to 20
        invariant log == old(log) + done
        invariant Continues(whole, done, Detect(rounds, second, Some(visited.paths)))
      {
        ghost var scan := Scan(rounds[second], rounds[second].paths, Some(visited.paths));
        DetectStep(whole, done, rounds, second, Some(visited.paths));
        var device := CheckIfNvmeDeviceExists(second, model, visited);
        done := done + scan.log;
        if device.Ok? {
          return device;
        }
      }
      return Err(DeadlineExceeded);
    }
  }
}
