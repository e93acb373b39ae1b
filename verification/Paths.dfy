/** The lexical path functions of Go's path/filepath (Unix) that the node service uses. */
module Paths {

  /** The components between slashes; empty ones included. */
  function Split(p: string): (cs: seq<string>)
    ensures |cs| >= 1
  {
    if p == "" then [""]
    else
      var rest := Split(p[1..]);
      if p[0] == '/' then [""] + rest else [[p[0]] + rest[0]] + rest[1..]
  }

  function Glue(cs: seq<string>): string {
    if cs == [] then "" else if |cs| == 1 then cs[0] else cs[0] + "/" + Glue(cs[1..])
  }

  /** Drops empty and "." components and resolves ".." against what precedes it. */
  function Reduce(rooted: bool, cs: seq<string>, out: seq<string>): seq<string>
    decreases |cs|
  {
    if cs == [] then out
    else if cs[0] == "" || cs[0] == "." then Reduce(rooted, cs[1..], out)
    else if cs[0] == ".." then
      if out != [] && out[|out| - 1] != ".." then Reduce(rooted, cs[1..], out[..|out| - 1])
      else if rooted then Reduce(rooted, cs[1..], out)
      else Reduce(rooted, cs[1..], out + [".."])
    else Reduce(rooted, cs[1..], out + [cs[0]])
  }

  function Render(rooted: bool, out: seq<string>): string {
    if rooted then "/" + Glue(out) else if out == [] then "." else Glue(out)
  }

  function Clean(p: string): string {
    if p == "" then "." else Render(p[0] == '/', Reduce(p[0] == '/', Split(p), []))
  }

  function Join(a: string, b: string): string {
    if a != "" then Clean(a + "/" + b) else if b != "" then Clean(b) else ""
  }

  function LastSlash(p: string): (k: int)
    ensures -1 <= k < |p|
  {
    if p == "" then -1 else if p[|p| - 1] == '/' then |p| - 1 else LastSlash(p[..|p| - 1])
  }

  function Dir(p: string): string {
    Clean(p[..LastSlash(p) + 1])
  }

  /** `dir` and every directory above it, as created by os.MkdirAll for a clean path. */
  function Ancestry(dir: string): set<string> {
    {dir} + set i | 0 < i < |dir| && dir[i] == '/' :: dir[..i]
  }

  // ---------------------------------------------------------------------

  lemma {:induction false} SplitWord(w: string)
    requires '/' !in w
    ensures Split(w) == [w]
  {
    if w != "" {
      SplitWord(w[1..]);
      assert [w[0]] + w[1..] == w;
    }
  }

  lemma {:induction false} SplitConcat(p: string, w: string)
    requires '/' !in w
    ensures Split(p + "/" + w) == Split(p) + [w]
  {
    var q := p + "/" + w;
    if p == "" {
      assert q[1..] == w;
      SplitWord(w);
    } else {
      assert q[1..] == p[1..] + "/" + w;
      SplitConcat(p[1..], w);
    }
  }

  predicate Ordinary(w: string) { w != "" && w != "." && w != ".." && '/' !in w }

  /** What one more component does to the components kept so far. */
  function Then(rooted: bool, out: seq<string>, w: string): seq<string> {
    if w == "" || w == "." then out
    else if w == ".." then
      if out != [] && out[|out| - 1] != ".." then out[..|out| - 1] else if rooted then out else out + [".."]
    else out + [w]
  }

  lemma {:induction false} ReduceThen(rooted: bool, cs: seq<string>, w: string, out: seq<string>)
    ensures Reduce(rooted, cs + [w], out) == Then(rooted, Reduce(rooted, cs, out), w)
    decreases |cs|
  {
    if cs != [] {
      assert (cs + [w])[1..] == cs[1..] + [w];
      ReduceThen(rooted, cs[1..], w, Then(rooted, out, cs[0]));
    } else {
      assert (cs + [w])[1..] == [];
    }
  }

  lemma ReduceAppend(rooted: bool, cs: seq<string>, w: string, out: seq<string>)
    requires w != "" && w != "." && w != ".."
    ensures Reduce(rooted, cs + [w], out) == Reduce(rooted, cs, out) + [w]
  {
    ReduceThen(rooted, cs, w, out);
  }

  lemma {:induction false} GlueAppend(out: seq<string>, w: string)
    requires out != []
    ensures Glue(out + [w]) == Glue(out) + "/" + w
  {
    if |out| > 1 {
      assert (out + [w])[1..] == out[1..] + [w];
      GlueAppend(out[1..], w);
    }
  }

  function Kept(dir: string): seq<string>
    requires dir != ""
  {
    Reduce(dir[0] == '/', Split(dir), [])
  }

  lemma NothingKept()
    ensures Kept("/") == [] && Kept(".") == []
  {
  }

  lemma JoinParts(dir: string, id: string)
    requires '/' !in id && id != "" && id != "." && id != ".." && dir != ""
    ensures Kept(dir) == [] ==> |Join(dir, id)| <= 1 + |id|
    ensures Kept(dir) != [] ==> Join(dir, id) == Clean(dir) + ("/" + id)
  {
    KeptAppend(dir, id);
    if Kept(dir) == [] {
      assert Kept(dir) + [id] == [id];
    } else {
      RenderAppend(dir[0] == '/', Kept(dir), id);
    }
  }

  lemma RenderAppend(rooted: bool, out: seq<string>, id: string)
    requires out != []
    ensures Render(rooted, out + [id]) == Render(rooted, out) + ("/" + id)
  {
    GlueAppend(out, id);
    var g := Glue(out);
    assert g + "/" + id == g + ("/" + id);
    assert "/" + (g + ("/" + id)) == "/" + g + ("/" + id);
  }

  lemma KeptAppend(dir: string, id: string)
    requires '/' !in id && id != "" && id != "." && id != ".." && dir != ""
    ensures Join(dir, id) == Render(dir[0] == '/', Kept(dir) + [id])
  {
    assert (dir + "/" + id)[0] == dir[0];
    SplitConcat(dir, id);
    ReduceAppend(dir[0] == '/', Split(dir), id, []);
  }

  /**
   * Publish joins the staging directory and the volume ID with filepath.Join, stage
   * and unstage by plain concatenation. For a volume ID that is a single ordinary
   * component the two agree exactly for a clean directory other than "/" and ".".
   */
  lemma JoinIsConcatenation(dir: string, id: string)
    requires '/' !in id && id != "" && id != "." && id != ".."
    ensures Join(dir, id) == dir + "/" + id <==> Clean(dir) == dir && dir != "/" && dir != "."
  {
    NothingKept();
    if dir == "" {
      SplitWord(id);
      ReduceAppend(false, [], id, []);
      assert [] + [id] == [id];
      assert |Join(dir, id)| == |id|;
    } else {
      JoinParts(dir, id);
      assert dir + "/" + id == dir + ("/" + id);
      Cancel(Clean(dir), dir, "/" + id);
    }
  }

  lemma Cancel(a: string, b: string, s: string)
    ensures a + s == b + s <==> a == b
  {
    if a + s == b + s {
      assert |a| == |b|;
      assert a == (a + s)[..|a|] == (b + s)[..|b|];
    }
  }

  /** Where the two spellings part: the root directory doubles its slash. */
  lemma RootDiffers(id: string)
    requires '/' !in id && id != "" && id != "." && id != ".."
    ensures Join("/", id) != "/" + "/" + id
  {
    JoinIsConcatenation("/", id);
  }

  // ---------------------------------------------------------------------
  // What Clean and Dir compute, by their laws.

  lemma KeptThen(p: string, w: string)
    requires p != "" && '/' !in w
    ensures Kept(p + "/" + w) == Then(p[0] == '/', Kept(p), w)
  {
    assert (p + "/" + w)[0] == p[0];
    SplitConcat(p, w);
    ReduceThen(p[0] == '/', Split(p), w, []);
  }

  /** A trailing slash and a "." mean nothing; an ordinary component and ".." cancel; ".." above the root is the root. */
  lemma CleanLaws(p: string, w: string)
    requires p != "" && Ordinary(w)
    ensures Clean(p + "/") == Clean(p)
    ensures Clean(p + "/" + ".") == Clean(p)
    ensures Clean(p + "/" + w + "/" + "..") == Clean(p)
    ensures p[0] == '/' && Clean(p) == "/" ==> Clean(p + "/" + "..") == "/"
  {
    KeptThen(p, "");
    assert p + "/" + "" == p + "/";
    KeptThen(p, ".");
    KeptThen(p, w);
    KeptThen(p + "/" + w, "..");
    assert (Kept(p) + [w])[..|Kept(p)|] == Kept(p);
    KeptThen(p, "..");
    if p[0] == '/' && Clean(p) == "/" {
      RootKeepsNothing(p);
    }
  }

  lemma RootKeepsNothing(p: string)
    requires p != "" && p[0] == '/' && Clean(p) == "/"
    ensures Kept(p) == []
  {
    KeptIsNormal(p);
    if Kept(p) != [] {
      GlueNotEmpty(Kept(p));
    }
  }

  /** Components without slashes, none of them empty or "."; ".." only in front, and not below the root. */
  ghost predicate Normal(rooted: bool, out: seq<string>) {
    && (forall i :: 0 <= i < |out| ==> out[i] != "" && out[i] != "." && '/' !in out[i])
    && (forall i :: 0 <= i < |out| && out[i] == ".." ==> !rooted && (i > 0 ==> out[i - 1] == ".."))
  }

  lemma ThenIsNormal(rooted: bool, out: seq<string>, w: string)
    requires Normal(rooted, out) && '/' !in w
    ensures Normal(rooted, Then(rooted, out, w))
  {
  }

  lemma {:induction false} ReduceIsNormal(rooted: bool, cs: seq<string>, out: seq<string>)
    requires Normal(rooted, out) && forall i :: 0 <= i < |cs| ==> '/' !in cs[i]
    ensures Normal(rooted, Reduce(rooted, cs, out))
    decreases |cs|
  {
    if cs != [] {
      ThenIsNormal(rooted, out, cs[0]);
      ReduceIsNormal(rooted, cs[1..], Then(rooted, out, cs[0]));
    }
  }

  lemma {:induction false} SplitHasNoSlash(p: string)
    ensures forall i :: 0 <= i < |Split(p)| ==> '/' !in Split(p)[i]
  {
    if p != "" {
      SplitHasNoSlash(p[1..]);
    }
  }

  /** What is kept of a path is in normal form. */
  lemma KeptIsNormal(p: string)
    requires p != ""
    ensures Normal(p[0] == '/', Kept(p))
  {
    SplitHasNoSlash(p);
    ReduceIsNormal(p[0] == '/', Split(p), []);
  }

  lemma {:induction false} GlueNotEmpty(out: seq<string>)
    requires out != [] && out[0] != ""
    ensures Glue(out) != "" && Glue(out)[0] == out[0][0]
  {
  }

  lemma {:induction false} SplitGlue(out: seq<string>)
    requires out != [] && forall i :: 0 <= i < |out| ==> '/' !in out[i]
    ensures Split(Glue(out)) == out
    decreases |out|
  {
    if |out| == 1 {
      SplitWord(out[0]);
    } else {
      var init, last := out[..|out| - 1], out[|out| - 1];
      assert out == init + [last];
      GlueAppend(init, last);
      SplitGlue(init);
      SplitConcat(Glue(init), last);
    }
  }

  lemma {:induction false} ReduceNormal(rooted: bool, out: seq<string>)
    requires Normal(rooted, out)
    ensures Reduce(rooted, out, []) == out
    decreases |out|
  {
    if out != [] {
      var init, last := out[..|out| - 1], out[|out| - 1];
      assert out == init + [last] && '/' !in last;
      ReduceNormal(rooted, init);
      ReduceThen(rooted, init, last, []);
    }
  }

  lemma RenderBack(rooted: bool, out: seq<string>)
    requires Normal(rooted, out)
    ensures var p := Render(rooted, out);
            p != "" && (p[0] == '/' <==> rooted) && Kept(p) == out
  {
    NothingKept();
    if out != [] {
      GlueNotEmpty(out);
      SplitGlue(out);
      ReduceNormal(rooted, out);
      assert '/' !in out[0];
      if rooted {
        var p := "/" + Glue(out);
        assert p[1..] == Glue(out);
        assert Split(p) == [""] + out;
        assert ([""] + out)[1..] == out;
      }
    } else if rooted {
      assert "/" + "" == "/";
    }
  }

  /** Cleaning twice is cleaning once, and a clean path says the same as the path it came from. */
  lemma CleanTwice(p: string)
    requires p != ""
    ensures Clean(p) != "" && Kept(Clean(p)) == Kept(p) && (Clean(p)[0] == '/' <==> p[0] == '/')
    ensures Clean(Clean(p)) == Clean(p)
  {
    KeptIsNormal(p);
    RenderBack(p[0] == '/', Kept(p));
  }

  /** A directory and everything above it on the same path. */
  lemma AncestryMeans(dir: string, q: string)
    ensures q in Ancestry(dir) <==> q == dir || (q != "" && exists rest :: dir == q + "/" + rest)
  {
    if i :| 0 < i < |dir| && dir[i] == '/' && q == dir[..i] {
      assert dir == q + "/" + dir[i + 1..];
    }
    if rest :| q != "" && dir == q + "/" + rest {
      assert dir[|q|] == '/' && dir[..|q|] == q;
    }
  }

  lemma {:induction false} LastSlashIs(d: string, w: string)
    requires '/' !in w
    ensures LastSlash(d + "/" + w) == |d|
    decreases |w|
  {
    var p := d + "/" + w;
    if w == "" {
      assert p[|p| - 1] == '/';
    } else {
      assert p[|p| - 1] == w[|w| - 1];
      assert p[..|p| - 1] == d + "/" + w[..|w| - 1];
      LastSlashIs(d, w[..|w| - 1]);
    }
  }

  /** The directory of a file is the directory it was put in. */
  lemma DirIsParent(d: string, w: string)
    requires '/' !in w && d != ""
    ensures Dir(d + "/" + w) == Clean(d)
    ensures Dir("/" + w) == "/"
  {
    LastSlashIs(d, w);
    assert (d + "/" + w)[..|d| + 1] == d + "/";
    CleanLaws(d, "x");
    LastSlashIs("", w);
    assert "" + "/" + w == "/" + w && ("/" + w)[..1] == "/";
    NothingKept();
  }

  // ---------------------------------------------------------------------

  /** `p` is `dir + "/" + id` for some directory. */
  predicate EndsIn(p: string, id: string) {
    |p| > |id| && p[|p| - |id| - 1..] == "/" + id
  }

  /** A path ends in one volume ID only, so no two volumes share a staging path. */
  lemma OneOwner(p: string, u: string, v: string)
    requires '/' !in u && '/' !in v && EndsIn(p, u) && EndsIn(p, v)
    ensures u == v
  {
    SlashThenId(p, u);
    SlashThenId(p, v);
    assert u == p[|p| - |u| - 1..][1..] && v == p[|p| - |v| - 1..][1..];
  }

  lemma SlashThenId(p: string, u: string)
    requires '/' !in u && EndsIn(p, u)
    ensures var i := |p| - |u| - 1;
            p[i] == '/' && forall k :: i < k < |p| ==> p[k] != '/'
  {
  }
}
