/**
 * The device name in a sysfs path (pkg/util/util.go): leftmost-first search for
 * nvme(\d+)n(\d+)|nvme(\d+)c(\d+)n(\d+), then removal of every c(\d+).
 */
module DeviceName {
  import opened Common

  predicate IsDigit(c: char) { '0' <= c <= '9' }

  /** Length of the run of digits at the start of `s`. */
  function DigitRun(s: string): (n: nat)
    ensures n <= |s|
  {
    if s == "" || !IsDigit(s[0]) then 0 else 1 + DigitRun(s[1..])
  }

  /** The letter `c` and a run of digits, at the start of `s`. */
  function Numbered(c: char, s: string): (n: nat)
    ensures n <= |s| && n != 1
  {
    if s != "" && s[0] == c && DigitRun(s[1..]) > 0 then 1 + DigitRun(s[1..]) else 0
  }

  /** `s` starts with nvme. */
  predicate Nvme(s: string) {
    4 <= |s| && s[0] == 'n' && s[1] == 'v' && s[2] == 'm' && s[3] == 'e'
  }

  /** What may follow nvme and a number: n(\d+), or else c(\d+)n(\d+). Its length, 0 for neither. */
  function AfterDigits(s: string): (n: nat)
    ensures n <= |s|
  {
    var c := Numbered('c', s);
    if Numbered('n', s) > 0 then Numbered('n', s)
    else if c > 0 && Numbered('n', s[c..]) > 0 then c + Numbered('n', s[c..])
    else 0
  }

  /** Length of the match at the start of `s`; the first alternative is preferred. */
  function Match(s: string): (m: Option<nat>)
    ensures m.Some? ==> 0 < m.value <= |s|
  {
    if !Nvme(s) || DigitRun(s[4..]) == 0 then None
    else
      var d := 4 + DigitRun(s[4..]);
      var e := AfterDigits(s[d..]);
      if e > 0 then Some(d + e) else None
  }

  /** regexp.FindString: the leftmost match, or the empty string. */
  function Find(s: string): string {
    if Match(s).Some? then s[..Match(s).value]
    else if s == "" then ""
    else Find(s[1..])
  }

  /** regexp.ReplaceAllString of c(\d+) by nothing. */
  function DropControllers(s: string): string {
    if s == "" then ""
    else if Numbered('c', s) > 0 then DropControllers(s[Numbered('c', s)..])
    else [s[0]] + DropControllers(s[1..])
  }

  function DeviceOf(path: string): string {
    DropControllers(Find(path))
  }

  // ---------------------------------------------------------------------

  ghost predicate Digits(s: string) { s != "" && forall i :: 0 <= i < |s| ==> IsDigit(s[i]) }

  ghost predicate NoDigitFirst(t: string) { t == "" || !IsDigit(t[0]) }

  ghost predicate NoMatch(s: string) {
    Match(s).None? && (s == "" || NoMatch(s[1..]))
  }

  lemma {:induction false} RunOfDigits(x: string, t: string)
    requires (forall i :: 0 <= i < |x| ==> IsDigit(x[i])) && NoDigitFirst(t)
    ensures DigitRun(x + t) == |x|
  {
    if x == "" {
      assert x + t == t;
    } else {
      assert (x + t)[1..] == x[1..] + t;
      RunOfDigits(x[1..], t);
    }
  }

  lemma {:induction false} RunStops(s: string, t: string)
    requires NoDigitFirst(t)
    ensures DigitRun(s + t) == DigitRun(s)
  {
    if s == "" {
      assert s + t == t;
    } else {
      assert (s + t)[1..] == s[1..] + t;
      RunStops(s[1..], t);
    }
  }

  lemma NumberedStops(c: char, s: string, t: string)
    requires t == "" || t[0] == '/'
    requires c != '/'
    ensures Numbered(c, s + t) == Numbered(c, s)
  {
    if s == "" {
      assert s + t == t;
    } else {
      assert (s + t)[1..] == s[1..] + t;
      RunStops(s[1..], t);
    }
  }

  lemma NvmeStops(s: string, t: string)
    requires t == "" || t[0] == '/'
    ensures Nvme(s + t) == Nvme(s)
  {
  }

  lemma AfterDigitsStops(s: string, t: string)
    requires t == "" || t[0] == '/'
    ensures AfterDigits(s + t) == AfterDigits(s)
  {
    NumberedStops('n', s, t);
    NumberedStops('c', s, t);
    var c := Numbered('c', s);
    assert (s + t)[c..] == s[c..] + t;
    NumberedStops('n', s[c..], t);
  }

  /** No match reaches across a slash. */
  lemma MatchStops(s: string, t: string)
    requires t == "" || t[0] == '/'
    ensures Match(s + t) == Match(s)
  {
    NvmeStops(s, t);
    if Nvme(s) {
      assert (s + t)[4..] == s[4..] + t;
      RunStops(s[4..], t);
      var d := 4 + DigitRun(s[4..]);
      assert (s + t)[d..] == s[d..] + t;
      AfterDigitsStops(s[d..], t);
    }
  }

  lemma {:induction false} FindSkips(s: string, t: string)
    requires NoMatch(s) && (t == "" || t[0] == '/')
    ensures Find(s + t) == Find(t)
  {
    if s == "" {
      assert s + t == t;
    } else {
      MatchStops(s, t);
      assert (s + t)[1..] == s[1..] + t;
      FindSkips(s[1..], t);
    }
  }

  /** nvmeXnZ */
  function Plain(x: string, z: string): string { "nvme" + (x + ("n" + z)) }

  /** nvmeXcYnZ */
  function WithController(x: string, y: string, z: string): string { "nvme" + (x + ("c" + (y + ("n" + z)))) }

  lemma NumberedIs(c: char, z: string, t: string)
    requires Digits(z) && NoDigitFirst(t)
    ensures Numbered(c, [c] + z + t) == 1 + |z|
  {
    assert ([c] + z + t)[1..] == z + t;
    RunOfDigits(z, t);
  }

  lemma MatchIs(s: string, x: string, tail: string)
    requires s == "nvme" + (x + tail)
    requires Digits(x) && NoDigitFirst(tail) && AfterDigits(tail) > 0
    ensures Match(s) == Some(4 + |x| + AfterDigits(tail))
  {
    assert Nvme(s) && s[4..] == x + tail;
    RunOfDigits(x, tail);
    assert s[4 + |x|..] == tail;
  }

  lemma AfterPlain(z: string, t: string)
    requires Digits(z) && (t == "" || t[0] == '/')
    ensures AfterDigits("n" + z + t) == 1 + |z|
  {
    NumberedIs('n', z, t);
  }

  lemma AfterController(y: string, z: string, t: string)
    requires Digits(y) && Digits(z) && (t == "" || t[0] == '/')
    ensures AfterDigits("c" + y + ("n" + z + t)) == 2 + |y| + |z|
  {
    var tail := "n" + z + t;
    NumberedIs('c', y, tail);
    NumberedIs('n', z, t);
    assert ("c" + y + tail)[1 + |y|..] == tail;
  }

  lemma MatchPlain(x: string, z: string, t: string)
    requires Digits(x) && Digits(z) && (t == "" || t[0] == '/')
    ensures Match(Plain(x, z) + t) == Some(|Plain(x, z)|)
  {
    var s, tail := Plain(x, z) + t, "n" + z + t;
    assert s == "nvme" + (x + tail);
    AfterPlain(z, t);
    MatchIs(s, x, tail);
  }

  lemma ControllerShape(x: string, y: string, z: string, t: string)
    ensures WithController(x, y, z) + t == "nvme" + (x + ("c" + y + ("n" + z + t)))
    ensures |WithController(x, y, z)| == 6 + |x| + |y| + |z|
  {
  }

  lemma MatchWithController(s: string, x: string, y: string, z: string, t: string)
    requires Digits(x) && Digits(y) && Digits(z) && (t == "" || t[0] == '/')
    requires s == WithController(x, y, z) + t
    ensures Match(s) == Some(6 + |x| + |y| + |z|)
  {
    ControllerShape(x, y, z, t);
    AfterController(y, z, t);
    MatchIs(s, x, "c" + y + ("n" + z + t));
  }

  lemma {:induction false} NothingToDrop(s: string)
    requires 'c' !in s
    ensures DropControllers(s) == s
  {
    if s != "" {
      NothingToDrop(s[1..]);
      assert s == [s[0]] + s[1..];
    }
  }

  lemma {:induction false} DropAfter(s: string, t: string)
    requires 'c' !in s
    ensures DropControllers(s + t) == s + DropControllers(t)
  {
    if s == "" {
      assert s + t == t;
    } else {
      assert (s + t)[1..] == s[1..] + t;
      DropAfter(s[1..], t);
    }
  }

  lemma DropOne(head: string, y: string, tail: string)
    requires 'c' !in head && Digits(y) && 'c' !in tail && NoDigitFirst(tail)
    ensures DropControllers(head + ("c" + y + tail)) == head + tail
  {
    DropAfter(head, "c" + y + tail);
    NumberedIs('c', y, tail);
    assert ("c" + y + tail)[1 + |y|..] == tail;
    NothingToDrop(tail);
  }

  lemma DropController(x: string, y: string, z: string)
    requires Digits(x) && Digits(y) && Digits(z)
    ensures DropControllers(WithController(x, y, z)) == Plain(x, z)
  {
    DropOne("nvme" + x, y, "n" + z);
    assert WithController(x, y, z) == "nvme" + x + ("c" + y + ("n" + z));
    assert Plain(x, z) == "nvme" + x + ("n" + z);
  }

  lemma FindFirst(w: string, t: string)
    requires Match(w + t) == Some(|w|)
    ensures Find(w + t) == w
  {
  }

  lemma FindAfterSlash(pre: string, w: string, t: string)
    requires NoMatch(pre) && Match(w + t) == Some(|w|)
    ensures Find(pre + ("/" + (w + t))) == w
  {
    var rest := "/" + (w + t);
    FindSkips(pre, rest);
    assert Match(rest).None?;
    assert rest[1..] == w + t;
    FindFirst(w, t);
  }

  lemma PlainHasNoC(x: string, z: string)
    requires Digits(x) && Digits(z)
    ensures 'c' !in Plain(x, z)
  {
  }

  lemma PlainFromPath(pre: string, x: string, z: string, after: string)
    requires Digits(x) && Digits(z) && NoMatch(pre) && (after == "" || after[0] == '/')
    ensures DeviceOf(pre + ("/" + (Plain(x, z) + after))) == Plain(x, z)
  {
    MatchPlain(x, z, after);
    FindAfterSlash(pre, Plain(x, z), after);
    PlainHasNoC(x, z);
    NothingToDrop(Plain(x, z));
  }

  lemma ControllerFromPath(pre: string, x: string, y: string, z: string, after: string)
    requires Digits(x) && Digits(y) && Digits(z) && NoMatch(pre) && (after == "" || after[0] == '/')
    ensures DeviceOf(pre + ("/" + (WithController(x, y, z) + after))) == Plain(x, z)
  {
    var w := WithController(x, y, z);
    ControllerShape(x, y, z, after);
    MatchWithController(w + after, x, y, z, after);
    FindAfterSlash(pre, w, after);
    DropController(x, y, z);
  }

  /**
   * For a path whose directory is nvmeXnZ or nvmeXcYnZ, with any digits and nothing
   * that matches before it, the name that comes out is nvmeXnZ.
   */
  lemma DeviceNameFromPath(pre: string, x: string, y: string, z: string, after: string)
    requires Digits(x) && Digits(y) && Digits(z) && NoMatch(pre) && (after == "" || after[0] == '/')
    ensures DeviceOf(pre + ("/" + (Plain(x, z) + after))) == Plain(x, z)
    ensures DeviceOf(pre + ("/" + (WithController(x, y, z) + after))) == Plain(x, z)
  {
    PlainFromPath(pre, x, z, after);
    ControllerFromPath(pre, x, y, z, after);
  }

  // ---------------------------------------------------------------------
  // The paths the driver globs for.

  lemma {:induction false} NoMatchWithoutN(s: string, t: string)
    requires 'n' !in s && NoMatch(t)
    ensures NoMatch(s + t)
  {
    if s == "" {
      assert s + t == t;
    } else {
      assert (s + t)[1..] == s[1..] + t;
      assert (s + t)[0] == s[0] != 'n';
      NoMatchWithoutN(s[1..], t);
    }
  }

  lemma ControllerNoMatch(s: string, x: string, t: string)
    requires s == "nvme" + x + t
    requires (forall i :: 0 <= i < |x| ==> IsDigit(x[i])) && (t == "" || t[0] == '/')
    ensures Match(s).None? && s[1..] == "vme" + x + t
  {
    assert s[4..] == x + t;
    RunOfDigits(x, t);
    assert s[4 + |x|..] == t;
  }

  lemma WithoutN(x: string)
    requires forall i :: 0 <= i < |x| ==> IsDigit(x[i])
    ensures 'n' !in "vme" + x
  {
  }

  /** nvme and digits, with nothing or a slash behind. */
  lemma NoMatchController(s: string, x: string, t: string)
    requires s == "nvme" + x + t
    requires (forall i :: 0 <= i < |x| ==> IsDigit(x[i])) && (t == "" || t[0] == '/') && NoMatch(t)
    ensures NoMatch(s)
  {
    ControllerNoMatch(s, x, t);
    WithoutN(x);
    NoMatchWithoutN("vme" + x, t);
  }

  /** /sys/bus/pci/devices/<address>/nvme/nvme<number> matches nowhere, for an address without the letter n. */
  lemma SysfsPrefix(address: string, number: string)
    requires 'n' !in address && Digits(number)
    ensures NoMatch("/sys/bus/pci/devices/" + (address + ("/" + ("nvme" + ("/" + ("nvme" + number))))))
  {
    var last := "nvme" + number;
    assert "nvme" + number + "" == last;
    NoMatchController(last, number, "");
    SysfsMiddle(address, last);
  }

  lemma SysfsMiddle(address: string, last: string)
    requires 'n' !in address && NoMatch(last)
    ensures NoMatch("/sys/bus/pci/devices/" + (address + ("/" + ("nvme" + ("/" + last)))))
  {
    var dir := "nvme" + ("/" + last);
    ClassDirectory(dir, last);
    NoMatchWithoutN("/", dir);
    NoMatchWithoutN(address, "/" + dir);
    NoMatchBehindRoot(address + ("/" + dir));
  }

  lemma ClassDirectory(dir: string, last: string)
    requires dir == "nvme" + ("/" + last) && NoMatch(last)
    ensures NoMatch(dir)
  {
    NoMatchWithoutN("/", last);
    assert dir == "nvme" + "" + ("/" + last);
    NoMatchController(dir, "", "/" + last);
  }

  lemma NoMatchBehindRoot(t: string)
    requires NoMatch(t)
    ensures NoMatch("/sys/bus/pci/devices/" + t)
  {
    NoMatchWithoutN("/sys/bus/pci/devices/", t);
  }

  /** On every path the driver globs for, at any PCI address, the name is nvmeXnZ. */
  lemma SysfsDevice(address: string, number: string, x: string, y: string, z: string)
    requires 'n' !in address && Digits(number) && Digits(x) && Digits(y) && Digits(z)
    ensures
      var pre := "/sys/bus/pci/devices/" + (address + ("/" + ("nvme" + ("/" + ("nvme" + number)))));
      && DeviceOf(pre + ("/" + (Plain(x, z) + "/uuid"))) == Plain(x, z)
      && DeviceOf(pre + ("/" + (WithController(x, y, z) + "/uuid"))) == Plain(x, z)
  {
    SysfsPrefix(address, number);
    DeviceNameFromPath("/sys/bus/pci/devices/" + (address + ("/" + ("nvme" + ("/" + ("nvme" + number))))), x, y, z, "/uuid");
  }
}
