/**
 * The name under which a worker saves a house's photo:
 *   "id-" + decimal id + "-" + address without trailing dots + "." + extension of the photo URL.
 * `TrimRightDots` is Go's `strings.TrimRight(s, ".")` and `Ext` is `filepath.Ext` with `/`
 * as the only path separator.
 */
module Naming {
  import opened Houses

  /** `s` with every trailing '.' removed. */
  function TrimRightDots(s: string): (r: string)
    ensures r <= s
    ensures r == [] || r[|r| - 1] != '.'
    ensures forall i | |r| <= i < |s| :: s[i] == '.'
    decreases |s|
  {
    if s != [] && s[|s| - 1] == '.' then TrimRightDots(s[..|s| - 1]) else s
  }

  /** The three properties in `TrimRightDots`'s contract single out its result. */
  lemma TrimRightDotsUnique(s: string, t: string)
    requires t <= s
    requires t == [] || t[|t| - 1] != '.'
    requires forall i | |t| <= i < |s| :: s[i] == '.'
    ensures t == TrimRightDots(s)
  {
  }

  /** An address that does not end in '.' is used as it is. */
  lemma TrimRightDotsKeepsUndotted(s: string)
    requires s == [] || s[|s| - 1] != '.'
    ensures TrimRightDots(s) == s
  {
  }

  /** Trimming twice is trimming once. */
  lemma TrimRightDotsIdempotent(s: string)
    ensures TrimRightDots(TrimRightDots(s)) == TrimRightDots(s)
  {
    TrimRightDotsKeepsUndotted(TrimRightDots(s));
  }

  /** Appending dots to an address does not change its trimmed form. */
  lemma {:induction false} TrimRightDotsIgnoresAddedDots(s: string, dots: string)
    requires forall i | 0 <= i < |dots| :: dots[i] == '.'
    ensures TrimRightDots(s + dots) == TrimRightDots(s)
    decreases |dots|
  {
    if dots != [] {
      var shorter := dots[..|dots| - 1];
      assert (s + dots)[|s + dots| - 1] == '.';
      assert (s + dots)[..|s + dots| - 1] == s + shorter;
      assert TrimRightDots(s + dots) == TrimRightDots(s + shorter);
      TrimRightDotsIgnoresAddedDots(s, shorter);
    } else {
      assert s + dots == s;
    }
  }

  /**
   * The extension of `path`: the suffix starting at the last '.' that comes after the last '/',
   * dot included, or "" when the last path element has no '.'.
   */
  function Ext(path: string): (e: string)
    ensures |e| <= |path| && e == path[|path| - |e|..]
    ensures e != [] ==> e[0] == '.' && forall i | 1 <= i < |e| :: e[i] != '.' && e[i] != '/'
    ensures e == [] ==> forall i | 0 <= i < |path| && path[i] == '.' :: '/' in path[i + 1..]
    decreases |path|
  {
    if path == [] || path[|path| - 1] == '/' then ""
    else if path[|path| - 1] == '.' then "."
    else
      var e := Ext(path[..|path| - 1]);
      if e == [] then [] else e + [path[|path| - 1]]
  }

  /** Appending a character other than '.' or '/' extends a non-empty extension by it. */
  lemma ExtAppend(path: string, c: char)
    requires c != '.' && c != '/'
    ensures Ext(path + [c]) == if Ext(path) == [] then [] else Ext(path) + [c]
  {
    assert (path + [c])[..|path|] == path;
  }

  /** A URL ending in "." followed by a name without '.' or '/' has that name, dot first, as its extension. */
  lemma {:induction false} ExtOfDottedName(base: string, name: string)
    requires forall i | 0 <= i < |name| :: name[i] != '.' && name[i] != '/'
    ensures Ext(base + "." + name) == "." + name
    decreases |name|
  {
    if name == [] {
      assert base + "." + name == base + ".";
    } else {
      var shorter := name[..|name| - 1];
      var last := name[|name| - 1];
      assert base + "." + name == (base + "." + shorter) + [last];
      ExtOfDottedName(base, shorter);
      ExtAppend(base + "." + shorter, last);
      assert ("." + shorter) + [last] == "." + name;
    }
  }

  /** The file name a worker derives for `h` (the format "id-%d-%s.%s"). */
  function FileName(h: House): string {
    "id-" + Decimal(h.id) + "-" + TrimRightDots(h.address) + "." + Ext(h.photoURL)
  }

  /**
   * Because `Ext` keeps its dot and the format adds one, a photo URL such as ".../a.jpg"
   * yields a name ending in "..jpg".
   */
  lemma FileNameDoubleDot(h: House, base: string, name: string)
    requires h.photoURL == base + "." + name
    requires forall i | 0 <= i < |name| :: name[i] != '.' && name[i] != '/'
    ensures FileName(h) == "id-" + Decimal(h.id) + "-" + TrimRightDots(h.address) + ".." + name
  {
    ExtOfDottedName(base, name);
  }

  /** A photo URL whose last element has no '.' yields a name ending in a lone '.'. */
  lemma FileNameWithoutExtension(h: House)
    requires forall i | 0 <= i < |h.photoURL| && h.photoURL[i] == '.' :: '/' in h.photoURL[i + 1..]
    ensures FileName(h) == "id-" + Decimal(h.id) + "-" + TrimRightDots(h.address) + "."
  {
  }

  /**
   * Names are not unique: two houses with the same id and photo URL whose addresses differ
   * only in trailing dots get the same name.
   */
  lemma FileNamesCollide(h: House, dots: string)
    requires forall i | 0 <= i < |dots| :: dots[i] == '.'
    ensures FileName(h.(address := h.address + dots)) == FileName(h)
  {
    TrimRightDotsIgnoresAddedDots(h.address, dots);
  }

  /** A rendered id followed by a field that starts with '-' determines the id. */
  lemma DecimalFieldDistinct(i1: int, i2: int, r1: string, r2: string)
    requires i1 != i2 && |r1| > 0 && |r2| > 0 && r1[0] == '-' && r2[0] == '-'
    ensures Decimal(i1) + r1 != Decimal(i2) + r2
  {
    var d1, d2 := Decimal(i1), Decimal(i2);
    var n1, n2 := d1 + r1, d2 + r2;
    DecimalRoundTrip(i1);
    DecimalRoundTrip(i2);
    if |d1| == |d2| {
      assert d1 != d2;
      var k :| 0 <= k < |d1| && d1[k] != d2[k];
      assert n1[k] == d1[k] && n2[k] == d2[k];
    } else if |d1| < |d2| {
      assert n1[|d1|] == '-' && n2[|d1|] == d2[|d1|];
      assert d2[|d1|] == d2[1..][|d1| - 1];
    } else {
      assert n2[|d2|] == '-' && n1[|d2|] == d1[|d2|];
      assert d1[|d2|] == d1[1..][|d2| - 1];
    }
  }

  /** Splits a name built left to right into its first part and the rest. */
  lemma Regroup(a: string, b: string, c: string, d: string, e: string, f: string)
    ensures a + b + c + d + e + f == a + (b + (c + d + e + f))
  {
  }

  /** A collision needs a repeated id: houses with different ids never share a name. */
  lemma DistinctIdsDistinctNames(h1: House, h2: House)
    requires h1.id != h2.id
    ensures FileName(h1) != FileName(h2)
  {
    var r1 := "-" + TrimRightDots(h1.address) + "." + Ext(h1.photoURL);
    var r2 := "-" + TrimRightDots(h2.address) + "." + Ext(h2.photoURL);
    DecimalFieldDistinct(h1.id, h2.id, r1, r2);
    Regroup("id-", Decimal(h1.id), "-", TrimRightDots(h1.address), ".", Ext(h1.photoURL));
    Regroup("id-", Decimal(h2.id), "-", TrimRightDots(h2.address), ".", Ext(h2.photoURL));
    var x1, x2 := Decimal(h1.id) + r1, Decimal(h2.id) + r2;
    assert ("id-" + x1)[3..] == x1 && ("id-" + x2)[3..] == x2;
  }

  /** As written, the character before the extension's own dot is another '.'. */
  lemma DotBeforeExtension(h: House, base: string, name: string)
    requires h.photoURL == base + "." + name
    requires forall i | 0 <= i < |name| :: name[i] != '.' && name[i] != '/'
    ensures var n := FileName(h);
      |n| >= |name| + 2 && n[|n| - |name| - 1..] == "." + name && n[|n| - |name| - 2] == '.'
  {
    FileNameDoubleDot(h, base, name);
    var stem := "id-" + Decimal(h.id) + "-" + TrimRightDots(h.address);
    assert FileName(h) == (stem + ".") + ("." + name);
  }

  /** The name the trimming of trailing dots evidently aims at: one '.' before the extension. */
  function FileNameSingleDot(h: House): string {
    "id-" + Decimal(h.id) + "-" + TrimRightDots(h.address) + Ext(h.photoURL)
  }

  /** With the corrected format, the extension's dot is the only '.' there. */
  lemma SingleDotBeforeExtension(h: House, base: string, name: string)
    requires h.photoURL == base + "." + name
    requires forall i | 0 <= i < |name| :: name[i] != '.' && name[i] != '/'
    ensures var n := FileNameSingleDot(h);
      |n| >= |name| + 2 && n[|n| - |name| - 1..] == "." + name && n[|n| - |name| - 2] != '.'
  {
    ExtOfDottedName(base, name);
    var stem := "id-" + Decimal(h.id) + "-" + TrimRightDots(h.address);
    assert FileNameSingleDot(h) == stem + ("." + name);
    assert stem[|stem| - 1] != '.';
  }
}
