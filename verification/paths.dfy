/** The part of `pathlib.Path` the batch processor uses: a path is the sequence of its
    components below the filesystem root; `Str` renders it (`str(path)`), `Parse`
    reads it back (`Path(s)`), and `Name`, `Stem` and `Suffix` take its last component
    apart the way `Path.name`, `Path.stem` and `Path.suffix` do. */
module Paths {

  type Path = seq<string>

  /** A component `Path(s)` can produce: non-empty, not ".", without a separator. */
  predicate ValidComponent(c: string) {
    |c| > 0 && c != "." && '/' !in c
  }

  predicate ValidPath(p: Path) {
    forall i :: 0 <= i < |p| ==> ValidComponent(p[i])
  }

  /** `p.name`; the root's name is empty. */
  function Name(p: Path): string {
    if |p| == 0 then "" else p[|p| - 1]
  }

  /** `p.parent`; the root is its own parent. */
  function Parent(p: Path): Path {
    if |p| == 0 then [] else p[..|p| - 1]
  }

  /** `d / n`. */
  function Child(d: Path, n: string): (r: Path)
    ensures Parent(r) == d && Name(r) == n
  {
    d + [n]
  }

  /** `str(p)`: "/" for the root, "/a/b" otherwise. */
  function Str(p: Path): string {
    if |p| == 0 then "/" else Render(p)
  }

  function Render(p: Path): string {
    if |p| == 0 then "" else "/" + p[0] + Render(p[1..])
  }

  /** `s.split("/")`. */
  function Split(s: string): (r: seq<string>)
    ensures |r| >= 1
  {
    if |s| == 0 then [""]
    else
      var rest := Split(s[1..]);
      if s[0] == '/' then [""] + rest else [[s[0]] + rest[0]] + rest[1..]
  }

  /** The components of a split path that `Path(s)` keeps: empty and "." parts go. */
  function Keep(parts: seq<string>): (r: Path)
    ensures ValidPath(parts) ==> r == parts
  {
    if |parts| == 0 then []
    else if parts[0] == "" || parts[0] == "." then Keep(parts[1..])
    else [parts[0]] + Keep(parts[1..])
  }

  /** `Path(s)`, read from the root: repeated separators and "." components vanish. */
  function Parse(s: string): Path {
    Keep(Split(s))
  }

  lemma SplitSlash(t: string)
    ensures Split("/" + t) == [""] + Split(t)
  {
    assert ("/" + t)[1..] == t;
  }

  lemma {:induction false} SplitPlainPrefix(c: string, t: string)
    requires '/' !in c
    ensures Split(c + t) == [c + Split(t)[0]] + Split(t)[1..]
    decreases |c|
  {
    if |c| == 0 {
      assert c + t == t;
      assert c + Split(t)[0] == Split(t)[0];
      assert Split(t) == [Split(t)[0]] + Split(t)[1..];
    } else {
      assert (c + t)[1..] == c[1..] + t;
      assert '/' !in c[1..] by {
        forall k | 0 <= k < |c[1..]| ensures c[1..][k] != '/' {
          assert c[1..][k] == c[k + 1];
        }
      }
      SplitPlainPrefix(c[1..], t);
      assert [c[0]] + (c[1..] + Split(t)[0]) == c + Split(t)[0];
    }
  }

  lemma {:induction false} SplitRender(p: Path)
    requires ValidPath(p) && |p| > 0
    ensures Split(Render(p)) == [""] + p
    decreases |p|
  {
    var rest := p[1..];
    assert Render(p) == "/" + (p[0] + Render(rest));
    SplitSlash(p[0] + Render(rest));
    SplitPlainPrefix(p[0], Render(rest));
    if |rest| == 0 {
      assert Split(Render(rest)) == [""];
      assert p[0] + "" == p[0];
      assert p == [p[0]];
    } else {
      SplitRender(rest);
      assert p[0] + "" == p[0];
      assert p == [p[0]] + rest;
    }
  }

  /** Reading back a rendered path gives the same path. */
  lemma ParseStr(p: Path)
    requires ValidPath(p)
    ensures Parse(Str(p)) == p
  {
    if |p| == 0 {
      assert Str(p) == "/" + "";
      SplitSlash("");
      assert Split("") == [""];
      assert Split(Str(p)) == ["", ""];
      assert ["", ""][1..] == [""] && [""][1..] == [];
    } else {
      SplitRender(p);
    }
  }

  /** `name.rfind(".")`. */
  function LastDot(name: string): (i: int)
    ensures -1 <= i < |name|
    ensures i >= 0 ==> name[i] == '.'
    ensures forall j :: i < j < |name| ==> name[j] != '.'
  {
    if |name| == 0 then -1
    else if name[|name| - 1] == '.' then |name| - 1
    else LastDot(name[..|name| - 1])
  }

  lemma {:induction false} LastDotAt(name: string, i: int)
    requires -1 <= i < |name|
    requires i >= 0 ==> name[i] == '.'
    requires forall j :: i < j < |name| ==> name[j] != '.'
    ensures LastDot(name) == i
    decreases |name|
  {
    if |name| > 0 && name[|name| - 1] != '.' {
      var prefix := name[..|name| - 1];
      assert forall j :: i < j < |prefix| ==> prefix[j] == name[j];
      LastDotAt(prefix, i);
    }
  }

  /** `Path(name).suffix`: from the last dot on, unless that dot leads or ends the name. */
  function Suffix(name: string): string {
    var i := LastDot(name);
    if 0 < i < |name| - 1 then name[i..] else ""
  }

  /** `Path(name).stem`: the name without its suffix. */
  function Stem(name: string): string {
    var i := LastDot(name);
    if 0 < i < |name| - 1 then name[..i] else name
  }

  /** Stem and suffix split the name; a suffix is a dot and at least one more
      character, none of them a dot. */
  lemma StemSuffixSplit(name: string)
    ensures Stem(name) + Suffix(name) == name
    ensures Suffix(name) == "" || (|Suffix(name)| >= 2 && Suffix(name)[0] == '.' && '.' !in Suffix(name)[1..])
    ensures '.' !in name ==> Stem(name) == name && Suffix(name) == ""
  {
    var i := LastDot(name);
    if 0 < i < |name| - 1 {
      assert name[..i] + name[i..] == name;
      assert forall k :: 0 <= k < |name[i..][1..]| ==> name[i..][1..][k] == name[i + 1 + k];
    }
  }
}
