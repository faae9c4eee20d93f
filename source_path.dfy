/** Unix file paths as the source-location shortener sees them, and the
    short form it prints: the file name preceded by at most `depth` parent
    directory names. */
module SourcePath {

  /** A cleaned path: whether it starts at the root, and its non-empty
      segments. `Path(true, [])` is "/", `Path(false, [])` is ".". */
  datatype Path = Path(absolute: bool, segments: seq<string>)

  const Root: Path := Path(true, [])
  const Dot: Path := Path(false, [])

  /** A segment of a cleaned path: not empty, not ".", and free of the separator. */
  ghost predicate ValidSegment(s: string) {
    s != "" && s != "." && '/' !in s
  }

  ghost predicate Valid(p: Path) {
    forall i :: 0 <= i < |p.segments| ==> ValidSegment(p.segments[i])
  }

  /** filepath.Base: the last segment, or "/" / "." when there is none. */
  function Base(p: Path): string {
    if p.segments == [] then (if p.absolute then "/" else ".")
    else p.segments[|p.segments| - 1]
  }

  /** filepath.Dir: everything but the last segment; "/" and "." are their own Dir. */
  function Dir(p: Path): Path {
    if p.segments == [] then p
    else Path(p.absolute, p.segments[..|p.segments| - 1])
  }

  /** filepath.Join of non-empty, already clean elements: separated by "/". */
  function Join(parts: seq<string>): string {
    if parts == [] then ""
    else if |parts| == 1 then parts[0]
    else parts[0] + "/" + Join(parts[1..])
  }

  /** The path as text. */
  function Render(p: Path): string {
    if p.segments == [] then Base(p)
    else (if p.absolute then "/" else "") + Join(p.segments)
  }

  /** A negative depth counts as 0. */
  function Clamp(depth: int): nat {
    if depth < 0 then 0 else depth
  }

  /** The names the shortened path is made of: the file name preceded by up to
      `depth` parent directories, stopping at the root or at ".". */
  function ShortParts(p: Path, depth: int): seq<string> {
    var n := |p.segments|;
    var d := Clamp(depth);
    if d == 0 || n == 0 then [Base(p)]
    else
      var k := if d < n - 1 then d else n - 1;
      p.segments[n - 1 - k..]
  }

  /** The shortened path printed for a source location. */
  function ShortPath(p: Path, depth: int): string {
    Join(ShortParts(p, depth))
  }

  /** The shape of the walk: it ends with the file name, is a tail of the
      path's segments, keeps at most `depth` directories, and stops short of
      `depth` only when it has reached the first segment. */
  lemma ShortPartsShape(p: Path, depth: int)
    requires p.segments != []
    ensures var parts := ShortParts(p, depth);
      && 1 <= |parts| <= Clamp(depth) + 1
      && |parts| <= |p.segments|
      && parts == p.segments[|p.segments| - |parts|..]
      && parts[|parts| - 1] == Base(p)
      && (|parts| <= Clamp(depth) ==> parts == p.segments)
  {
  }

  /** The root is never emitted as a part: every part of a valid path is one
      of its segments, none of which holds the separator. */
  lemma RootNeverEmitted(p: Path, depth: int)
    requires Valid(p) && p.segments != []
    ensures forall i :: 0 <= i < |ShortParts(p, depth)| ==> '/' !in ShortParts(p, depth)[i]
  {
    var parts := ShortParts(p, depth);
    ShortPartsShape(p, depth);
    forall i | 0 <= i < |parts|
      ensures '/' !in parts[i]
    {
      assert parts[i] == p.segments[|p.segments| - |parts| + i];
    }
  }

  /** A negative depth behaves as depth 0, which prints only the file name. */
  lemma ShortPathDepthZero(p: Path, depth: int)
    requires depth <= 0
    ensures ShortPath(p, depth) == ShortPath(p, 0) == Base(p)
  {
  }

  /** Joining a tail of the parts gives a suffix of joining all of them. */
  lemma {:induction false} JoinTailIsSuffix(parts: seq<string>, k: nat)
    requires k < |parts|
    ensures |Join(parts[k..])| <= |Join(parts)|
    ensures Join(parts[k..]) == Join(parts)[|Join(parts)| - |Join(parts[k..])|..]
  {
    if k > 0 {
      assert parts[1..][k - 1..] == parts[k..];
      JoinTailIsSuffix(parts[1..], k - 1);
      assert |parts| > 1;
      var rest := Join(parts[1..]);
      assert Join(parts) == parts[0] + "/" + rest;
      var tail := Join(parts[k..]);
      assert rest[|rest| - |tail|..] == tail;
      assert Join(parts)[|Join(parts)| - |tail|..] == rest[|rest| - |tail|..];
    }
  }

  /** The shortened path is a suffix of the full path. */
  lemma ShortPathIsSuffix(p: Path, depth: int)
    ensures |ShortPath(p, depth)| <= |Render(p)|
    ensures ShortPath(p, depth) == Render(p)[|Render(p)| - |ShortPath(p, depth)|..]
  {
    var n := |p.segments|;
    if n > 0 {
      ShortPartsShape(p, depth);
      var parts := ShortParts(p, depth);
      JoinTailIsSuffix(p.segments, n - |parts|);
      var full := Join(p.segments);
      var lead := if p.absolute then "/" else "";
      assert Render(p) == lead + full;
      assert Render(p)[|Render(p)| - |ShortPath(p, depth)|..] == full[|full| - |ShortPath(p, depth)|..];
    }
  }

  /** "/a/b/c/file.go" at depth 2 and at depth 0. */
  lemma ShortPathExample()
    ensures ShortPath(Path(true, ["a", "b", "c", "file.go"]), 2) == "b/c/file.go"
    ensures ShortPath(Path(true, ["a", "b", "c", "file.go"]), 0) == "file.go"
  {
    var p := Path(true, ["a", "b", "c", "file.go"]);
    assert ShortParts(p, 2) == ["b", "c", "file.go"];
    assert Join(["file.go"]) == "file.go";
    assert Join(["c", "file.go"]) == "c/file.go";
  }
}
