/** Path joining on a POSIX file system. Rust's `Path::join` and Python's
    `os.path.join` agree there: a relative component is appended after one
    `/` separator (none when the base is empty or already ends in `/`), and
    an absolute component replaces the base. */
module Paths {

  type Path = string

  predicate IsAbsolute(p: Path) {
    |p| > 0 && p[0] == '/'
  }

  function Join(base: Path, rel: Path): (r: Path)
    ensures IsAbsolute(rel) ==> r == rel
    ensures !IsAbsolute(rel) ==> |base| + |rel| <= |r| <= |base| + |rel| + 1
    ensures !IsAbsolute(rel) ==> r[..|base|] == base && r[|r| - |rel|..] == rel
    ensures !IsAbsolute(rel) && |r| > |base| + |rel| ==> r[|base|] == '/'
    ensures !IsAbsolute(rel) ==> (|r| == |base| + |rel| + 1 <==> base != [] && base[|base| - 1] != '/')
  {
    if IsAbsolute(rel) then rel
    else if base == [] || base[|base| - 1] == '/' then base + rel
    else base + "/" + rel
  }

  /** The base with its trailing separator, as `Join` puts it in front of a relative component. */
  function WithSeparator(base: Path): (r: Path)
    ensures |r| > 0 ==> r[|r| - 1] == '/'
  {
    if base == [] || base[|base| - 1] == '/' then base else base + "/"
  }

  lemma JoinRelative(base: Path, rel: Path)
    requires !IsAbsolute(rel)
    ensures Join(base, rel) == WithSeparator(base) + rel
  {
  }

  /** A relative component that starts with a known prefix. */
  lemma JoinRelativePrefix(base: Path, prefix: Path, rest: Path)
    requires prefix != [] && prefix[0] != '/'
    ensures Join(base, prefix + rest) == (WithSeparator(base) + prefix) + rest
  {
    assert (prefix + rest)[0] == prefix[0];
    JoinRelative(base, prefix + rest);
  }

  /** What `Join` puts in front of a relative component depends on the base only. */
  lemma JoinRelativeAppends(base: Path, a: Path, b: Path)
    requires !IsAbsolute(a) && !IsAbsolute(b)
    ensures Join(base, a)[..|Join(base, a)| - |a|] == Join(base, b)[..|Join(base, b)| - |b|]
    ensures Join(base, a) == Join(base, b) <==> a == b
  {
    var pa := Join(base, a)[..|Join(base, a)| - |a|];
    var pb := Join(base, b)[..|Join(base, b)| - |b|];
    assert Join(base, a) == pa + a;
    assert Join(base, b) == pb + b;
  }
}
