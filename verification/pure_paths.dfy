/**
 * The part of Python's `pathlib.PurePath` the pipeline relies on: joining a
 * component, `parent`, `name`, `suffix`, `stem`, together with `str.lower`
 * and `str.startswith` on file names.
 */
module PurePaths {

  /**
   * A path as pathlib holds it: an anchor ("" for a relative path, "/" for an
   * absolute one) and the components after it. No components is "." (or the
   * bare anchor).
   */
  datatype Path = Path(anchor: string, parts: seq<string>)

  /** `p.parent`: drops the last component; "." and the bare anchor are their own parent. */
  function Parent(p: Path): Path
  {
    if |p.parts| == 0 then p else Path(p.anchor, p.parts[..|p.parts| - 1])
  }

  /** `p.name`: the last component, or "" when there is none. */
  function Name(p: Path): string
  {
    if |p.parts| == 0 then "" else p.parts[|p.parts| - 1]
  }

  /**
   * `p / name` for a single component, the only form the core uses (a name
   * returned by a directory listing, or a literal such as "stl"). Joining and
   * then taking `parent` and `name` gives back both halves.
   */
  function Join(p: Path, name: string): (r: Path)
    ensures Parent(r) == p && Name(r) == name
    ensures r.anchor == p.anchor && |r.parts| == |p.parts| + 1
  {
    Path(p.anchor, p.parts + [name])
  }

  /** `p` lies at or below `root`. */
  predicate IsUnder(p: Path, root: Path)
  {
    p.anchor == root.anchor && |root.parts| <= |p.parts| && p.parts[..|root.parts|] == root.parts
  }

  /** The index of the last dot among the first `n` characters of `name`, or -1. */
  function LastDotBefore(name: string, n: nat): (r: int)
    requires n <= |name|
    ensures -1 <= r < n
    ensures r >= 0 ==> name[r] == '.'
    ensures forall k :: r < k < n ==> name[k] != '.'
  {
    if n == 0 then -1
    else if name[n - 1] == '.' then n - 1
    else LastDotBefore(name, n - 1)
  }

  /** `name.rfind('.')`. */
  function LastDot(name: string): int
  {
    LastDotBefore(name, |name|)
  }

  /** The dot at which pathlib splits a name: the last one, unless it is the first or the final character. */
  predicate HasSplitDot(name: string)
  {
    0 < LastDot(name) < |name| - 1
  }

  /**
   * `PurePath.suffix`: from the last dot to the end. A name without a dot, a
   * name whose only dot leads (".stp"), and a name ending in a dot have none.
   */
  function Suffix(name: string): (r: string)
    ensures r == "" || IsSuffix(r)
    ensures r != "" ==> |r| < |name| && name[|name| - |r|..] == r
  {
    if HasSplitDot(name) then name[LastDot(name)..] else ""
  }

  /** `PurePath.stem`: the name without its suffix. */
  function Stem(name: string): (r: string)
    ensures r + Suffix(name) == name
    ensures r == "" <==> name == ""
  {
    if HasSplitDot(name) then name[..LastDot(name)] else name
  }

  /** A suffix as pathlib produces one: a dot followed by one or more characters that are not dots. */
  predicate IsSuffix(ext: string)
  {
    |ext| >= 2 && ext[0] == '.' && forall k :: 1 <= k < |ext| ==> ext[k] != '.'
  }

  /**
   * Round trip of `stem + ext`: a non-empty stem followed by a suffix splits
   * back into exactly that stem and that suffix.
   */
  lemma {:induction false} SplitJoined(stem: string, ext: string)
    requires stem != "" && IsSuffix(ext)
    ensures Suffix(stem + ext) == ext
    ensures Stem(stem + ext) == stem
  {
    var name := stem + ext;
    var i := LastDot(name);
    assert name[|stem|] == '.';
    assert i >= |stem|;
    assert forall k :: |stem| < k < |name| ==> name[k] == ext[k - |stem|];
    assert i == |stem|;
    assert name[..i] == stem;
    assert name[i..] == ext;
  }

  /** A name whose only dot is its first character (".stl") has no suffix. */
  lemma {:induction false} LeadingDotOnly(name: string)
    requires |name| >= 1 && name[0] == '.'
    requires forall k :: 1 <= k < |name| ==> name[k] != '.'
    ensures Suffix(name) == ""
  {
    assert LastDot(name) == 0;
  }

  /** `str.startswith(prefix)`. */
  predicate StartsWith(s: string, prefix: string)
  {
    |prefix| <= |s| && s[..|prefix|] == prefix
  }

  /** `str.lower` on one character, for the ASCII letters the suffix tests compare against. */
  function LowerChar(c: char): char
  {
    if 'A' <= c <= 'Z' then (c as int + 32) as char else c
  }

  /** `str.lower`, character by character. */
  function Lower(s: string): (r: string)
    ensures |r| == |s|
  {
    seq(|s|, k requires 0 <= k < |s| => LowerChar(s[k]))
  }

  /** Lower-casing leaves a string without capital letters unchanged. */
  lemma {:induction false} LowerOfLowerCase(s: string)
    requires forall k :: 0 <= k < |s| ==> !('A' <= s[k] <= 'Z')
    ensures Lower(s) == s
  {
  }

  /** Case-insensitive "ends with a dot and then `w`", with at least one character before the dot. */
  predicate EndsWithExtension(name: string, w: string)
  {
    |name| >= |w| + 2 && name[|name| - |w| - 1] == '.' && Lower(name[|name| - |w|..]) == w
  }

  /** Lower-casing commutes with dropping a prefix. */
  lemma {:induction false} LowerOfTail(s: string, i: nat)
    requires i <= |s|
    ensures Lower(s)[i..] == Lower(s[i..])
  {
  }

  /** A lower-cased suffix ".w" means the name ends, in some letter case, with a dot and `w`. */
  lemma {:induction false} EndingOfExtension(n: string, w: string)
    requires Lower(Suffix(n)) == "." + w
    ensures EndsWithExtension(n, w)
  {
    var s := Suffix(n);
    LowerOfTail(s, 1);
    assert Lower(s)[1..] == w;
    assert n[|n| - |s|..] == s;
    assert n[|n| - |w|..] == s[1..];
    assert n[|n| - |w| - 1] == s[0];
  }

  /** Conversely, a name ending with a dot and a dot-free `w` after at least one character has suffix ".w", up to case. */
  lemma {:induction false} ExtensionOfEnding(n: string, w: string)
    requires |w| >= 1 && forall k :: 0 <= k < |w| ==> w[k] != '.'
    requires EndsWithExtension(n, w)
    ensures Lower(Suffix(n)) == "." + w
  {
    var cut := |n| - |w| - 1;
    var ext := n[cut..];
    forall k | 1 <= k < |ext|
      ensures ext[k] != '.'
    {
      assert Lower(n[|n| - |w|..])[k - 1] == w[k - 1];
      assert n[|n| - |w|..][k - 1] == ext[k];
    }
    assert n == n[..cut] + ext;
    SplitJoined(n[..cut], ext);
    LowerOfTail(ext, 1);
    assert ext[1..] == n[|n| - |w|..];
    assert Lower(ext) == [Lower(ext)[0]] + Lower(ext)[1..];
  }
}
