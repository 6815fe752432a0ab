/** How `do_job` turns a declared (destination root, source) pair into the
    two paths handed to the backend. */
module Paths {
  import opened Text
  import opened Config

  predicate IsSlash(ch: char)
  {
    ch == '/' || ch == '\\'
  }

  /** Both separator conventions rewritten to the platform's separator: `/`
      is rewritten unless it is the separator, then `\` likewise. */
  function NativeSeparators(p: string, sep: char): (r: string)
    ensures |r| == |p|
    ensures forall i :: 0 <= i < |p| ==> r[i] == (if IsSlash(p[i]) then sep else p[i])
    ensures sep != '/' ==> '/' !in r
    ensures sep != '\\' ==> '\\' !in r
  {
    var p1 := if sep != '/' then ReplaceChar(p, '/', sep) else p;
    if sep != '\\' then ReplaceChar(p1, '\\', sep) else p1
  }

  /** Two spellings of a path that differ only in which slash they use. */
  ghost predicate SameUpToSlashes(p: string, q: string)
  {
    |p| == |q| && forall i :: 0 <= i < |p| ==> p[i] == q[i] || (IsSlash(p[i]) && IsSlash(q[i]))
  }

  /** The rewritten path does not depend on the convention the path was
      written in; rewriting twice is rewriting once. */
  lemma SeparatorAgnostic(p: string, q: string, sep: char)
    requires SameUpToSlashes(p, q)
    ensures NativeSeparators(p, sep) == NativeSeparators(q, sep)
    ensures NativeSeparators(NativeSeparators(p, sep), sep) == NativeSeparators(p, sep)
  {
  }

  /** Python's `s[k:]` for any integer `k`: a negative `k` counts from the end. */
  function SliceFrom<T>(s: seq<T>, k: int): (r: seq<T>)
    ensures 0 <= k <= |s| ==> r == s[k..]
    ensures k >= |s| ==> r == []
    ensures k < 0 ==> r == s[if -k >= |s| then 0 else |s| + k..]
  {
    if k >= |s| then []
    else if k >= 0 then s[k..]
    else if -k >= |s| then s
    else s[|s| + k..]
  }

  /** The non-empty separator-delimited segments of a path. */
  function Segments(p: string, sep: char): seq<string>
  {
    NonEmptyOnly(SplitOn(p, sep))
  }

  /** The part of the (rewritten) source placed under the destination root:
      the whole source when `lefttrim` is 0, otherwise its segments after the
      first `lefttrim`, rejoined with the separator. */
  function Subpath(src: string, lefttrim: int, sep: char): string
  {
    if lefttrim != 0 then JoinWith(SliceFrom(Segments(src, sep), lefttrim), sep) else src
  }

  lemma SegmentsAreClean(p: string, sep: char)
    ensures forall k :: 0 <= k < |Segments(p, sep)| ==> Segments(p, sep)[k] != [] && sep !in Segments(p, sep)[k]
  {
    var parts := SplitOn(p, sep);
    forall k | 0 <= k < |Segments(p, sep)|
      ensures sep !in Segments(p, sep)[k]
    {
      var seg := Segments(p, sep)[k];
      assert seg in parts;
      var j :| 0 <= j < |parts| && parts[j] == seg;
    }
  }

  /** The boundary cases of `lefttrim`: 0 keeps the whole source, and a
      count at least the number of segments leaves nothing. */
  lemma SubpathBounds(src: string, lefttrim: int, sep: char)
    ensures lefttrim == 0 ==> Subpath(src, lefttrim, sep) == src
    ensures lefttrim >= |Segments(src, sep)| && lefttrim > 0 ==> Subpath(src, lefttrim, sep) == []
  {
  }

  /** With `lefttrim = k > 0` the segments of the subpath are exactly the
      source's segments with the first `k` dropped. */
  lemma SubpathSegments(src: string, k: int, sep: char)
    requires k > 0
    ensures Segments(Subpath(src, k, sep), sep) == SliceFrom(Segments(src, sep), k)
  {
    var kept := SliceFrom(Segments(src, sep), k);
    SegmentsAreClean(src, sep);
    forall i | 0 <= i < |kept|
      ensures kept[i] != [] && sep !in kept[i]
    {
      assert kept[i] == Segments(src, sep)[k + i];
    }
    SplitJoin(kept, sep);
  }

  /** The destination: the root without trailing separators, one separator,
      then the subpath with every `:` removed. */
  function Destination(dstRoot: string, src: string, lefttrim: int, sep: char): string
  {
    StripRight(dstRoot, sep) + [sep] + DeleteChar(Subpath(src, lefttrim, sep), ':')
  }

  /** The destination starts with the root stripped of trailing separators,
      then one separator; what follows is the subpath without any `:`. */
  lemma DestinationShape(dstRoot: string, src: string, lefttrim: int, sep: char)
    ensures var r, root := Destination(dstRoot, src, lefttrim, sep), StripRight(dstRoot, sep);
      && |r| > |root|
      && r[..|root|] == root
      && r[|root|] == sep
      && ':' !in r[|root| + 1..]
      && r[|root| + 1..] == DeleteChar(Subpath(src, lefttrim, sep), ':')
  {
    var root := StripRight(dstRoot, sep);
    var r := Destination(dstRoot, src, lefttrim, sep);
    assert r[|root| + 1..] == DeleteChar(Subpath(src, lefttrim, sep), ':');
  }

  /** The backend's trailing-separator convention: robocopy gets the path
      with trailing separators removed, rsync gets it with exactly one. */
  function Convention(backend: Backend, p: string, sep: char): string
  {
    var core := StripRight(p, sep);
    if backend.Robocopy? then core else core + [sep]
  }

  /** Robocopy's paths never end in the separator; rsync's end in exactly
      one, added after all trailing ones were removed. */
  lemma ConventionShape(backend: Backend, p: string, sep: char)
    ensures var r := Convention(backend, p, sep);
      && (backend.Robocopy? ==> r == StripRight(p, sep) && (r == [] || r[|r| - 1] != sep))
      && (backend.Rsync? ==> r == StripRight(p, sep) + [sep] && r[|r| - 1] == sep && (|r| == 1 || r[|r| - 2] != sep))
  {
  }

  lemma JoinExample()
    ensures JoinWith(["C:", "Users", "alice"], '/') == "C:/Users/alice"
  {
    var parts := ["C:", "Users", "alice"];
    assert JoinWith(parts[2..], '/') == "alice";
    assert JoinWith(parts[1..], '/') == "Users/alice";
  }

  /** `C:/Users/alice` has the three segments `C:`, `Users` and `alice`. */
  lemma SegmentsExample()
    ensures Segments("C:/Users/alice", '/') == ["C:", "Users", "alice"]
  {
    var parts := ["C:", "Users", "alice"];
    JoinExample();
    assert parts[0] == "C:" && parts[1] == "Users" && parts[2] == "alice";
    assert '/' !in "C:" && '/' !in "Users" && '/' !in "alice";
    assert forall k :: 0 <= k < |parts| ==> parts[k] != [] && '/' !in parts[k];
    SplitJoin(parts, '/');
  }

  lemma SubpathExample()
    ensures Subpath("C:/Users/alice", 2, '/') == "alice"
  {
    SegmentsExample();
    assert SliceFrom(["C:", "Users", "alice"], 2) == ["alice"];
  }

  /** Trimming two of the three segments of `C:/Users/alice` places it at
      `D:/backup/alice`. */
  lemma TrimExample()
    ensures Destination("D:/backup", "C:/Users/alice", 2, '/') == "D:/backup/alice"
  {
    assert "D:/backup" + ['/'] + "alice" == "D:/backup/alice";
    SubpathExample();
    assert DeleteChar("alice", ':') == "alice";
    assert StripRight("D:/backup", '/') == "D:/backup";
  }
}
