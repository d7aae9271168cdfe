/** Relative paths of a folder upload (internal/dumpbox/server.go:547-567). */
module Paths {
  import opened Sums
  import opened Utf8
  import opened Naming

  /** strings.Split(s, "/"): always at least one segment. */
  function Split(s: string): (segments: seq<string>)
    ensures segments != []
  {
    if s == "" then [""]
    else if s[0] == '/' then [""] + Split(s[1..])
    else
      var rest := Split(s[1..]);
      [[s[0]] + rest[0]] + rest[1..]
  }

  /** strings.Join(segments, "/"). */
  function Join(segments: seq<string>): string {
    if segments == [] then "" else if |segments| == 1 then segments[0] else segments[0] + "/" + Join(segments[1..])
  }

  lemma {:induction false} SplitSegment(s: string, rest: string)
    requires '/' !in s
    ensures Split(s) == [s]
    ensures Split(s + "/" + rest) == [s] + Split(rest)
    decreases |s|
  {
    if s == "" {
      assert "" + "/" + rest == "/" + rest;
      assert ("/" + rest)[1..] == rest;
    } else {
      SplitSegment(s[1..], rest);
      assert [s[0]] + s[1..] == s;
      var t := s + "/" + rest;
      assert t[0] == s[0] && t[1..] == s[1..] + "/" + rest;
    }
  }

  /** Splitting undoes joining when no segment contains the separator. */
  lemma {:induction false} SplitJoin(segments: seq<string>)
    requires segments != [] && forall i :: 0 <= i < |segments| ==> '/' !in segments[i]
    ensures Split(Join(segments)) == segments
    decreases |segments|
  {
    if |segments| == 1 {
      SplitSegment(segments[0], "");
    } else {
      SplitJoin(segments[1..]);
      SplitSegment(segments[0], Join(segments[1..]));
    }
  }

  /** filepath.Join with one more sanitised segment: "." goes nowhere, ".." goes back where it can. */
  function Descend(local: seq<string>, segment: string): seq<string> {
    if segment == "." then local
    else if segment == ".." && local != [] && local[|local| - 1] != ".." then local[..|local| - 1]
    else local + [segment]
  }

  /** The fold over the sanitised segments. */
  function LocalPath(segments: seq<string>, local: seq<string>): Option<seq<string>> {
    if segments == [] then Some(local)
    else if segments[0] == "" then None
    else LocalPath(segments[1..], Descend(local, segments[0]))
  }

  function Sanitised(segments: seq<string>): seq<string> {
    seq(|segments|, i requires 0 <= i < |segments| => SafeFilename(segments[i]))
  }

  /** filepath.IsLocal of a cleaned relative path. */
  predicate IsLocal(local: seq<string>) {
    local == [] || local[0] != ".."
  }

  /** What createRelativeDirectory appends to the root, or None if it refuses. */
  function RelativePath(relative: string): Option<seq<string>> {
    if relative == "" then Some([])
    else
      match LocalPath(Sanitised(Split(Slashes(relative))), [])
      case None => None
      case Some(local) => if IsLocal(local) then Some(local) else None
  }

  /** The loop over the segments. */
  method ResolveRelative(relative: string) returns (result: Option<seq<string>>)
    ensures result == RelativePath(relative)
  {
    if relative == "" {
      return Some([]);
    }
    var segments := Split(Slashes(relative));
    var local: seq<string> := [];
    var i := 0;
    while i < |segments|
      invariant 0 <= i <= |segments|
      invariant LocalPath(Sanitised(segments)[i..], local) == LocalPath(Sanitised(segments), [])
    {
      var segment := SafeFilename(segments[i]);
      assert Sanitised(segments)[i..][1..] == Sanitised(segments)[i + 1..];
      if segment == "" {
        return None;
      }
      local := Descend(local, segment);
      i := i + 1;
    }
    return if IsLocal(local) then Some(local) else None;
  }

  /** Cleaned paths: some steps up, then real names only. */
  ghost predicate Shaped(local: seq<string>) {
    forall i :: 0 <= i < |local| ==>
      Plain(local[i]) || (local[i] == ".." && forall j :: 0 <= j <= i ==> local[j] == "..")
  }

  lemma DescendShaped(local: seq<string>, segment: string)
    requires Shaped(local) && segment != "" && '/' !in segment
    ensures Shaped(Descend(local, segment))
  {
    if segment == ".." && (local == [] || local[|local| - 1] == "..") {
      assert Descend(local, segment) == local + [".."];
    }
  }

  lemma {:induction false} LocalShaped(segments: seq<string>, local: seq<string>)
    requires Shaped(local) && LocalPath(segments, local).Some?
    requires forall i :: 0 <= i < |segments| ==> '/' !in segments[i]
    ensures Shaped(LocalPath(segments, local).value)
    decreases |segments|
  {
    if segments != [] {
      DescendShaped(local, segments[0]);
      LocalShaped(segments[1..], Descend(local, segments[0]));
    }
  }

  /** Whatever path a client sends, what is appended to the folder consists of real names only, so
      nothing is ever stored outside it. */
  lemma RelativeStaysBelow(relative: string)
    ensures RelativePath(relative).Some? ==>
              forall i :: 0 <= i < |RelativePath(relative).value| ==> Plain(RelativePath(relative).value[i])
  {
    if relative != "" && RelativePath(relative).Some? {
      var segments := Split(Slashes(relative));
      forall i | 0 <= i < |segments|
        ensures '/' !in Sanitised(segments)[i]
      {
        SafeFilenameBytes(segments[i]);
      }
      LocalShaped(Sanitised(segments), []);
    }
  }

  /** Real names are kept one for one. */
  lemma {:induction false} LocalKeeps(segments: seq<string>, local: seq<string>)
    requires forall i :: 0 <= i < |segments| ==> Plain(segments[i])
    ensures LocalPath(segments, local) == Some(local + segments)
    decreases |segments|
  {
    if segments != [] {
      assert Descend(local, segments[0]) == local + [segments[0]];
      LocalKeeps(segments[1..], local + [segments[0]]);
      assert local + [segments[0]] + segments[1..] == local + segments;
    } else {
      assert local + segments == local;
    }
  }

  lemma {:induction false} LocalAppend(a: seq<string>, b: seq<string>, local: seq<string>)
    requires LocalPath(a, local).Some?
    ensures LocalPath(a + b, local) == LocalPath(b, LocalPath(a, local).value)
    decreases |a|
  {
    if a == [] {
      assert a + b == b;
    } else {
      assert (a + b)[1..] == a[1..] + b;
      LocalAppend(a[1..], b, Descend(local, a[0]));
    }
  }

  /** A segment "." goes nowhere, and ".." goes back by one, until there is nothing to go back by. */
  lemma {:induction false} GoingBack(segments: seq<string>, local: seq<string>)
    requires LocalPath(segments, []) == Some(local)
    ensures LocalPath(segments + ["."], []) == Some(local)
    ensures local != [] && local[|local| - 1] != ".." ==>
              LocalPath(segments + [".."], []) == Some(local[..|local| - 1])
    ensures local == [] ==> LocalPath(segments + [".."], []) == Some([".."]) && !IsLocal([".."])
  {
    LocalAppend(segments, ["."], []);
    LocalAppend(segments, [".."], []);
    OneSegment(".", local);
    OneSegment("..", local);
    assert local == [] ==> Descend(local, "..") == [".."];
  }

  lemma {:induction false} OneSegment(segment: string, local: seq<string>)
    requires segment != ""
    ensures LocalPath([segment], local) == Some(Descend(local, segment))
  {
    assert [segment][1..] == [];
  }

  /** What is accepted arrives with one segment for each that was sent, if and only if every one of them
      comes out of sanitising as a real name, that is, none as "." or "..". */
  lemma {:induction false} DepthKept(relative: string)
    requires relative != "" && RelativePath(relative).Some?
    ensures |RelativePath(relative).value| <= |Split(Slashes(relative))|
    ensures |RelativePath(relative).value| == |Split(Slashes(relative))|
            <==> forall i :: 0 <= i < |Split(Slashes(relative))| ==> Plain(SafeFilename(Split(Slashes(relative))[i]))
  {
    var segments := Split(Slashes(relative));
    forall i | 0 <= i < |segments|
      ensures '/' !in Sanitised(segments)[i]
    {
      SafeFilenameBytes(segments[i]);
    }
    Depth(Sanitised(segments), []);
    forall i | 0 <= i < |segments|
      ensures Plain(Sanitised(segments)[i]) <==> Plain(SafeFilename(segments[i]))
    {
    }
  }

  /** Once outside, a path stays outside and is refused. */
  lemma {:induction false} StaysOutside(segments: seq<string>, local: seq<string>)
    requires local != [] && local[0] == ".." && LocalPath(segments, local).Some?
    ensures !IsLocal(LocalPath(segments, local).value)
    decreases |segments|
  {
    if segments != [] {
      StaysOutside(segments[1..], Descend(local, segments[0]));
    }
  }

  lemma {:induction false} Depth(segments: seq<string>, local: seq<string>)
    requires forall i :: 0 <= i < |local| ==> Plain(local[i])
    requires forall i :: 0 <= i < |segments| ==> '/' !in segments[i]
    requires LocalPath(segments, local).Some? && IsLocal(LocalPath(segments, local).value)
    ensures |LocalPath(segments, local).value| <= |local| + |segments|
    ensures |LocalPath(segments, local).value| == |local| + |segments|
            <==> forall i :: 0 <= i < |segments| ==> Plain(segments[i])
    decreases |segments|
  {
    if segments != [] {
      var (first, rest) := (segments[0], segments[1..]);
      if first == ".." && local == [] {
        StaysOutside(rest, Descend(local, first));
      } else {
        Depth(rest, Descend(local, first));
        AllOrFirst(segments);
      }
    }
  }

  lemma AllOrFirst(segments: seq<string>)
    requires segments != []
    ensures (forall i :: 0 <= i < |segments| ==> Plain(segments[i]))
            <==> Plain(segments[0]) && forall i :: 0 <= i < |segments[1..]| ==> Plain(segments[1..][i])
  {
    if Plain(segments[0]) && forall i :: 0 <= i < |segments[1..]| ==> Plain(segments[1..][i]) {
      forall i | 0 <= i < |segments|
        ensures Plain(segments[i])
      {
        assert i > 0 ==> segments[i] == segments[1..][i - 1];
      }
    }
  }

  /** So it does if no segment is cut in the middle of leading white space. */
  lemma {:induction false} SteadyPathKeepsDepth(relative: string)
    requires relative != "" && RelativePath(relative).Some?
    requires forall i :: 0 <= i < |Split(Slashes(relative))| ==> Steady(Split(Slashes(relative))[i])
    ensures |RelativePath(relative).value| == |Split(Slashes(relative))|
  {
    var segments := Split(Slashes(relative));
    if "" in Sanitised(segments) {
      LocalRefuses(Sanitised(segments), []);
    }
    forall i | 0 <= i < |segments|
      ensures Plain(SafeFilename(segments[i]))
    {
      SteadyName(segments[i]);
      assert Sanitised(segments)[i] in Sanitised(segments);
    }
    DepthKept(relative);
  }

  /** In particular for ASCII. */
  lemma {:induction false} AsciiPathKeepsDepth(relative: string)
    requires Ascii(relative) && relative != "" && RelativePath(relative).Some?
    ensures |RelativePath(relative).value| == |Split(Slashes(relative))|
  {
    var slashed := Slashes(relative);
    forall i: nat | i < |slashed|
      ensures B(slashed, i) < 0x80
    {
      assert B(relative, i) < 0x80;
    }
    AsciiSegments(slashed);
    forall i | 0 <= i < |Split(slashed)|
      ensures Steady(Split(slashed)[i])
    {
      AsciiSteady(Split(slashed)[i]);
    }
    SteadyPathKeepsDepth(relative);
  }

  lemma {:induction false} LocalRefuses(segments: seq<string>, local: seq<string>)
    requires "" in segments
    ensures LocalPath(segments, local).None?
    decreases |segments|
  {
    if segments[0] != "" {
      assert "" in segments[1..];
      LocalRefuses(segments[1..], Descend(local, segments[0]));
    }
  }

  lemma {:induction false} AsciiSegments(s: string)
    requires Ascii(s)
    ensures forall i :: 0 <= i < |Split(s)| ==> Ascii(Split(s)[i])
    decreases |s|
  {
    if s != "" {
      AsciiDrop(s, 1);
      AsciiSegments(s[1..]);
      var rest := Split(s[1..]);
      assert B(s, 0) < 0x80;
      if s[0] != '/' {
        forall i: nat | i < |[s[0]] + rest[0]|
          ensures B([s[0]] + rest[0], i) < 0x80
        {
          assert i > 0 ==> B(rest[0], i - 1) < 0x80;
        }
      }
    }
  }

  /** A name that sanitising leaves alone; only a name that was cut in the middle of its leading
      white space can be left alone without being steady. */
  predicate Faithful(n: string) {
    n != "" && SafeFilename(n) == n && Steady(n)
  }

  /** Such a name denotes an entry of its directory, and never a temporary file. */
  lemma FaithfulName(n: string)
    requires Faithful(n)
    ensures Plain(n) && '/' !in n && '\\' !in n && n[0] != '.' && |n| <= MAX_NAME
  {
    SteadyName(n);
    SafeFilenameBytes(n);
    SafeNoSlash(n);
  }

  /** For ASCII names, and for names short enough not to be cut, being left alone is all it takes. */
  lemma WhenFaithful(n: string)
    requires Ascii(n) || |Cleaned(n)| <= MAX_NAME
    ensures Faithful(n) <==> n != "" && SafeFilename(n) == n
  {
    if Ascii(n) {
      AsciiSteady(n);
    }
  }

  /** The ASCII names that are left alone: short enough, without control or reserved characters, and
      neither framed by blanks and dots nor starting with a hyphen. */
  lemma AsciiFaithful(n: string)
    requires Ascii(n)
    ensures Faithful(n) <==> n != "" && |n| <= MAX_NAME && SafeBytes(n) && Framed(n)
  {
    WhenFaithful(n);
    if n != "" && SafeFilename(n) == n {
      SafeFilenameBytes(n);
      SafeNoSlash(n);
      BaseNameNone(n);
      CleanLength(n);
      CleanedShort(n, Clean(n));
      CleanedSafe(n);
    }
    if n != "" && |n| <= MAX_NAME && SafeBytes(n) && Framed(n) {
      CleanKeeps(n);
      SafeNoSlash(n);
      FixedName(n);
    }
  }

  lemma {:induction false} CleanedShort(n: string, s: string)
    requires BaseName(Slashes(n)) == n && s == Clean(n) && |s| <= MAX_NAME
    ensures SafeFilename(n) == Cleaned(n)
  {
    var _, _ := TrimMiddle(s, {' ', '.'});
  }

  /** A path of such names arrives as it was sent. */
  lemma {:induction false} RelativeRoundTrip(segments: seq<string>)
    requires forall i :: 0 <= i < |segments| ==> Faithful(segments[i])
    ensures RelativePath(Join(segments)) == Some(segments)
  {
    forall i | 0 <= i < |segments|
      ensures Plain(segments[i]) && '/' !in segments[i] && '\\' !in segments[i]
      ensures SafeFilename(segments[i]) == segments[i]
    {
      FaithfulName(segments[i]);
    }
    if segments != [] {
      JoinClean(segments);
      SplitJoin(segments);
      assert Sanitised(segments) == segments;
      LocalKeeps(segments, []);
      assert [] + segments == segments;
    }
  }

  lemma {:induction false} JoinClean(segments: seq<string>)
    requires segments != []
    requires forall i :: 0 <= i < |segments| ==> segments[i] != "" && '\\' !in segments[i]
    ensures Join(segments) != "" && Slashes(Join(segments)) == Join(segments) && '\\' !in Join(segments)
    decreases |segments|
  {
    if |segments| > 1 {
      JoinClean(segments[1..]);
    }
  }
}
