/** How names from the network become names on disk (internal/dumpbox/server.go:507-619,
    internal/dumpbox/limits.go:79-97). */
module Naming {
  import opened Utf8

  // ---- the path helpers it uses ------------------------------------------------------------

  /** strings.ReplaceAll(s, "\\", "/"). */
  function Slashes(s: string): string {
    seq(|s|, i requires 0 <= i < |s| => if s[i] == '\\' then '/' else s[i])
  }

  function StripSlashes(s: string): (t: string)
  {
    if s != "" && s[|s| - 1] == '/' then StripSlashes(s[..|s| - 1]) else s
  }

  function AfterSlash(s: string): (t: string)
  {
    if s == "" then ""
    else if s[|s| - 1] == '/' then ""
    else AfterSlash(s[..|s| - 1]) + [s[|s| - 1]]
  }

  lemma {:induction false} StripSlashesPrefix(s: string)
    ensures StripSlashes(s) <= s
    ensures StripSlashes(s) != "" ==> StripSlashes(s)[|StripSlashes(s)| - 1] != '/'
    decreases |s|
  {
    if s != "" && s[|s| - 1] == '/' {
      StripSlashesPrefix(s[..|s| - 1]);
    }
  }

  lemma {:induction false} AfterSlashSuffix(s: string)
    ensures |AfterSlash(s)| <= |s| && AfterSlash(s) == s[|s| - |AfterSlash(s)|..]
    decreases |s|
  {
    if s != "" && s[|s| - 1] != '/' {
      var (front, last) := (s[..|s| - 1], s[|s| - 1]);
      AfterSlashSuffix(front);
      var t := AfterSlash(front);
      assert front[|front| - |t|..] + [last] == s[|front| - |t|..];
    }
  }

  /** filepath.Base. */
  function BaseName(s: string): (t: string)
  {
    if s == "" then "." else if StripSlashes(s) == "" then "/" else AfterSlash(StripSlashes(s))
  }

  /** filepath.Ext: from the last dot of the last element. */
  function Ext(s: string): (t: string)
    ensures |t| <= |s|
  {
    if s == "" || s[|s| - 1] == '/' then ""
    else if s[|s| - 1] == '.' then "."
    else
      var t := Ext(s[..|s| - 1]);
      if t == "" then "" else t + [s[|s| - 1]]
  }

  lemma {:induction false} ExtIsSuffix(s: string)
    ensures Ext(s) == s[|s| - |Ext(s)|..]
    ensures Ext(s) != "" ==> Ext(s)[0] == '.' && '.' !in Ext(s)[1..]
    decreases |s|
  {
    if s != "" && s[|s| - 1] != '/' && s[|s| - 1] != '.' {
      ExtIsSuffix(s[..|s| - 1]);
    }
  }

  function Stem(s: string): string { s[..|s| - |Ext(s)|] }

  function TrimLeft(s: string, cut: set<char>): (t: string)
  {
    if s != "" && s[0] in cut then TrimLeft(s[1..], cut) else s
  }

  function TrimRight(s: string, cut: set<char>): (t: string)
  {
    if s != "" && s[|s| - 1] in cut then TrimRight(s[..|s| - 1], cut) else s
  }

  /** strings.Trim with an ASCII cutset. */
  function Trim(s: string, cut: set<char>): (t: string)
  {
    TrimRight(TrimLeft(s, cut), cut)
  }

  lemma {:induction false} TrimLeftSuffix(s: string, cut: set<char>)
    ensures |TrimLeft(s, cut)| <= |s| && TrimLeft(s, cut) == s[|s| - |TrimLeft(s, cut)|..]
    ensures TrimLeft(s, cut) != "" ==> TrimLeft(s, cut)[0] !in cut
    decreases |s|
  {
    if s != "" && s[0] in cut {
      TrimLeftSuffix(s[1..], cut);
    }
  }

  lemma {:induction false} TrimRightPrefix(s: string, cut: set<char>)
    ensures TrimRight(s, cut) <= s
    ensures TrimRight(s, cut) != "" ==> TrimRight(s, cut)[|TrimRight(s, cut)| - 1] !in cut
    decreases |s|
  {
    if s != "" && s[|s| - 1] in cut {
      TrimRightPrefix(s[..|s| - 1], cut);
    }
  }

  /** Trimming leaves a piece from the middle, whose ends are not in the cutset. */
  lemma TrimMiddle(s: string, cut: set<char>) returns (i: nat, j: nat)
    ensures i <= j <= |s| && Trim(s, cut) == s[i..j]
    ensures i < j ==> s[i] !in cut && s[j - 1] !in cut
  {
    var t := TrimLeft(s, cut);
    TrimLeftSuffix(s, cut);
    TrimRightPrefix(t, cut);
    i := |s| - |t|;
    j := i + |Trim(s, cut)|;
  }

  // ---- safeFilename ------------------------------------------------------------------------

  const RESERVED: set<char> := {'<', '>', ':', '\"', '/', '\\', '|', '?', '*'}

  function CleanRune(r: Rune): Rune {
    if r < 32 || r == 127 || IsFormat(r) || (r < 0x80 && r as char in RESERVED) then '_' as int else r
  }

  /** The strings.Map call: rune by rune. */
  function Clean(s: string): string {
    if s == "" then ""
    else
      var (r, n) := Decode(s);
      Encode(CleanRune(r)) + Clean(s[n..])
  }

  const MAX_NAME := 220

  /** The name before the length limit is applied. */
  function Cleaned(name: string): string {
    Dehyphen(Trim(Clean(BaseName(Slashes(name))), {' ', '.'}))
  }

  function Shorten(s: string): string {
    if |s| <= MAX_NAME then s
    else if MAX_NAME - |Ext(s)| < 1 then TrimSpace(s[..MAX_NAME])
    else TrimSpace(s[..MAX_NAME - |Ext(s)|]) + Ext(s)
  }

  function SafeFilename(name: string): string {
    Shorten(Cleaned(name))
  }

  predicate SafeByte(ch: char) {
    32 <= ch as int != 127 && ch !in RESERVED
  }

  predicate SafeBytes(s: string) {
    forall i :: 0 <= i < |s| ==> SafeByte(s[i])
  }

  lemma {:induction false} CleanSafe(s: string)
    ensures SafeBytes(Clean(s))
    decreases |s|
  {
    if s != "" {
      var (r, n) := Decode(s);
      CleanSafe(s[n..]);
      var e := Encode(CleanRune(r));
      forall i | 0 <= i < |e|
        ensures SafeByte(e[i])
      {
        assert CleanRune(r) >= 0x80 ==> 0x80 <= B(e, i) < 0x100;
      }
    }
  }

  lemma SliceSafe(s: string, i: nat, j: nat)
    requires SafeBytes(s) && i <= j <= |s|
    ensures SafeBytes(s[i..j])
  {
  }

  lemma TrimSafe(s: string, cut: set<char>)
    requires SafeBytes(s)
    ensures SafeBytes(Trim(s, cut))
  {
    var i, j := TrimMiddle(s, cut);
    SliceSafe(s, i, j);
  }

  /** A leading hyphen would read as a command line option. */
  function Dehyphen(t: string): string {
    if t != "" && t[0] == '-' then "_" + t[1..] else t
  }

  lemma DehyphenSafe(t: string)
    requires SafeBytes(t) && (t != "" ==> t[0] !in {' ', '.'} && t[|t| - 1] !in {' ', '.'})
    ensures SafeBytes(Dehyphen(t))
    ensures Dehyphen(t) != "" ==> Dehyphen(t)[0] !in {' ', '.', '-'} && Dehyphen(t)[|t| - 1] !in {' ', '.'}
  {
    if t != "" && t[0] == '-' {
      forall i | 0 <= i < |t|
        ensures SafeByte(Dehyphen(t)[i])
      {
        assert i > 0 ==> Dehyphen(t)[i] == t[i];
      }
    }
  }

  lemma CleanedSafe(name: string)
    ensures SafeBytes(Cleaned(name))
    ensures Cleaned(name) != "" ==> Framed(Cleaned(name))
  {
    var s := Clean(BaseName(Slashes(name)));
    CleanSafe(BaseName(Slashes(name)));
    TrimSafe(s, {' ', '.'});
    var _, _ := TrimMiddle(s, {' ', '.'});
    DehyphenSafe(Trim(s, {' ', '.'}));
  }

  /** The ends a sanitised name should have: no dot, no blank, no leading hyphen. */
  predicate Framed(t: string)
    requires t != ""
  {
    t[0] !in {' ', '.', '-'} && t[|t| - 1] !in {' ', '.'}
  }

  lemma TrimSpaceSlice(s: string) returns (i: nat, j: nat)
    ensures i <= j <= |s| && TrimSpace(s) == s[i..j]
    ensures s != "" && !IsSpace(Decode(s).0) ==> i == 0
  {
    var t := TrimLeftSpace(s);
    TrimLeftSpaceSuffix(s);
    TrimRightSpacePrefix(t);
    i := |s| - |t|;
    j := i + |TrimSpace(s)|;
  }

  lemma TrimSpaceSafe(s: string, keep: nat)
    requires SafeBytes(s) && keep <= |s|
    ensures SafeBytes(TrimSpace(s[..keep])) && |TrimSpace(s[..keep])| <= keep
  {
    var i, j := TrimSpaceSlice(s[..keep]);
    SliceSafe(s, i, j);
    assert s[..keep][i..j] == s[i..j];
  }

  lemma ShortenSafe(s: string)
    requires SafeBytes(s)
    ensures SafeBytes(Shorten(s)) && |Shorten(s)| <= MAX_NAME
  {
    if |s| > MAX_NAME {
      TrimSpaceSafe(s, if MAX_NAME - |Ext(s)| < 1 then MAX_NAME else MAX_NAME - |Ext(s)|);
      ExtIsSuffix(s);
      SliceSafe(s, |s| - |Ext(s)|, |s|);
    }
  }

  /** For every byte string: no control character, no reserved character and no separator is left,
      and the name is at most 220 bytes long. */
  lemma SafeFilenameBytes(name: string)
    ensures SafeBytes(SafeFilename(name)) && |SafeFilename(name)| <= 220 && '/' !in SafeFilename(name)
  {
    CleanedSafe(name);
    ShortenSafe(Cleaned(name));
    SafeNoSlash(SafeFilename(name));
  }

  lemma SafeNoSlash(s: string)
    requires SafeBytes(s)
    ensures '/' !in s && '\\' !in s
  {
    forall i | 0 <= i < |s|
      ensures s[i] != '/' && s[i] != '\\'
    {
      assert SafeByte(s[i]);
    }
  }

  /** The first rune of the name before shortening is no white space, or there is nothing to shorten. */
  predicate Steady(name: string) {
    var s := Cleaned(name);
    |s| <= MAX_NAME || !IsSpace(Decode(s).0)
  }

  /** A name that denotes an entry of the directory it is looked up in. */
  predicate Plain(n: string) { n != "" && n != "." && n != ".." && '/' !in n }

  /** A steady name comes out empty or starts with neither a blank, a dot nor a hyphen; so it never
      names the directory itself, its parent, or a temporary file. */
  lemma SteadyName(name: string)
    requires Steady(name)
    ensures var r := SafeFilename(name); r == "" || (r[0] !in {' ', '.', '-'} && Plain(r))
  {
    CleanedSafe(name);
    SafeFilenameBytes(name);
    ShortenFirst(Cleaned(name));
  }

  lemma ShortenFirst(s: string)
    requires |s| <= MAX_NAME || !IsSpace(Decode(s).0)
    ensures s != "" ==> Shorten(s) != "" && Shorten(s)[0] == s[0]
    ensures s == "" ==> Shorten(s) == ""
  {
    if |s| > MAX_NAME {
      KeepsFirst(s, if MAX_NAME - |Ext(s)| < 1 then MAX_NAME else MAX_NAME - |Ext(s)|);
    }
  }

  lemma KeepsFirst(s: string, keep: nat)
    requires 1 <= keep <= |s| && !IsSpace(Decode(s).0)
    ensures TrimSpace(s[..keep]) != "" && TrimSpace(s[..keep])[0] == s[0]
  {
    var k := s[..keep];
    FirstRuneCut(s, keep);
    assert TrimLeftSpace(k) == k;
    KeepsSome(k, k);
    TrimRightSpacePrefix(k);
  }

  /** Cutting a string either keeps its first rune or leaves an invalid byte in its place. */
  lemma FirstRuneCut(s: string, keep: nat)
    requires 1 <= keep <= |s| && !IsSpace(Decode(s).0)
    ensures !IsSpace(Decode(s[..keep]).0)
  {
    var k := s[..keep];
    assert forall i: nat :: i < keep ==> B(k, i) == B(s, i);
  }

  /** Trimming white space on the right never reaches a first rune that is none. */
  lemma {:induction false} KeepsSome(k: string, t: string)
    requires t != "" && t <= k && !IsSpace(Decode(k).0)
    requires !IsSpace(Decode(t).0)
    ensures TrimRightSpace(t) != ""
    decreases |t|
  {
    var (r, n) := DecodeLast(t);
    if IsSpace(r) {
      if n == |t| {
        LastIsFirst(t);
      } else {
        FirstRuneCut(t, |t| - n);
        KeepsSome(k, t[..|t| - n]);
      }
    }
  }

  lemma LastIsFirst(t: string)
    requires t != "" && DecodeLast(t).1 == |t|
    ensures DecodeLast(t).0 == Decode(t).0
  {
    assert t[0..] == t;
  }

  predicate Ascii(s: string) {
    forall i: nat :: i < |s| ==> B(s, i) < 0x80
  }

  lemma AsciiDrop(s: string, n: nat)
    requires Ascii(s) && n <= |s|
    ensures Ascii(s[n..])
  {
    forall k: nat | k < |s| - n
      ensures B(s[n..], k) < 0x80
    {
      assert B(s, n + k) < 0x80;
    }
  }

  lemma AsciiTake(s: string, n: nat)
    requires Ascii(s) && n <= |s|
    ensures Ascii(s[..n])
  {
    forall k: nat | k < n
      ensures B(s[..n], k) < 0x80
    {
      assert B(s, k) < 0x80;
    }
  }

  lemma {:induction false} CleanAscii(s: string)
    requires Ascii(s)
    ensures Ascii(Clean(s))
    decreases |s|
  {
    if s != "" {
      assert B(s, 0) < 0x80;
      AsciiDrop(s, 1);
      CleanAscii(s[1..]);
      var (e, rest) := (Encode(CleanRune(B(s, 0))), Clean(s[1..]));
      forall i: nat | i < |e + rest|
        ensures B(e + rest, i) < 0x80
      {
        if i > 0 {
          assert B(rest, i - 1) < 0x80;
        }
      }
    }
  }

  lemma {:induction false} CleanLength(s: string)
    requires Ascii(s)
    ensures |Clean(s)| == |s|
    decreases |s|
  {
    if s != "" {
      assert B(s, 0) < 0x80;
      AsciiDrop(s, 1);
      CleanLength(s[1..]);
    }
  }

  lemma {:induction false} CleanKeeps(s: string)
    requires Ascii(s) && SafeBytes(s)
    ensures Clean(s) == s
    decreases |s|
  {
    if s != "" {
      assert B(s, 0) < 0x80 && SafeByte(s[0]);
      AsciiDrop(s, 1);
      CleanKeeps(s[1..]);
      assert s == [s[0]] + s[1..];
    }
  }

  /** Every ASCII name is steady. */
  lemma AsciiSteady(name: string)
    requires Ascii(name)
    ensures Steady(name)
  {
    var slashed := Slashes(name);
    forall i: nat | i < |slashed|
      ensures B(slashed, i) < 0x80
    {
      assert B(name, i) < 0x80;
    }
    BaseAscii(slashed);
    CleanAscii(BaseName(slashed));
    CleanedSafe(name);
    CleanedAscii(Clean(BaseName(slashed)));
    var c := Cleaned(name);
    if c != "" {
      assert B(c, 0) < 0x80 && SafeByte(c[0]);
    }
  }

  lemma CleanedAscii(s: string)
    requires Ascii(s)
    ensures Ascii(Dehyphen(Trim(s, {' ', '.'})))
  {
    var i, j := TrimMiddle(s, {' ', '.'});
    AsciiTake(s, j);
    AsciiDrop(s[..j], i);
    assert s[..j][i..] == s[i..j];
    DehyphenAscii(Trim(s, {' ', '.'}));
  }

  lemma DehyphenAscii(u: string)
    requires Ascii(u)
    ensures Ascii(Dehyphen(u))
  {
    forall i: nat | i < |Dehyphen(u)|
      ensures B(Dehyphen(u), i) < 0x80
    {
      assert B(u, i) < 0x80;
    }
  }

  lemma BaseAscii(s: string)
    requires Ascii(s)
    ensures Ascii(BaseName(s))
  {
    var t := StripSlashes(s);
    StripSlashesPrefix(s);
    AfterSlashSuffix(t);
    AsciiTake(s, |t|);
    assert t == s[..|t|];
    AsciiDrop(t, |t| - |AfterSlash(t)|);
  }

  // ---- sanitising twice --------------------------------------------------------------------

  lemma {:induction false} CleanTwice(s: string)
    ensures Clean(Clean(s)) == Clean(s)
    decreases |s|
  {
    if s != "" {
      var (r, n) := Decode(s);
      var (e, rest) := (Encode(CleanRune(r)), Clean(s[n..]));
      CleanTwice(s[n..]);
      RoundTrip(CleanRune(r), rest);
      assert (e + rest)[|e|..] == rest;
    }
  }

  /** Cleaning is done piece by piece when the second piece starts with an ASCII byte. */
  lemma {:induction false} CleanSplit(s: string, t: string)
    requires t != "" ==> B(t, 0) < 0x80
    ensures Clean(s + t) == Clean(s) + Clean(t)
    decreases |s|
  {
    if s == "" {
      assert s + t == t;
    } else {
      var n := Decode(s).1;
      DecodeBeforeAscii(s, t);
      assert (s + t)[n..] == s[n..] + t;
      CleanSplit(s[n..], t);
    }
  }

  lemma CleanByte(ch: char)
    requires ch as int < 0x80
    ensures |Clean([ch])| == 1
  {
    assert B([ch], 0) == ch as int;
    assert [ch][1..] == "";
  }

  /** Dropping an ASCII byte from either end of a clean string leaves it clean. */
  lemma {:induction false} CleanEnds(ch: char, s: string)
    requires ch as int < 0x80
    ensures Clean([ch] + s) == [ch] + s ==> Clean(s) == s
    ensures Clean(s + [ch]) == s + [ch] ==> Clean(s) == s
  {
    CleanByte(ch);
    assert B([ch] + s, 0) == ch as int && ([ch] + s)[1..] == s;
    var e := Encode(CleanRune(ch as int));
    assert Clean([ch] + s) == e + Clean(s) && |e| == 1;
    if Clean([ch] + s) == [ch] + s {
      assert (e + Clean(s))[1..] == ([ch] + s)[1..];
    }
    assert B([ch], 0) < 0x80;
    CleanSplit(s, [ch]);
    if Clean(s + [ch]) == s + [ch] {
      assert (Clean(s) + Clean([ch]))[..|Clean(s)|] == (s + [ch])[..|s|];
    }
  }

  lemma {:induction false} TrimLeftClean(s: string, cut: set<char>)
    requires Clean(s) == s && forall ch :: ch in cut ==> ch as int < 0x80
    ensures Clean(TrimLeft(s, cut)) == TrimLeft(s, cut)
    decreases |s|
  {
    if s != "" && s[0] in cut {
      assert s == [s[0]] + s[1..];
      CleanEnds(s[0], s[1..]);
      TrimLeftClean(s[1..], cut);
    }
  }

  lemma {:induction false} TrimRightClean(s: string, cut: set<char>)
    requires Clean(s) == s && forall ch :: ch in cut ==> ch as int < 0x80
    ensures Clean(TrimRight(s, cut)) == TrimRight(s, cut)
    decreases |s|
  {
    if s != "" && s[|s| - 1] in cut {
      assert s == s[..|s| - 1] + [s[|s| - 1]];
      CleanEnds(s[|s| - 1], s[..|s| - 1]);
      TrimRightClean(s[..|s| - 1], cut);
    }
  }

  lemma CleanedClean(name: string)
    ensures Clean(Cleaned(name)) == Cleaned(name)
  {
    var s := Clean(BaseName(Slashes(name)));
    CleanTwice(BaseName(Slashes(name)));
    TrimLeftClean(s, {' ', '.'});
    TrimRightClean(TrimLeft(s, {' ', '.'}), {' ', '.'});
    DehyphenClean(Trim(s, {' ', '.'}));
  }

  lemma {:induction false} DehyphenClean(t: string)
    requires Clean(t) == t
    ensures Clean(Dehyphen(t)) == Dehyphen(t)
  {
    if t != "" && t[0] == '-' {
      assert t == [t[0]] + t[1..];
      CleanEnds(t[0], t[1..]);
      var u := "_" + t[1..];
      assert B(u, 0) == '_' as int && u[1..] == t[1..];
    }
  }

  lemma {:induction false} AfterSlashNone(s: string)
    requires '/' !in s
    ensures AfterSlash(s) == s
    decreases |s|
  {
    if s != "" {
      assert s == s[..|s| - 1] + [s[|s| - 1]];
      AfterSlashNone(s[..|s| - 1]);
    }
  }

  lemma BaseNameNone(s: string)
    requires s != "" && '/' !in s && '\\' !in s
    ensures BaseName(Slashes(s)) == s
  {
    assert Slashes(s) == s;
    assert s[|s| - 1] in s;
    AfterSlashNone(s);
  }

  lemma EndsFixed(r: string)
    requires r != "" && Framed(r) && '/' !in r && '\\' !in r
    ensures BaseName(Slashes(r)) == r == Trim(r, {' ', '.'})
  {
    BaseNameNone(r);
    TrimNothing(r, {' ', '.'});
  }

  lemma {:induction false} CleanedFixed(r: string)
    requires BaseName(Slashes(r)) == r == Trim(r, {' ', '.'}) && Clean(r) == r
    requires r != "" && r[0] != '-' && |r| <= MAX_NAME
    ensures SafeFilename(r) == r
  {
    CleanedBy(r, r, r, r);
    ShortIsKept(r, Cleaned(r));
  }

  lemma ShortIsKept(name: string, c: string)
    requires c == Cleaned(name) && |c| <= MAX_NAME
    ensures SafeFilename(name) == c
  {
  }

  /** A clean name with proper ends passes through unchanged. */
  lemma {:induction false} FixedName(r: string)
    requires r != "" && Framed(r) && '/' !in r && '\\' !in r && Clean(r) == r && |r| <= MAX_NAME
    ensures SafeFilename(r) == r
  {
    EndsFixed(r);
    CleanedFixed(r);
  }

  lemma {:induction false} CleanedBy(name: string, base: string, s: string, t: string)
    requires base == BaseName(Slashes(name)) && s == Clean(base) && t == Trim(s, {' ', '.'})
    ensures Cleaned(name) == Dehyphen(t)
  {
  }

  lemma TrimNothing(r: string, cut: set<char>)
    requires r != "" && r[0] !in cut && r[|r| - 1] !in cut
    ensures Trim(r, cut) == r
  {
  }

  /** A name that was short enough to keep is left alone when it is sanitised again. */
  lemma SafeFilenameTwice(name: string)
    requires |Cleaned(name)| <= MAX_NAME
    ensures SafeFilename(SafeFilename(name)) == SafeFilename(name)
  {
    CleanedSafe(name);
    CleanedClean(name);
    SafeNoSlash(Cleaned(name));
    if Cleaned(name) == "" {
      SafeEmpty();
    } else {
      FixedName(Cleaned(name));
    }
  }

  lemma SafeEmpty()
    ensures SafeFilename("") == ""
  {
    assert Slashes("") == "";
    var d := ".";
    assert Decode(d) == ('.' as int, 1) && d[1..] == "";
    assert Clean(".") == "." + Clean(d[1..]);
    assert TrimLeft(".", {' ', '.'}) == TrimLeft(d[1..], {' ', '.'});
  }
}
