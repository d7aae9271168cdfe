/** What sanitising makes of a name: which part of it is kept, which bytes are replaced, and what is lost
    when it is too long (internal/dumpbox/server.go:569-595). */
module Sanitising {
  import opened Utf8
  import opened Naming

  // ---- white space at the ends ------------------------------------------------------------------

  /** Nothing but white space, rune by rune. */
  predicate AllSpace(s: string) {
    s == "" || (IsSpace(Decode(s).0) && AllSpace(s[Decode(s).1..]))
  }

  /** A white space rune is read the same whatever follows it. */
  lemma SpaceStands(s: string, t: string)
    requires s != "" && t != "" && IsSpace(Decode(s).0) && Decode(s).1 <= |t|
    requires forall i :: 0 <= i < Decode(s).1 ==> t[i] == s[i]
    ensures Decode(t) == Decode(s)
  {
    var n := Decode(s).1;
    assert forall i: nat :: i < n ==> B(t, i) == B(s, i);
  }

  lemma {:induction false} SpaceJoin(s: string, t: string)
    requires AllSpace(s) && AllSpace(t)
    ensures AllSpace(s + t)
    decreases |s|
  {
    if s == "" {
      assert s + t == t;
    } else {
      var n := Decode(s).1;
      SpaceStands(s, s + t);
      assert (s + t)[n..] == s[n..] + t;
      SpaceJoin(s[n..], t);
    }
  }

  lemma FirstSpace(s: string)
    requires s != "" && IsSpace(Decode(s).0)
    ensures AllSpace(s[..Decode(s).1])
  {
    var n := Decode(s).1;
    SpaceStands(s, s[..n]);
    assert s[..n][n..] == "";
  }

  lemma GlueLeft(s: string, n: nat, lost: string, t: string)
    requires n <= |s| && s[n..] == lost + t
    ensures s == s[..n] + lost + t
  {
  }

  lemma GlueRight(s: string, m: nat, t: string, lost: string)
    requires m <= |s| && s[..m] == t + lost
    ensures s == t + (lost + s[m..])
  {
  }

  lemma {:induction false} TrimLeftLoses(s: string) returns (lost: string)
    ensures s == lost + TrimLeftSpace(s) && AllSpace(lost)
    ensures TrimLeftSpace(s) != "" ==> !IsSpace(Decode(TrimLeftSpace(s)).0)
    decreases |s|
  {
    lost := "";
    if s != "" && IsSpace(Decode(s).0) {
      var n := Decode(s).1;
      var rest := TrimLeftLoses(s[n..]);
      FirstSpace(s);
      SpaceJoin(s[..n], rest);
      lost := s[..n] + rest;
      GlueLeft(s, n, rest, TrimLeftSpace(s[n..]));
    }
  }

  /** The last rune, when it is white space, is the tail of the string on its own. */
  lemma {:induction false} LastRune(s: string)
    requires s != "" && IsSpace(DecodeLast(s).0)
    ensures AllSpace(s[|s| - DecodeLast(s).1..])
  {
    var n := DecodeLast(s).1;
    var t := s[|s| - n..];
    if B(s, |s| - 1) < 0x80 {
      assert B(t, 0) == B(s, |s| - 1);
    } else if |s| == 1 {
      assert t == s;
    }
    assert Decode(t) == DecodeLast(s);
    assert t[n..] == "";
  }

  lemma {:induction false} TrimRightLoses(s: string) returns (lost: string)
    ensures s == TrimRightSpace(s) + lost && AllSpace(lost)
    ensures TrimRightSpace(s) != "" ==> !IsSpace(DecodeLast(TrimRightSpace(s)).0)
    decreases |s|
  {
    lost := "";
    if s != "" && IsSpace(DecodeLast(s).0) {
      var m := |s| - DecodeLast(s).1;
      var rest := TrimRightLoses(s[..m]);
      LastRune(s);
      SpaceJoin(rest, s[m..]);
      lost := rest + s[m..];
      GlueRight(s, m, TrimRightSpace(s[..m]), rest);
    }
  }

  /** t is what is left of s without the white space at its ends. */
  ghost predicate Trimmed(s: string, before: string, t: string, after: string) {
    && s == before + t + after && AllSpace(before) && AllSpace(after)
    && (t + after != "" ==> !IsSpace(Decode(t + after).0)) && (t != "" ==> !IsSpace(DecodeLast(t).0))
  }

  lemma {:induction false} TrimSpaceExactly(s: string) returns (before: string, after: string)
    ensures Trimmed(s, before, TrimSpace(s), after)
  {
    before := TrimLeftLoses(s);
    after := TrimRightLoses(TrimLeftSpace(s));
    assert s == before + TrimLeftSpace(s) == before + (TrimSpace(s) + after) == before + TrimSpace(s) + after;
  }

  // ---- names that are too long ----------------------------------------------------------------------

  /** A name that is too long keeps its extension, and of what comes before as many bytes as fit 220,
      without white space at the ends; only an extension of 220 bytes or more is given up. */
  lemma {:induction false} CutName(name: string) returns (before: string, kept: string, after: string)
    requires |Cleaned(name)| > 220
    ensures var (s, e) := (Cleaned(name), Ext(Cleaned(name)));
            && (|e| < 220 ==> Trimmed(s[..220 - |e|], before, kept, after) && SafeFilename(name) == kept + e)
            && (|e| >= 220 ==> Trimmed(s[..220], before, kept, after) && SafeFilename(name) == kept)
  {
    var (s, e) := (Cleaned(name), Ext(Cleaned(name)));
    kept := TrimSpace(s[..if |e| < 220 then 220 - |e| else 220]);
    before, after := TrimSpaceExactly(s[..if |e| < 220 then 220 - |e| else 220]);
  }

  /** Of an ASCII name the bytes lost are those between the limit and the extension, and the blanks
      that would then stand before the extension. */
  lemma {:induction false} CutAscii(name: string) returns (j: nat)
    requires Ascii(name) && |Cleaned(name)| > 220 && |Ext(Cleaned(name))| < 220
    ensures var (s, keep) := (Cleaned(name), 220 - |Ext(Cleaned(name))|);
            && 0 < j <= keep && SafeFilename(name) == s[..j] + Ext(s)
            && s[j - 1] != ' ' && forall k :: j <= k < keep ==> s[k] == ' '
  {
    var (s, keep) := (Cleaned(name), 220 - |Ext(Cleaned(name))|);
    AsciiCleaned(name);
    CleanedSafe(name);
    var before, kept, after := CutName(name);
    CutAt(s, keep, before, kept, after);
    j := |kept|;
  }

  lemma {:induction false} CutAt(s: string, keep: nat, before: string, t: string, after: string)
    requires Ascii(s) && SafeBytes(s) && s != "" && s[0] != ' ' && 0 < keep <= |s|
    requires Trimmed(s[..keep], before, t, after)
    ensures 0 < |t| <= keep && t == s[..|t|] && s[|t| - 1] != ' '
    ensures forall k :: |t| <= k < keep ==> s[k] == ' '
  {
    var cut := s[..keep];
    AsciiTake(s, keep);
    SliceSafe(s, 0, keep);
    AsciiTrimmed(cut, before, t, after);
    assert cut[..|t|] == s[..|t|];
    forall k | |t| <= k < keep
      ensures s[k] == ' '
    {
      assert cut[k] == s[k];
    }
  }

  lemma {:induction false} AsciiTrimmed(s: string, before: string, t: string, after: string)
    requires Ascii(s) && SafeBytes(s) && s != "" && s[0] != ' ' && Trimmed(s, before, t, after)
    ensures before == "" && t != "" && t == s[..|t|] && s[|t| - 1] != ' '
    ensures forall k :: |t| <= k < |s| ==> s[k] == ' '
  {
    Pieces(s, before, t, after);
    OnlyBlanks(before);
    OnlyBlanks(after);
    assert s[0] == (before + t + after)[0];
    assert before == "" ==> s == t + after;
    assert t != "" ==> B(t, |t| - 1) == t[|t| - 1] as int;
  }

  lemma Pieces(s: string, before: string, t: string, after: string)
    requires s == before + t + after && Ascii(s) && SafeBytes(s)
    ensures Ascii(before) && Ascii(t) && Ascii(after) && SafeBytes(before) && SafeBytes(after)
  {
    var (m, n) := (|before|, |before| + |t|);
    assert before == s[..m] && t == s[m..][..|t|] && after == s[n..];
    AsciiTake(s, m);
    AsciiDrop(s, m);
    AsciiTake(s[m..], |t|);
    AsciiDrop(s, n);
  }

  /** After cleaning, the blank is the only ASCII white space left. */
  lemma {:induction false} OnlyBlanks(s: string)
    requires Ascii(s) && SafeBytes(s) && AllSpace(s)
    ensures forall k :: 0 <= k < |s| ==> s[k] == ' '
    decreases |s|
  {
    if s != "" {
      assert B(s, 0) < 0x80 && SafeByte(s[0]);
      AsciiDrop(s, 1);
      OnlyBlanks(s[1..]);
      assert forall k :: 1 <= k < |s| ==> s[k] == s[1..][k - 1];
    }
  }

  lemma AsciiCleaned(name: string)
    requires Ascii(name)
    ensures Ascii(Cleaned(name))
  {
    var slashed := Slashes(name);
    forall i: nat | i < |slashed|
      ensures B(slashed, i) < 0x80
    {
      assert B(name, i) < 0x80;
    }
    BaseAscii(slashed);
    CleanAscii(BaseName(slashed));
    CleanedAscii(Clean(BaseName(slashed)));
  }

  /** The extension is what follows the last dot, with the dot. */
  lemma {:induction false} ExtFromDot(s: string, t: string)
    requires '.' !in t && '/' !in t
    ensures Ext(s + "." + t) == "." + t
    decreases |t|
  {
    var whole := s + "." + t;
    if t == "" {
      assert whole[|whole| - 1] == '.';
    } else {
      var (front, last) := (t[..|t| - 1], t[|t| - 1]);
      assert last in t && whole[|whole| - 1] == last && whole[..|whole| - 1] == s + "." + front;
      ExtFromDot(s, front);
      assert "." + front + [last] == "." + t;
    }
  }

  lemma {:induction false} NoDotNoExt(s: string)
    requires '.' !in s
    ensures Ext(s) == ""
    decreases |s|
  {
    if s != "" {
      assert s[|s| - 1] in s;
      NoDotNoExt(s[..|s| - 1]);
    }
  }

  // ---- what is cleaned --------------------------------------------------------------------------------

  predicate Separators(s: string) {
    forall i :: 0 <= i < |s| ==> s[i] == '/' || s[i] == '\\'
  }

  predicate NoSeparator(s: string) {
    forall i :: 0 <= i < |s| ==> s[i] != '/' && s[i] != '\\'
  }

  /** Of a path, with slashes or backslashes, the last element is sanitised. */
  lemma {:induction false} LastElement(dir: string, sep: string, last: string, trailing: string)
    requires last != "" && NoSeparator(last) && Separators(trailing)
    requires sep == "/" || sep == "\\" || (sep == "" && dir == "")
    ensures BaseName(Slashes(dir + sep + last + trailing)) == last
    ensures SafeFilename(dir + sep + last + trailing) == SafeFilename(last)
  {
    LastIsBase(dir, sep, last, trailing);
    LastIsBase("", "", last, "");
    assert "" + "" + last + "" == last;
  }

  lemma {:induction false} LastIsBase(dir: string, sep: string, last: string, trailing: string)
    requires last != "" && NoSeparator(last) && Separators(trailing)
    requires sep == "/" || sep == "\\" || (sep == "" && dir == "")
    ensures BaseName(Slashes(dir + sep + last + trailing)) == last
  {
    var (front, slashes) := (Slashes(dir + sep), Slashes(trailing));
    var whole := Slashes(dir + sep + last + trailing);
    assert whole == front + last + slashes;
    Strips(front + last, slashes);
    AfterLast(front, last);
  }

  lemma {:induction false} Strips(s: string, slashes: string)
    requires s != "" && s[|s| - 1] != '/' && forall i :: 0 <= i < |slashes| ==> slashes[i] == '/'
    ensures StripSlashes(s + slashes) == s
    decreases |slashes|
  {
    if slashes == "" {
      assert s + slashes == s;
    } else {
      var whole := s + slashes;
      assert whole[..|whole| - 1] == s + slashes[..|slashes| - 1];
      Strips(s, slashes[..|slashes| - 1]);
    }
  }

  lemma {:induction false} AfterLast(front: string, last: string)
    requires front == "" || front[|front| - 1] == '/'
    requires forall i :: 0 <= i < |last| ==> last[i] != '/'
    ensures AfterSlash(front + last) == last
    decreases |last|
  {
    if last == "" {
      assert front + last == front;
    } else {
      var (before, end) := (last[..|last| - 1], last[|last| - 1]);
      assert (front + last)[..|front + last| - 1] == front + before && before + [end] == last;
      AfterLast(front, before);
    }
  }

  /** Rune by rune: control characters, format characters and the nine reserved ones become '_', and
      every other rune stays. */
  lemma {:induction false} CleanRuneByRune(r: Rune, t: string)
    requires IsScalar(r)
    ensures Clean(Encode(r) + t)
            == Encode(if r < 32 || r == 127 || IsFormat(r)
                         || (r < 128 && (r as char) in ['<', '>', ':', '\"', '/', '\\', '|', '?', '*']) then 95 else r)
               + Clean(t)
  {
    RoundTrip(r, t);
    assert (Encode(r) + t)[|Encode(r)|..] == t;
  }

  /** For ASCII, byte by byte. */
  lemma {:induction false} CleanByteByByte(s: string)
    requires Ascii(s)
    ensures |Clean(s)| == |s|
    ensures forall i :: 0 <= i < |s| ==>
              Clean(s)[i] == if s[i] as int < 32 || s[i] as int == 127
                                || s[i] in ['<', '>', ':', '\"', '/', '\\', '|', '?', '*'] then '_' else s[i]
    decreases |s|
  {
    if s != "" {
      assert B(s, 0) < 0x80;
      AsciiDrop(s, 1);
      CleanByteByByte(s[1..]);
      assert Encode(s[0] as int) + s[1..] == s;
      CleanRuneByRune(s[0] as int, s[1..]);
    }
  }

  /** Blanks and dots are taken off the ends, and nothing else; then a leading hyphen becomes '_'. */
  lemma {:induction false} CleanedEnds(name: string) returns (i: nat, j: nat)
    ensures var s := Clean(BaseName(Slashes(name)));
            && i <= j <= |s| && (forall k :: 0 <= k < i || j <= k < |s| ==> s[k] == ' ' || s[k] == '.')
            && (i < j ==> s[i] != ' ' && s[i] != '.' && s[j - 1] != ' ' && s[j - 1] != '.')
            && Cleaned(name) == if i < j && s[i] == '-' then "_" + s[i + 1..j] else s[i..j]
  {
    var s := Clean(BaseName(Slashes(name)));
    i, j := TrimExactly(s, {' ', '.'});
    assert i < j && s[i] == '-' ==> s[i..j][1..] == s[i + 1..j];
  }

  lemma {:induction false} TrimExactly(s: string, cut: set<char>) returns (i: nat, j: nat)
    ensures i <= j <= |s| && Trim(s, cut) == s[i..j]
    ensures forall k :: 0 <= k < i || j <= k < |s| ==> s[k] in cut
    ensures i < j ==> s[i] !in cut && s[j - 1] !in cut
  {
    var left := TrimLeft(s, cut);
    LeftLoses(s, cut);
    RightLoses(left, cut);
    TrimLeftSuffix(s, cut);
    TrimRightPrefix(left, cut);
    i := |s| - |left|;
    j := i + |TrimRight(left, cut)|;
    forall k | 0 <= k < i || j <= k < |s|
      ensures s[k] in cut
    {
      assert k >= i ==> s[k] == left[k - i];
    }
  }

  lemma {:induction false} LeftLoses(s: string, cut: set<char>)
    ensures |TrimLeft(s, cut)| <= |s| && forall k :: 0 <= k < |s| - |TrimLeft(s, cut)| ==> s[k] in cut
    decreases |s|
  {
    if s != "" && s[0] in cut {
      LeftLoses(s[1..], cut);
      forall k | 0 <= k < |s| - |TrimLeft(s, cut)|
        ensures s[k] in cut
      {
        assert k > 0 ==> s[k] == s[1..][k - 1];
      }
    }
  }

  lemma {:induction false} RightLoses(s: string, cut: set<char>)
    ensures |TrimRight(s, cut)| <= |s| && forall k :: |TrimRight(s, cut)| <= k < |s| ==> s[k] in cut
    decreases |s|
  {
    if s != "" && s[|s| - 1] in cut {
      RightLoses(s[..|s| - 1], cut);
    }
  }

  /** A name that is short enough is not cut. */
  lemma ShortName(name: string)
    requires |Cleaned(name)| <= 220
    ensures SafeFilename(name) == Cleaned(name)
  {
  }
}
