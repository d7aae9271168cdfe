/** A path that arrives with fewer segments than were sent: a name of many no-break spaces is cut right
    after its first dot, and what is left of it is "." (internal/dumpbox/server.go:547-595). */
module LostSegment {
  import opened Sums
  import opened Utf8
  import opened Naming
  import opened Sanitising
  import opened Paths

  /** n times U+00A0. */
  function Blanks(n: nat): (s: string)
    ensures |s| == 2 * n
  {
    if n == 0 then "" else [0xC2 as char, 0xA0 as char] + Blanks(n - 1)
  }

  function Letters(n: nat): (s: string)
    ensures |s| == n && forall i :: 0 <= i < n ==> s[i] == 'x'
  {
    seq(n, i => 'x')
  }

  function Tail(m: nat): string { ". " + Letters(m) }

  /** As many blanks as fill the limit but for two bytes, a dot, a space, and at least as many letters as
      the limit: 109 blanks and 300 letters, for example. */
  predicate Lengths(n: nat, m: nat) { 2 * n + 2 == MAX_NAME <= m }

  function LongName(n: nat, m: nat): string { Blanks(n) + Tail(m) }

  lemma {:induction false} BlanksBytes(n: nat, i: nat)
    requires i < 2 * n
    ensures B(Blanks(n), i) == 0xC2 || B(Blanks(n), i) == 0xA0
    decreases n
  {
    if i >= 2 {
      BlanksBytes(n - 1, i - 2);
    }
  }

  lemma BlankFirst(t: string)
    ensures Decode([0xC2 as char, 0xA0 as char] + t) == (0xA0, 2) && Encode(0xA0) == [0xC2 as char, 0xA0 as char]
  {
    var s := [0xC2 as char, 0xA0 as char] + t;
    assert B(s, 0) == 0xC2 && B(s, 1) == 0xA0 && Continues(s, 1, 0x80, 0xBF);
  }

  lemma {:induction false} BlanksMore(n: nat, t: string)
    requires n > 0
    ensures Blanks(n) + t == [0xC2 as char, 0xA0 as char] + (Blanks(n - 1) + t)
    ensures (Blanks(n) + t)[2..] == Blanks(n - 1) + t
  {
  }

  lemma {:induction false} CleanBlank(t: string)
    ensures Clean([0xC2 as char, 0xA0 as char] + t) == [0xC2 as char, 0xA0 as char] + Clean(t)
  {
    var s := [0xC2 as char, 0xA0 as char] + t;
    BlankFirst(t);
    assert s[2..] == t && CleanRune(0xA0) == 0xA0;
  }

  /** Cleaning leaves them alone. */
  lemma {:induction false} CleanBlanks(n: nat, t: string)
    requires Clean(t) == t
    ensures Clean(Blanks(n) + t) == Blanks(n) + t
    decreases n
  {
    if n > 0 {
      var rest := Blanks(n - 1) + t;
      CleanBlanks(n - 1, t);
      CleanBlank(rest);
      BlanksMore(n, t);
      assert Clean([0xC2 as char, 0xA0 as char] + rest) == [0xC2 as char, 0xA0 as char] + rest;
    } else {
      assert Blanks(0) + t == t;
    }
  }

  /** Trimming white space takes them off. */
  lemma {:induction false} TrimBlanks(n: nat, t: string)
    ensures TrimLeftSpace(Blanks(n) + t) == TrimLeftSpace(t)
    decreases n
  {
    if n > 0 {
      BlanksMore(n, t);
      BlankFirst(Blanks(n - 1) + t);
      TrimBlanks(n - 1, t);
    } else {
      assert Blanks(0) + t == t;
    }
  }

  lemma TailIsClean(m: nat)
    ensures Clean(Tail(m)) == Tail(m) && '/' !in Tail(m) && '\\' !in Tail(m)
  {
    var t := Tail(m);
    forall i: nat | i < |t|
      ensures B(t, i) < 0x80 && SafeByte(t[i])
    {
    }
    CleanKeeps(t);
    SafeNoSlash(t);
  }

  lemma NoSlash(n: nat, m: nat)
    ensures '/' !in LongName(n, m) && '\\' !in LongName(n, m)
  {
    TailIsClean(m);
    forall i | 0 <= i < |LongName(n, m)|
      ensures LongName(n, m)[i] != '/' && LongName(n, m)[i] != '\\'
    {
      if i < 2 * n {
        BlanksBytes(n, i);
      } else {
        assert LongName(n, m)[i] == Tail(m)[i - 2 * n];
      }
    }
  }

  lemma {:induction false} Ends(n: nat, m: nat)
    requires n > 0 && m > 0
    ensures var s := LongName(n, m); |s| == 2 * n + 2 + m && s[0] !in {' ', '.', '-'} && s[|s| - 1] !in {' ', '.'}
  {
    var s := LongName(n, m);
    BlanksBytes(n, 0);
    assert B(s, 0) == B(Blanks(n), 0) && s[|s| - 1] == Letters(m)[m - 1];
  }

  /** The long name comes through cleaning unchanged. */
  lemma {:induction false} CleanedLongName(n: nat, m: nat)
    requires n > 0 && m > 0
    ensures Cleaned(LongName(n, m)) == LongName(n, m)
  {
    NoSlash(n, m);
    Ends(n, m);
    TailIsClean(m);
    CleanBlanks(n, Tail(m));
    CleanedSame(LongName(n, m));
  }

  lemma {:induction false} CleanedSame(s: string)
    requires '/' !in s && '\\' !in s && Clean(s) == s
    requires s != "" && s[0] !in {' ', '.', '-'} && s[|s| - 1] !in {' ', '.'}
    ensures Cleaned(s) == s
  {
    BaseNameNone(s);
    TrimNothing(s, {' ', '.'});
    CleanedBy(s, s, s, s);
  }

  lemma {:induction false} Parts(n: nat, m: nat)
    ensures LongName(n, m) == Blanks(n) + "." + (" " + Letters(m)) && LongName(n, m)[..2 * n + 2] == Blanks(n) + ". "
    ensures '.' !in " " + Letters(m) && '/' !in " " + Letters(m)
  {
  }

  lemma {:induction false} ShortenedLongName(n: nat, m: nat)
    requires Lengths(n, m)
    ensures Shorten(LongName(n, m)) == "."
  {
    Parts(n, m);
    ExtFromDot(Blanks(n), " " + Letters(m));
    TrimBlanks(n, ". ");
    TrimDot();
  }

  lemma TrimDot()
    ensures TrimSpace(". ") == "." && TrimLeftSpace(". ") == ". "
  {
    var s := ". ";
    assert B(s, 0) == '.' as int && B(s, 1) == ' ' as int && s[..1] == ".";
    assert TrimLeftSpace(s) == s && DecodeLast(s) == (' ' as int, 1);
    assert B(".", 0) == '.' as int && DecodeLast(".") == ('.' as int, 1);
  }

  /** Sanitised, it names the directory it is in. */
  lemma {:induction false} LongNameIsDot(n: nat, m: nat)
    requires Lengths(n, m)
    ensures SafeFilename(LongName(n, m)) == "." && !Plain(SafeFilename(LongName(n, m)))
  {
    CleanedLongName(n, m);
    ShortenedLongName(n, m);
  }

  lemma {:induction false} Kept(first: string)
    requires Plain(first)
    ensures LocalPath([first] + ["."], []) == Some([first])
  {
    LocalStep(first, ["."], []);
    assert Descend([], first) == [first] && ["."] + [] == ["."];
    LocalStep(".", [], [first]);
  }

  lemma SanitisedPair(first: string, name: string)
    requires SafeFilename(first) == first
    ensures Sanitised([first, name]) == [first] + [SafeFilename(name)]
  {
  }

  lemma {:induction false} LetterFaithful()
    ensures Faithful("a") && Plain("a")
  {
    assert B("a", 0) < 0x80;
    AsciiFaithful("a");
  }

  lemma {:induction false} LocalStep(first: string, rest: seq<string>, local: seq<string>)
    requires first != ""
    ensures LocalPath([first] + rest, local) == LocalPath(rest, Descend(local, first))
  {
    assert ([first] + rest)[1..] == rest;
  }

  lemma {:induction false} TwoSegments(name: string)
    requires '/' !in name && '\\' !in name
    ensures Split(Slashes("a/" + name)) == ["a", name]
  {
    var relative := "a/" + name;
    assert Slashes(relative) == relative && relative == "a" + "/" + name;
    SplitSegment("a", name);
    SplitSegment(name, "");
  }

  /** Two segments are sent, one arrives. */
  lemma {:induction false} SegmentLost(n: nat, m: nat)
    requires Lengths(n, m)
    ensures var relative := "a/" + LongName(n, m);
            Split(Slashes(relative)) == ["a", LongName(n, m)] && RelativePath(relative) == Some(["a"])
  {
    NoSlash(n, m);
    TwoSegments(LongName(n, m));
    LongNameIsDot(n, m);
    LetterFaithful();
    SanitisedPair("a", LongName(n, m));
    Kept("a");
  }
}
