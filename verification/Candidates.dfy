/** The names tried when a name is taken (internal/dumpbox/server.go:507-545). */
module Candidates {
  import opened Naming
  import opened Sanitising

  const ATTEMPTS := 10_000

  function Digit(n: nat): char
    requires n < 10
  {
    ('0' as int + n) as char
  }

  /** %d of a natural number. */
  function Decimal(n: nat): (s: string)
    ensures s != ""
  {
    if n < 10 then [Digit(n)] else Decimal(n / 10) + [Digit(n % 10)]
  }

  lemma {:induction false} DecimalInjective(m: nat, n: nat)
    requires Decimal(m) == Decimal(n)
    ensures m == n
    decreases m
  {
    var (s, t) := (Decimal(m), Decimal(n));
    assert s[|s| - 1] == t[|t| - 1];
    if m >= 10 && n >= 10 {
      assert s[..|s| - 1] == Decimal(m / 10) && t[..|t| - 1] == Decimal(n / 10);
      DecimalInjective(m / 10, n / 10);
    } else {
      assert |s| == |t|;
    }
  }

  lemma {:induction false} DecimalLength(n: nat)
    ensures n < 10 ==> |Decimal(n)| == 1
    ensures n < 100 ==> |Decimal(n)| <= 2
    ensures n < 1000 ==> |Decimal(n)| <= 3
    ensures n < 10_000 ==> |Decimal(n)| <= 4
    ensures forall i :: 0 <= i < |Decimal(n)| ==> '0' <= Decimal(n)[i] <= '9'
    decreases n
  {
    if n >= 10 {
      DecimalLength(n / 10);
    }
  }

  /** What a decimal says. */
  function Value(s: string): nat
    requires forall i :: 0 <= i < |s| ==> '0' <= s[i] <= '9'
  {
    if s == "" then 0 else Value(s[..|s| - 1]) * 10 + (s[|s| - 1] as int - '0' as int)
  }

  /** The printed number says what was printed, in digits without a leading zero. */
  lemma {:induction false} DecimalReads(n: nat)
    ensures forall i :: 0 <= i < |Decimal(n)| ==> '0' <= Decimal(n)[i] <= '9'
    ensures Value(Decimal(n)) == n && (n > 0 ==> Decimal(n)[0] != '0')
    decreases n
  {
    DecimalLength(n);
    if n >= 10 {
      DecimalReads(n / 10);
      assert Decimal(n)[..|Decimal(n)| - 1] == Decimal(n / 10);
    } else {
      assert Decimal(n)[..0] == "";
    }
  }

  function Numbered(stem: string, i: nat, extension: string): string {
    stem + " (" + Decimal(i) + ")" + extension
  }

  /** The names publishFile tries, in order. */
  function FileCandidate(name: string, i: nat): string {
    if i == 0 then name else Numbered(Stem(name), i, Ext(name))
  }

  /** The names createUniqueDirectory tries, in order. */
  function FolderCandidate(name: string, i: nat): string {
    if i == 0 then name else Numbered(name, i, "")
  }

  /** The k-th candidate of a file with an extension is "stem (k).extension". */
  lemma {:induction false} CandidateWithExtension(stem: string, extension: string, k: nat)
    requires '.' !in extension && '/' !in extension
    ensures var name := stem + "." + extension;
            FileCandidate(name, k) == if k == 0 then name else stem + " (" + Decimal(k) + ")." + extension
  {
    var name := stem + "." + extension;
    ExtFromDot(stem, extension);
    assert Stem(name) == stem;
    var (open, d) := (stem + " (", Decimal(k));
    assert open + d + ")" + ("." + extension) == open + d + ")." + extension;
  }

  /** That of a file without one, or of a folder, is "name (k)". */
  lemma {:induction false} CandidatePlain(name: string, k: nat)
    ensures FolderCandidate(name, k) == if k == 0 then name else name + " (" + Decimal(k) + ")"
    ensures '.' !in name ==> FileCandidate(name, k) == FolderCandidate(name, k)
  {
    if '.' !in name {
      NoDotNoExt(name);
      assert Stem(name) == name;
    }
    var whole := name + " (" + Decimal(k) + ")";
    assert whole + "" == whole;
  }

  lemma NumberedInjective(stem: string, i: nat, j: nat, extension: string)
    requires Numbered(stem, i, extension) == Numbered(stem, j, extension)
    ensures i == j
  {
    var (s, t) := (Numbered(stem, i, extension), Numbered(stem, j, extension));
    assert |s| == |stem| + 2 + |Decimal(i)| + 1 + |extension|;
    assert s[|stem| + 2..|stem| + 2 + |Decimal(i)|] == Decimal(i);
    assert t[|stem| + 2..|stem| + 2 + |Decimal(j)|] == Decimal(j);
    DecimalInjective(i, j);
  }

  /** The candidates for one name are pairwise distinct. */
  lemma FileCandidatesDiffer(name: string, i: nat, j: nat)
    requires FileCandidate(name, i) == FileCandidate(name, j)
    ensures i == j
  {
    if i > 0 && j > 0 {
      NumberedInjective(Stem(name), i, j, Ext(name));
    } else {
      ExtIsSuffix(name);
    }
  }

  lemma FolderCandidatesDiffer(name: string, i: nat, j: nat)
    requires FolderCandidate(name, i) == FolderCandidate(name, j)
    ensures i == j
  {
    if i > 0 && j > 0 {
      NumberedInjective(name, i, j, "");
    }
  }

  /** Every candidate for a sanitised name fits a directory entry, with room to spare below 255 bytes. */
  lemma CandidateLength(filename: string, i: nat)
    requires i < 10_000
    ensures |FileCandidate(SafeFilename(filename), i)| <= 227
    ensures |FolderCandidate(SafeFilename(filename), i)| <= 227
  {
    SafeFilenameBytes(filename);
    DecimalLength(i);
    ExtIsSuffix(SafeFilename(filename));
  }

  lemma NumberedPlain(stem: string, i: nat, extension: string)
    requires '/' !in stem && '/' !in extension
    ensures Plain(Numbered(stem, i, extension))
  {
    DecimalLength(i);
    var s := Numbered(stem, i, extension);
    forall j | 0 <= j < |s|
      ensures s[j] != '/'
    {
      assert j < |stem| ==> s[j] == stem[j];
      assert |stem| + 2 <= j < |stem| + 2 + |Decimal(i)| ==> s[j] == Decimal(i)[j - |stem| - 2];
      assert j >= |stem| + 3 + |Decimal(i)| ==> s[j] == extension[j - (|stem| + 3 + |Decimal(i)|)];
    }
    assert |s| >= 4;
  }

  /** Candidates after the first are always real names; the first is one if the name is. */
  lemma CandidatesPlain(name: string, i: nat)
    requires '/' !in name && (i == 0 ==> Plain(name))
    ensures Plain(FileCandidate(name, i)) && Plain(FolderCandidate(name, i))
  {
    ExtIsSuffix(name);
    NumberedPlain(Stem(name), i, Ext(name));
    NumberedPlain(name, i, "");
  }

  /** What makes the search succeed: with fewer names taken than there are distinct candidates, one
      of them is free. */
  lemma {:induction false} SomeCandidateFree(taken: set<string>, candidate: nat -> string, n: nat) returns (i: nat)
    requires forall i: nat, j: nat :: i < n && j < n && candidate(i) == candidate(j) ==> i == j
    requires |taken| < n
    ensures i < n && candidate(i) !in taken
    ensures forall j: nat :: j < i ==> candidate(j) in taken
    decreases n
  {
    if forall j: nat :: j < n - 1 ==> candidate(j) in taken {
      i := n - 1;
      if candidate(i) in taken {
        AllDistinct(taken, candidate, n);
      }
    } else {
      i :| i < n - 1 && candidate(i) !in taken;
      i := FirstBelow(taken, candidate, i);
    }
  }

  lemma {:induction false} FirstBelow(taken: set<string>, candidate: nat -> string, n: nat) returns (i: nat)
    requires candidate(n) !in taken
    ensures i <= n && candidate(i) !in taken
    ensures forall j: nat :: j < i ==> candidate(j) in taken
    decreases n
  {
    if j: nat :| j < n && candidate(j) !in taken {
      i := FirstBelow(taken, candidate, j);
    } else {
      i := n;
    }
  }

  lemma {:induction false} AllDistinct(taken: set<string>, candidate: nat -> string, n: nat)
    requires forall i: nat, j: nat :: i < n && j < n && candidate(i) == candidate(j) ==> i == j
    requires forall i: nat :: i < n ==> candidate(i) in taken
    ensures |taken| >= n
    decreases n
  {
    if n > 0 {
      AllDistinct(taken - {candidate(n - 1)}, candidate, n - 1);
    }
  }

  /** publishFile in a directory of fewer than 10,000 entries, with nobody else at work: a free name
      is found, and it is the first free one in order. */
  lemma FileSearch(taken: set<string>, name: string) returns (i: nat)
    requires |taken| < 10_000
    ensures i < 10_000 && FileCandidate(name, i) !in taken
    ensures forall j: nat :: j < i ==> FileCandidate(name, j) in taken
  {
    forall i: nat, j: nat | i < ATTEMPTS && j < ATTEMPTS && FileCandidate(name, i) == FileCandidate(name, j)
      ensures i == j
    {
      FileCandidatesDiffer(name, i, j);
    }
    i := SomeCandidateFree(taken, (i: nat) => FileCandidate(name, i), ATTEMPTS);
    assert forall j: nat :: j < i ==> ((i: nat) => FileCandidate(name, i))(j) == FileCandidate(name, j);
  }

  lemma FolderSearch(taken: set<string>, name: string) returns (i: nat)
    requires |taken| < 10_000
    ensures i < 10_000 && FolderCandidate(name, i) !in taken
    ensures forall j: nat :: j < i ==> FolderCandidate(name, j) in taken
  {
    forall i: nat, j: nat | i < ATTEMPTS && j < ATTEMPTS && FolderCandidate(name, i) == FolderCandidate(name, j)
      ensures i == j
    {
      FolderCandidatesDiffer(name, i, j);
    }
    i := SomeCandidateFree(taken, (i: nat) => FolderCandidate(name, i), ATTEMPTS);
    assert forall j: nat :: j < i ==> ((i: nat) => FolderCandidate(name, i))(j) == FolderCandidate(name, j);
  }
}
