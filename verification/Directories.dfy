/** Where an identity's files live, and how a restart finds out whose they are
    (internal/dumpbox/server.go:597-619, internal/dumpbox/limits.go:79-97). */
module Directories {
  import opened Sums
  import opened Utf8
  import opened Naming
  import opened Sanitising

  predicate IsHex(ch: char) { '0' <= ch <= '9' || 'a' <= ch <= 'f' }

  /** The first 24 digits of a SHA-256 sum in hexadecimal. */
  predicate IsKey(k: string) {
    |k| == 24 && forall i :: 0 <= i < 24 ==> IsHex(k[i])
  }

  /** The range loop of quotaKeyFromDirectory: it goes over runes, not over bytes. */
  predicate HexRunes(s: string) {
    s == "" ||
    var (r, n) := Decode(s);
    r < 0x80 && IsHex(r as char) && HexRunes(s[n..])
  }

  lemma {:induction false} HexRunesAreBytes(s: string)
    ensures HexRunes(s) <==> forall i :: 0 <= i < |s| ==> IsHex(s[i])
    decreases |s|
  {
    if s != "" {
      var (r, n) := Decode(s);
      if r < 0x80 {
        assert B(s, 0) < 0x80;
        HexRunesAreBytes(s[1..]);
        assert forall i :: 1 <= i < |s| ==> s[i] == s[1..][i - 1];
      } else {
        assert B(s, 0) >= 0x80 && !IsHex(s[0]);
      }
    }
  }

  function QuotaKeyFromDirectory(name: string): Option<string> {
    if !("user-" <= name) then None
    else
      var key := name[|name| - if |name| < 24 then |name| else 24..];
      if |key| != 24 || !HexRunes(key) then None else Some(key)
  }

  /** The accepted names, exactly: "user-", then anything, then a key. Names of 24 to 28 bytes are
      out because their last 24 bytes would overlap the hyphen. */
  lemma QuotaKeyLanguage(name: string, k: string)
    ensures QuotaKeyFromDirectory(name) == Some(k) <==>
            IsKey(k) && |name| >= 29 && "user-" <= name && name[|name| - 24..] == k
  {
    if "user-" <= name && |name| >= 24 {
      var key := name[|name| - 24..];
      HexRunesAreBytes(key);
      if |name| < 29 {
        assert key[4 - (|name| - 24)] == name[4] == '-';
      }
    }
  }

  // ---- safeDirectoryComponent ---------------------------------------------------------------

  /** What unicode.IsLetter and unicode.IsNumber accept, with the four extra characters; isWord is
      an assumption about the Unicode tables only where it leaves ASCII. */
  function WordRune(isWord: Rune -> bool, r: Rune): Rune {
    if (if r < 0x80 then IsAsciiWord(r) else isWord(r)) then r else '_' as int
  }

  predicate IsAsciiWord(r: Rune) {
    || '0' as int <= r <= '9' as int || 'A' as int <= r <= 'Z' as int || 'a' as int <= r <= 'z' as int
    || r in {'-' as int, '_' as int, '.' as int, '@' as int}
  }

  const MAX_COMPONENT := 100

  /** The longest run of whole runes that fits. */
  function Fit(isWord: Rune -> bool, s: string, room: nat): (t: string)
    ensures |t| <= room
  {
    if s == "" then ""
    else
      var (r, n) := Decode(s);
      var e := Encode(WordRune(isWord, r));
      if |e| > room then "" else e + Fit(isWord, s[n..], room - |e|)
  }

  function Component(isWord: Rune -> bool, value: string): string {
    Trim(Fit(isWord, TrimSpace(value), MAX_COMPONENT), {'.', '_', '-'})
  }

  lemma Longer(built: string, e: string, rest: string, whole: string)
    requires built + (e + rest) == whole
    ensures (built + e) + rest == whole
  {
  }

  method SafeDirectoryComponent(isWord: Rune -> bool, value: string) returns (component: string)
    ensures component == Component(isWord, value)
  {
    var rest := TrimSpace(value);
    var built := "";
    ghost var whole := Fit(isWord, rest, MAX_COMPONENT);
    while rest != ""
      invariant |built| <= MAX_COMPONENT
      invariant built + Fit(isWord, rest, MAX_COMPONENT - |built|) == whole
      decreases |rest|
    {
      var (r, n) := Decode(rest);
      var e := Encode(WordRune(isWord, r));
      if |built| + |e| > MAX_COMPONENT {
        break;
      }
      Longer(built, e, Fit(isWord, rest[n..], MAX_COMPONENT - |built| - |e|), whole);
      built := built + e;
      rest := rest[n..];
    }
    assert built == whole;
    component := Trim(built, {'.', '_', '-'});
  }

  predicate WordBytes(s: string) {
    forall i: nat :: i < |s| ==> B(s, i) >= 0x80 || IsAsciiWord(B(s, i))
  }

  lemma {:induction false} FitWord(isWord: Rune -> bool, s: string, room: nat)
    ensures WordBytes(Fit(isWord, s, room))
    decreases |s|
  {
    if s != "" {
      var (r, n) := Decode(s);
      var e := Encode(WordRune(isWord, r));
      if |e| <= room {
        var rest := Fit(isWord, s[n..], room - |e|);
        FitWord(isWord, s[n..], room - |e|);
        forall i: nat | i < |e + rest|
          ensures B(e + rest, i) >= 0x80 || IsAsciiWord(B(e + rest, i))
        {
          if i >= |e| { assert B(e + rest, i) == B(rest, i - |e|); } else { assert B(e + rest, i) == B(e, i); }
        }
      }
    }
  }

  /** A username component is at most 100 bytes, contains no separator, and neither starts nor ends
      with a dot, an underscore or a hyphen. */
  lemma ComponentSafe(isWord: Rune -> bool, value: string)
    ensures var c := Component(isWord, value);
            && |c| <= 100 && '/' !in c
            && (c != "" ==> c[0] !in {'.', '_', '-'} && c[|c| - 1] !in {'.', '_', '-'})
  {
    var s := Fit(isWord, TrimSpace(value), MAX_COMPONENT);
    FitWord(isWord, TrimSpace(value), MAX_COMPONENT);
    TrimWord(s, {'.', '_', '-'});
    var _, _ := TrimMiddle(s, {'.', '_', '-'});
  }

  lemma TrimWord(s: string, cut: set<char>)
    requires WordBytes(s)
    ensures '/' !in Trim(s, cut) && |Trim(s, cut)| <= |s|
  {
    var i, j := TrimMiddle(s, cut);
    forall k | i <= k < j
      ensures s[k] != '/'
    {
      assert B(s, k) >= 0x80 || IsAsciiWord(B(s, k));
    }
  }

  // ---- userDirectory --------------------------------------------------------------------------

  function UserDirectory(isWord: Rune -> bool, username: string, key: string): string {
    var c := Component(isWord, username);
    if c == "" then "user-" + key else "user-" + c + "-" + key
  }

  /** The directory of a user whose name has anything usable in it is "user-name-key", else "user-key". */
  lemma DirectoryNamed(isWord: Rune -> bool, username: string, key: string)
    ensures Component(isWord, username) != "" ==>
              UserDirectory(isWord, username, key) == "user-" + Component(isWord, username) + "-" + key
    ensures Component(isWord, username) == "" ==> UserDirectory(isWord, username, key) == "user-" + key
  {
  }

  /** What stands for an ASCII byte of a username. */
  function WordByte(ch: char): char {
    if '0' <= ch <= '9' || 'A' <= ch <= 'Z' || 'a' <= ch <= 'z' || ch in ['-', '_', '.', '@'] then ch else '_'
  }

  function WordsOf(s: string): string {
    seq(|s|, i requires 0 <= i < |s| => WordByte(s[i]))
  }

  lemma {:induction false} FitAscii(isWord: Rune -> bool, s: string, room: nat)
    requires Ascii(s)
    ensures Fit(isWord, s, room) == WordsOf(s[..if |s| < room then |s| else room])
    decreases |s|
  {
    if s != "" {
      assert B(s, 0) < 0x80;
      AsciiDrop(s, 1);
      if room > 0 {
        FitAscii(isWord, s[1..], room - 1);
        var keep := if |s| < room then |s| else room;
        assert s[1..][..keep - 1] == s[..keep][1..];
        assert WordsOf(s[..keep]) == [WordByte(s[0])] + WordsOf(s[..keep][1..]);
      }
    }
  }

  /** Of an ASCII username without white space at its ends the first 100 bytes are kept, what is no letter,
      digit, or one of - _ . @ becomes '_', and then - _ . are taken off the ends. */
  lemma {:induction false} ComponentOfAscii(isWord: Rune -> bool, value: string) returns (i: nat, j: nat)
    requires Ascii(value) && TrimSpace(value) == value
    ensures var words := WordsOf(value[..if |value| < 100 then |value| else 100]);
            && i <= j <= |words| && Component(isWord, value) == words[i..j]
            && (forall k :: 0 <= k < i || j <= k < |words| ==> words[k] in ['-', '_', '.'])
            && (i < j ==> words[i] !in ['-', '_', '.'] && words[j - 1] !in ['-', '_', '.'])
  {
    FitAscii(isWord, value, MAX_COMPONENT);
    i, j := TrimExactly(Fit(isWord, value, MAX_COMPONENT), {'.', '_', '-'});
  }

  /** The directory of every user leads back to the user's key, whatever the username. */
  lemma DirectoryRoundTrip(isWord: Rune -> bool, username: string, key: string)
    requires IsKey(key)
    ensures QuotaKeyFromDirectory(UserDirectory(isWord, username, key)) == Some(key)
    ensures Plain(UserDirectory(isWord, username, key))
  {
    var d := UserDirectory(isWord, username, key);
    var c := Component(isWord, username);
    assert d == "user-" + (if c == "" then "" else c + "-") + key;
    assert d[|d| - 24..] == key;
    QuotaKeyLanguage(d, key);
    ComponentSafe(isWord, username);
    assert forall i :: 0 <= i < 24 ==> key[i] != '/';
  }

  /** Users with different keys never share a directory. */
  lemma DirectoriesDiffer(isWord: Rune -> bool, a: string, keyA: string, b: string, keyB: string)
    requires IsKey(keyA) && IsKey(keyB) && UserDirectory(isWord, a, keyA) == UserDirectory(isWord, b, keyB)
    ensures keyA == keyB
  {
    DirectoryRoundTrip(isWord, a, keyA);
    DirectoryRoundTrip(isWord, b, keyB);
  }
}
