/** Go strings are byte sequences; here each char of a string stands for one byte. Runes are read
    and written as the utf8 package does, an invalid byte reading as U+FFFD of width one. */
module Utf8 {
  type Rune = int

  const ERROR: Rune := 0xFFFD

  function B(s: string, i: nat): int
    requires i < |s|
  {
    s[i] as int
  }

  predicate Continues(s: string, i: nat, low: int, high: int) {
    i < |s| && low <= B(s, i) <= high
  }

  /** The first rune of a non-empty string, and its width. */
  function Decode(s: string): (r: (Rune, nat))
    requires s != ""
    ensures 1 <= r.1 <= |s|
    ensures B(s, 0) < 0x80 ==> r == (B(s, 0), 1)
    ensures B(s, 0) >= 0x80 ==> 0x80 <= r.0 < 0x110000
    ensures !(0xD800 <= r.0 < 0xE000)
    ensures forall i :: 1 <= i < r.1 ==> 0x80 <= B(s, i) <= 0xBF
  {
    var b := B(s, 0);
    if b < 0x80 then (b, 1)
    else if 0xC2 <= b <= 0xDF then
      if Continues(s, 1, 0x80, 0xBF) then ((b - 0xC0) * 0x40 + B(s, 1) - 0x80, 2) else (ERROR, 1)
    else if 0xE0 <= b <= 0xEF then
      if Continues(s, 1, if b == 0xE0 then 0xA0 else 0x80, if b == 0xED then 0x9F else 0xBF)
         && Continues(s, 2, 0x80, 0xBF)
      then ((b - 0xE0) * 0x1000 + (B(s, 1) - 0x80) * 0x40 + B(s, 2) - 0x80, 3) else (ERROR, 1)
    else if 0xF0 <= b <= 0xF4 then
      if Continues(s, 1, if b == 0xF0 then 0x90 else 0x80, if b == 0xF4 then 0x8F else 0xBF)
         && Continues(s, 2, 0x80, 0xBF) && Continues(s, 3, 0x80, 0xBF)
      then ((b - 0xF0) * 0x40000 + (B(s, 1) - 0x80) * 0x1000 + (B(s, 2) - 0x80) * 0x40 + B(s, 3) - 0x80, 4)
      else (ERROR, 1)
    else (ERROR, 1)
  }

  predicate IsScalar(r: Rune) { 0 <= r < 0xD800 || 0xE000 <= r < 0x110000 }

  function Encode(r: Rune): (s: string)
    requires IsScalar(r)
    ensures 1 <= |s| <= 4
    ensures r < 0x80 ==> s == [r as char]
    ensures r >= 0x80 ==> forall i :: 0 <= i < |s| ==> 0x80 <= B(s, i) < 0x100
  {
    if r < 0x80 then [r as char]
    else if r < 0x800 then [(0xC0 + r / 0x40) as char, (0x80 + r % 0x40) as char]
    else if r < 0x10000 then
      [(0xE0 + r / 0x1000) as char, (0x80 + r / 0x40 % 0x40) as char, (0x80 + r % 0x40) as char]
    else
      [(0xF0 + r / 0x40000) as char, (0x80 + r / 0x1000 % 0x40) as char, (0x80 + r / 0x40 % 0x40) as char,
       (0x80 + r % 0x40) as char]
  }

  /** A rune in groups of six bits, lowest last. */
  lemma SixBits(r: nat)
    ensures r == r / 0x40 * 0x40 + r % 0x40
    ensures r / 0x40 / 0x40 == r / 0x1000 && r / 0x1000 / 0x40 == r / 0x40000
  {
  }

  /** A written rune reads back, whatever follows it. */
  lemma RoundTrip(r: Rune, rest: string)
    requires IsScalar(r)
    ensures Encode(r) + rest != "" && Decode(Encode(r) + rest) == (r, |Encode(r)|)
  {
    var s := Encode(r) + rest;
    forall i: nat | i < |Encode(r)|
      ensures B(s, i) == B(Encode(r), i)
    {
    }
    SixBits(r);
    SixBits(r / 0x40);
    SixBits(r / 0x1000);
    if 0x80 <= r < 0x800 {
      TwoBytes(r, s);
    } else if 0x800 <= r < 0x10000 {
      ThreeBytes(r, s);
    } else if 0x10000 <= r {
      FourBytes(r, s);
    }
  }

  lemma TwoBytes(r: Rune, s: string)
    requires 0x80 <= r < 0x800 && |s| >= 2
    requires B(s, 0) == 0xC0 + r / 0x40 && B(s, 1) == 0x80 + r % 0x40
    ensures Decode(s) == (r, 2)
  {
    assert Continues(s, 1, 0x80, 0xBF);
  }

  lemma ThreeBytes(r: Rune, s: string)
    requires 0x800 <= r < 0x10000 && IsScalar(r) && |s| >= 3
    requires B(s, 0) == 0xE0 + r / 0x1000 && B(s, 1) == 0x80 + r / 0x40 % 0x40 && B(s, 2) == 0x80 + r % 0x40
    ensures Decode(s) == (r, 3)
  {
    var (a, b, c) := (r / 0x1000, r / 0x40 % 0x40, r % 0x40);
    assert r == a * 0x1000 + b * 0x40 + c;
    assert a == 0 ==> b >= 0x20;
    assert a == 0xD ==> b < 0x20;
  }

  lemma FourBytes(r: Rune, s: string)
    requires 0x10000 <= r < 0x110000 && |s| >= 4
    requires B(s, 0) == 0xF0 + r / 0x40000 && B(s, 1) == 0x80 + r / 0x1000 % 0x40
    requires B(s, 2) == 0x80 + r / 0x40 % 0x40 && B(s, 3) == 0x80 + r % 0x40
    ensures Decode(s) == (r, 4)
  {
    var (a, b, c, d) := (r / 0x40000, r / 0x1000 % 0x40, r / 0x40 % 0x40, r % 0x40);
    assert r == a * 0x40000 + b * 0x1000 + c * 0x40 + d;
    assert a == 0 ==> b >= 0x10;
    assert a == 4 ==> b < 0x10;
  }

  /** Appending ASCII does not change how the bytes before it are read. */
  lemma DecodeBeforeAscii(s: string, t: string)
    requires s != "" && (t != "" ==> B(t, 0) < 0x80)
    ensures Decode(s + t) == Decode(s)
  {
    forall i: nat | i < |s|
      ensures B(s + t, i) == B(s, i)
    {
    }
    forall i: nat, low, high | 0x80 <= low && i <= |s|
      ensures Continues(s + t, i, low, high) <==> Continues(s, i, low, high)
    {
      if i == |s| < |s + t| {
        assert B(s + t, i) == B(t, 0);
      }
    }
  }

  /** unicode.IsSpace. */
  predicate IsSpace(r: Rune) {
    0x09 <= r <= 0x0D || r == 0x20 || r == 0x85 || r == 0xA0 || r == 0x1680 || 0x2000 <= r <= 0x200A
    || r == 0x2028 || r == 0x2029 || r == 0x202F || r == 0x205F || r == 0x3000
  }

  /** unicode.Cf, the format characters. */
  predicate IsFormat(r: Rune) {
    r == 0xAD || 0x600 <= r <= 0x605 || r == 0x61C || r == 0x6DD || r == 0x70F || 0x890 <= r <= 0x891 || r == 0x8E2
    || r == 0x180E || 0x200B <= r <= 0x200F || 0x202A <= r <= 0x202E || 0x2060 <= r <= 0x2064 || 0x2066 <= r <= 0x206F
    || r == 0xFEFF || 0xFFF9 <= r <= 0xFFFB || r == 0x110BD || r == 0x110CD || 0x13430 <= r <= 0x1343F
    || 0x1BCA0 <= r <= 0x1BCA3 || 0x1D173 <= r <= 0x1D17A || r == 0xE0001 || 0xE0020 <= r <= 0xE007F
  }

  predicate RuneStart(b: int) { !(0x80 <= b <= 0xBF) }

  /** Where DecodeLastRune looks for the start of the last rune: up to four bytes from the end. */
  function LastStart(s: string, i: nat, lim: nat): (start: nat)
    requires lim <= i < |s|
    ensures lim <= start <= i || (lim > 0 && start == lim - 1)
    decreases i
  {
    if RuneStart(B(s, i)) then i
    else if i > lim then LastStart(s, i - 1, lim)
    else if lim > 0 then lim - 1 else 0
  }

  function DecodeLast(s: string): (r: (Rune, nat))
    requires s != ""
    ensures 1 <= r.1 <= |s|
    ensures B(s, |s| - 1) < 0x80 ==> r == (B(s, |s| - 1), 1)
    ensures B(s, |s| - 1) >= 0x80 ==> r.0 >= 0x80
  {
    var last := |s| - 1;
    if B(s, last) < 0x80 then (B(s, last), 1)
    else if last == 0 then if Decode(s).1 == |s| then Decode(s) else (ERROR, 1)
    else
      var lim := if |s| < 4 then 0 else |s| - 4;
      var start := LastStart(s, last - 1, lim);
      if start + Decode(s[start..]).1 == |s| then Decode(s[start..]) else (ERROR, 1)
  }

  function TrimLeftSpace(s: string): (t: string)
  {
    if s != "" && IsSpace(Decode(s).0) then TrimLeftSpace(s[Decode(s).1..]) else s
  }

  function TrimRightSpace(s: string): (t: string)
  {
    if s == "" then s
    else if IsSpace(DecodeLast(s).0) then TrimRightSpace(s[..|s| - DecodeLast(s).1])
    else s
  }

  lemma {:induction false} TrimLeftSpaceSuffix(s: string)
    ensures |TrimLeftSpace(s)| <= |s| && TrimLeftSpace(s) == s[|s| - |TrimLeftSpace(s)|..]
    decreases |s|
  {
    if s != "" && IsSpace(Decode(s).0) {
      TrimLeftSpaceSuffix(s[Decode(s).1..]);
    }
  }

  lemma {:induction false} TrimRightSpacePrefix(s: string)
    ensures TrimRightSpace(s) <= s
    decreases |s|
  {
    if s != "" && IsSpace(DecodeLast(s).0) {
      TrimRightSpacePrefix(s[..|s| - DecodeLast(s).1]);
    }
  }

  /** strings.TrimSpace. */
  function TrimSpace(s: string): string {
    TrimRightSpace(TrimLeftSpace(s))
  }
}
