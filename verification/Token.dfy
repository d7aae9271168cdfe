/** Signed cookies (internal/dumpbox/session.go:30-72). */
module Token {
  import opened Sums

  newtype byte = x: int | 0 <= x < 256

  // ---- raw URL-safe base64: sections 3.2 and 5 of RFC 4648 ----------------------------------------

  type Six = v: nat | v < 64

  function Symbol(v: Six): char {
    if v < 26 then ('A' as int + v) as char
    else if v < 52 then ('a' as int + v - 26) as char
    else if v < 62 then ('0' as int + v - 52) as char
    else if v == 62 then '-'
    else '_'
  }

  function Value(ch: char): Option<Six> {
    if 'A' <= ch <= 'Z' then Some(ch as int - 'A' as int)
    else if 'a' <= ch <= 'z' then Some(ch as int - 'a' as int + 26)
    else if '0' <= ch <= '9' then Some(ch as int - '0' as int + 52)
    else if ch == '-' then Some(62)
    else if ch == '_' then Some(63)
    else None
  }

  function Symbols(v: seq<Six>): string {
    if v == [] then "" else [Symbol(v[0])] + Symbols(v[1..])
  }

  /** The values of a string of symbols; the decoder passes over line ends. */
  function Values(s: string): Option<seq<Six>> {
    if s == "" then Some([])
    else if s[0] == '\n' || s[0] == '\r' then Values(s[1..])
    else
      match (Value(s[0]), Values(s[1..]))
      case (Some(v), Some(rest)) => Some([v] + rest)
      case _ => None
  }

  /** Three bytes in groups of six bits. */
  function Split(b: seq<byte>): seq<Six> {
    if |b| == 0 then []
    else if |b| == 1 then [b[0] as nat / 4, b[0] as nat % 4 * 16]
    else if |b| == 2 then [b[0] as nat / 4, b[0] as nat % 4 * 16 + b[1] as nat / 16, b[1] as nat % 16 * 4]
    else
      [b[0] as nat / 4, b[0] as nat % 4 * 16 + b[1] as nat / 16,
       b[1] as nat % 16 * 4 + b[2] as nat / 64, b[2] as nat % 64]
      + Split(b[3..])
  }

  function First(a: Six, b: Six): byte { (a * 4 + b / 16) as byte }
  function Second(b: Six, c: Six): byte { (b % 16 * 16 + c / 4) as byte }
  function Third(c: Six, d: Six): byte { (c % 4 * 64 + d) as byte }

  /** The unused bits of a last, short group are not looked at. */
  function Merge(v: seq<Six>): Option<seq<byte>> {
    if |v| == 0 then Some([])
    else if |v| == 1 then None
    else if |v| == 2 then Some([First(v[0], v[1])])
    else if |v| == 3 then Some([First(v[0], v[1]), Second(v[1], v[2])])
    else
      match Merge(v[4..])
      case None => None
      case Some(rest) => Some([First(v[0], v[1]), Second(v[1], v[2]), Third(v[2], v[3])] + rest)
  }

  function Encode(b: seq<byte>): string { Symbols(Split(b)) }

  function Decode(s: string): Option<seq<byte>> {
    match Values(s)
    case None => None
    case Some(v) => Merge(v)
  }

  lemma SymbolValue(v: Six)
    ensures Value(Symbol(v)) == Some(v) && Symbol(v) !in {'.', '\n', '\r'}
  {
  }

  lemma {:induction false} ValuesOfSymbols(v: seq<Six>, tail: string)
    requires tail == "" || tail == "\n"
    ensures Values(Symbols(v) + tail) == Some(v) && '.' !in Symbols(v)
    decreases |v|
  {
    if v == [] {
      assert "" + tail == tail;
      assert tail == "\n" ==> tail[1..] == "";
    } else {
      SymbolValue(v[0]);
      ValuesOfSymbols(v[1..], tail);
      assert (Symbols(v) + tail)[1..] == Symbols(v[1..]) + tail;
      assert [v[0]] + v[1..] == v && (Symbols(v) + tail)[0] == Symbol(v[0]);
    }
  }

  lemma FirstByte(x: byte, q: nat)
    requires q < 16
    ensures First(x as nat / 4, x as nat % 4 * 16 + q) == x
  {
  }

  lemma SecondByte(p: nat, y: byte, q: nat)
    requires p < 4 && q < 4
    ensures Second(p * 16 + y as nat / 16, y as nat % 16 * 4 + q) == y
  {
  }

  lemma ThirdByte(p: nat, z: byte)
    requires p < 16
    ensures Third(p * 4 + z as nat / 64, z as nat % 64) == z
  {
  }

  lemma {:induction false} MergeFour(a: Six, b: Six, c: Six, d: Six, rest: seq<Six>)
    requires Merge(rest).Some?
    ensures Merge([a, b, c, d] + rest) == Some([First(a, b), Second(b, c), Third(c, d)] + Merge(rest).value)
  {
    assert ([a, b, c, d] + rest)[4..] == rest;
  }

  lemma {:induction false} ThreeMore(x: byte, y: byte, z: byte, rest: seq<Six>)
    requires Merge(rest).Some?
    ensures Merge([x as nat / 4, x as nat % 4 * 16 + y as nat / 16, y as nat % 16 * 4 + z as nat / 64, z as nat % 64]
                  + rest)
            == Some([x, y, z] + Merge(rest).value)
  {
    FirstByte(x, y as nat / 16);
    SecondByte(x as nat % 4, y, z as nat / 64);
    ThirdByte(y as nat % 16, z);
    MergeFour(x as nat / 4, x as nat % 4 * 16 + y as nat / 16, y as nat % 16 * 4 + z as nat / 64, z as nat % 64, rest);
  }

  lemma TwoLeft(x: byte, y: byte)
    ensures Merge([x as nat / 4, x as nat % 4 * 16 + y as nat / 16, y as nat % 16 * 4]) == Some([x, y])
  {
    FirstByte(x, y as nat / 16);
    SecondByte(x as nat % 4, y, 0);
  }

  lemma OneLeft(x: byte)
    ensures Merge([x as nat / 4, x as nat % 4 * 16]) == Some([x])
  {
    FirstByte(x, 0);
  }

  lemma {:induction false} MergeUndoesSplit(b: seq<byte>)
    ensures Merge(Split(b)) == Some(b)
    decreases |b|
  {
    if |b| == 1 {
      OneLeft(b[0]);
      assert b == [b[0]];
    } else if |b| == 2 {
      TwoLeft(b[0], b[1]);
      assert b == [b[0], b[1]];
    } else if |b| > 2 {
      MergeUndoesSplit(b[3..]);
      ThreeMore(b[0], b[1], b[2], Split(b[3..]));
      assert b == [b[0], b[1], b[2]] + b[3..];
    }
  }

  /** Decoding undoes encoding, even with a line end behind, and an encoded string never contains the
      separator. */
  lemma {:induction false} DecodeUndoesEncode(b: seq<byte>)
    ensures Decode(Encode(b)) == Some(b) && '.' !in Encode(b)
    ensures Decode(Encode(b) + "\n") == Some(b)
  {
    ValuesOfSymbols(Split(b), "");
    ValuesOfSymbols(Split(b), "\n");
    MergeUndoesSplit(b);
    assert Encode(b) + "" == Encode(b);
  }

  /** Test vectors of section 10 of RFC 4648, without the padding, and one with the two letters of section 5. */
  lemma Vectors()
    ensures Encode([]) == "" && Encode([0x66]) == "Zg" && Encode([0x66, 0x6F]) == "Zm8"
    ensures Encode([0x66, 0x6F, 0x6F]) == "Zm9v" && Encode([0xFB, 0xFF, 0xBF]) == "-_-_"
  {
    assert Split([0x66]) == [25, 32] && Split([0x66, 0x6F]) == [25, 38, 60];
    assert Split([0x66, 0x6F, 0x6F]) == [25, 38, 61, 47] by {
      assert [0x66 as byte, 0x6F, 0x6F][3..] == [];
    }
    assert Split([0xFB, 0xFF, 0xBF]) == [62, 63, 62, 63] by {
      assert [0xFB as byte, 0xFF, 0xBF][3..] == [];
    }
    Written([25, 32]);
    Written([25, 38, 60]);
    Written([25, 38, 61, 47]);
    Written([62, 63, 62, 63]);
  }

  lemma {:induction false} Written(v: seq<Six>)
    ensures |v| == 2 ==> Symbols(v) == [Symbol(v[0]), Symbol(v[1])]
    ensures |v| == 3 ==> Symbols(v) == [Symbol(v[0]), Symbol(v[1]), Symbol(v[2])]
    ensures |v| == 4 ==> Symbols(v) == [Symbol(v[0]), Symbol(v[1]), Symbol(v[2]), Symbol(v[3])]
  {
    if |v| >= 2 {
      assert Symbols(v) == [Symbol(v[0])] + ([Symbol(v[1])] + Symbols(v[1..][1..]));
      if |v| >= 3 {
        assert v[1..][1..] == v[2..] && Symbols(v[2..]) == [Symbol(v[2])] + Symbols(v[2..][1..]);
        if |v| == 4 {
          assert v[2..][1..] == v[3..] && Symbols(v[3..]) == [Symbol(v[3])] + Symbols(v[3..][1..]);
        }
      }
    }
  }

  // ---- signing ------------------------------------------------------------------------------------

  datatype Field = Text(text: string) | Number(number: int)

  type Object = map<string, Field>

  /** The key's MAC, and the JSON encoding of an object. */
  datatype Signer = Signer(mac: string -> seq<byte>, marshal: Object -> seq<byte>,
                           unmarshal: seq<byte> -> Option<Object>)
  {
    ghost predicate Valid() {
      forall o: Object :: unmarshal(marshal(o)) == Some(o)
    }

    function Sign(o: Object): string {
      var encoded := Encode(marshal(o));
      encoded + "." + Encode(mac(encoded))
    }

    function Verify(token: string): Option<Object> {
      match Cut(token)
      case None => None
      case Some((encoded, signature)) =>
        if Decode(signature) != Some(mac(encoded)) then None
        else
          match Decode(encoded)
          case None => None
          case Some(payload) => unmarshal(payload)
    }
  }

  /** strings.Cut(token, ".") */
  function Cut(token: string): Option<(string, string)> {
    if token == "" then None
    else if token[0] == '.' then Some(("", token[1..]))
    else
      match Cut(token[1..])
      case None => None
      case Some((before, after)) => Some(([token[0]] + before, after))
  }

  lemma {:induction false} CutAtFirst(before: string, after: string)
    requires '.' !in before
    ensures Cut(before + "." + after) == Some((before, after))
    decreases |before|
  {
    var token := before + "." + after;
    if before == "" {
      assert token == "." + after && token[1..] == after;
    } else {
      CutAtFirst(before[1..], after);
      assert token[1..] == before[1..] + "." + after && token[0] == before[0];
      assert [before[0]] + before[1..] == before;
    }
  }

  /** Every signed object verifies, and is recovered. */
  lemma VerifyUndoesSign(s: Signer, o: Object)
    requires s.Valid()
    ensures s.Verify(s.Sign(o)) == Some(o)
  {
    var encoded := Encode(s.marshal(o));
    DecodeUndoesEncode(s.marshal(o));
    DecodeUndoesEncode(s.mac(encoded));
    CutAtFirst(encoded, Encode(s.mac(encoded)));
  }

  /** What verifies was signed: text before the separator that the MAC does not match is refused,
      whatever it decodes to. */
  lemma VerifiedWasSigned(s: Signer, encoded: string, signature: string)
    requires '.' !in encoded
    ensures s.Verify(encoded + "." + signature).Some? ==> Decode(signature) == Some(s.mac(encoded))
    ensures s.Verify(encoded).None?
  {
    CutAtFirst(encoded, signature);
    NothingToCut(encoded);
  }

  lemma {:induction false} NothingToCut(token: string)
    requires '.' !in token
    ensures Cut(token) == None
    decreases |token|
  {
    if token != "" {
      NothingToCut(token[1..]);
    }
  }

  /** A token can be written in more than one way: a line end after it changes nothing. */
  lemma NotUnique(s: Signer, o: Object)
    requires s.Valid()
    ensures s.Sign(o) + "\n" != s.Sign(o) && s.Verify(s.Sign(o) + "\n") == Some(o)
  {
    var encoded := Encode(s.marshal(o));
    var signature := Encode(s.mac(encoded));
    DecodeUndoesEncode(s.marshal(o));
    DecodeUndoesEncode(s.mac(encoded));
    CutAtFirst(encoded, signature + "\n");
    assert encoded + "." + signature + "\n" == encoded + "." + (signature + "\n");
  }

  // ---- the two kinds of token ---------------------------------------------------------------------

  datatype Session = Session(subject: string, name: string, username: string, expires: int)

  datatype AuthRequest = AuthRequest(state: string, nonce: string, expires: int)

  predicate SessionValid(s: Session, now: int) { s.subject != "" && s.expires > now }

  predicate AuthRequestValid(r: AuthRequest, now: int) { r.state != "" && r.nonce != "" && r.expires > now }

  /** An empty username is omitted. */
  function SessionObject(s: Session): Object {
    map["sub" := Text(s.subject), "name" := Text(s.name), "exp" := Number(s.expires)]
    + if s.username != "" then map["username" := Text(s.username)] else map[]
  }

  function AuthObject(r: AuthRequest): Object {
    map["state" := Text(r.state), "nonce" := Text(r.nonce), "exp" := Number(r.expires)]
  }

  /** A missing field keeps its zero value; a field of another type is an error. */
  function TextOf(o: Object, name: string): Option<string> {
    if name !in o then Some("") else if o[name].Text? then Some(o[name].text) else None
  }

  function NumberOf(o: Object, name: string): Option<int> {
    if name !in o then Some(0) else if o[name].Number? then Some(o[name].number) else None
  }

  function ReadSession(o: Object): Option<Session> {
    match (TextOf(o, "sub"), TextOf(o, "name"), TextOf(o, "username"), NumberOf(o, "exp"))
    case (Some(subject), Some(name), Some(username), Some(expires)) => Some(Session(subject, name, username, expires))
    case _ => None
  }

  function ReadAuthRequest(o: Object): Option<AuthRequest> {
    match (TextOf(o, "state"), TextOf(o, "nonce"), NumberOf(o, "exp"))
    case (Some(state), Some(nonce), Some(expires)) => Some(AuthRequest(state, nonce, expires))
    case _ => None
  }

  function VerifySession(s: Signer, token: string): Option<Session> {
    match s.Verify(token)
    case None => None
    case Some(o) => ReadSession(o)
  }

  function VerifyAuthRequest(s: Signer, token: string): Option<AuthRequest> {
    match s.Verify(token)
    case None => None
    case Some(o) => ReadAuthRequest(o)
  }

  /** A session comes back from its token as it was. */
  lemma SessionRoundTrip(s: Signer, v: Session)
    requires s.Valid()
    ensures VerifySession(s, s.Sign(SessionObject(v))) == Some(v)
  {
    VerifyUndoesSign(s, SessionObject(v));
  }

  lemma AuthRequestRoundTrip(s: Signer, r: AuthRequest)
    requires s.Valid()
    ensures VerifyAuthRequest(s, s.Sign(AuthObject(r))) == Some(r)
  {
    VerifyUndoesSign(s, AuthObject(r));
  }

  /** What a session's token yields is valid exactly until it expires, and never again. */
  lemma SessionExpires(s: Signer, v: Session, now: int, later: int)
    requires s.Valid() && now <= later
    ensures var read := VerifySession(s, s.Sign(SessionObject(v)));
            && read.Some? && (SessionValid(read.value, now) <==> v.subject != "" && now < v.expires)
            && (!SessionValid(read.value, now) ==> !SessionValid(read.value, later))
  {
    SessionRoundTrip(s, v);
  }

  lemma AuthRequestExpires(s: Signer, r: AuthRequest, now: int, later: int)
    requires s.Valid() && now <= later
    ensures var read := VerifyAuthRequest(s, s.Sign(AuthObject(r)));
            && read.Some?
            && (AuthRequestValid(read.value, now) <==> r.state != "" && r.nonce != "" && now < r.expires)
            && (!AuthRequestValid(read.value, now) ==> !AuthRequestValid(read.value, later))
  {
    AuthRequestRoundTrip(s, r);
  }

  /** A token of one kind is never accepted as one of the other, at any time. */
  lemma KindsAreSeparate(s: Signer, v: Session, r: AuthRequest, now: int)
    requires s.Valid()
    ensures var asSession := VerifySession(s, s.Sign(AuthObject(r)));
            asSession.Some? ==> !SessionValid(asSession.value, now)
    ensures var asRequest := VerifyAuthRequest(s, s.Sign(SessionObject(v)));
            asRequest.Some? ==> !AuthRequestValid(asRequest.value, now)
  {
    VerifyUndoesSign(s, AuthObject(r));
    VerifyUndoesSign(s, SessionObject(v));
  }
}
