// The ert1 refresh token of internal/statedb/refresh.go over unpadded base64url (section 5 of
// RFC 4648), and the length-delimited encodings there and in internal/dpop/dpop.go.
module TokenFormat {
  import opened Common
  import opened RefreshFamilies

  const HANDLE_SIZE := 16
  const SECRET_SIZE := 32

  // ---- base64url ----------------------------------------------------------------------------------

  newtype Sextet = v: int | 0 <= v < 64

  function Letter(v: Sextet): char {
    if v < 26 then (65 + v as int) as char
    else if v < 52 then (97 + v as int - 26) as char
    else if v < 62 then (48 + v as int - 52) as char
    else if v == 62 then '-' else '_'
  }

  function ValueOf(c: char): Option<Sextet> {
    if 'A' <= c <= 'Z' then Some((c as int - 65) as Sextet)
    else if 'a' <= c <= 'z' then Some((c as int - 97 + 26) as Sextet)
    else if '0' <= c <= '9' then Some((c as int - 48 + 52) as Sextet)
    else if c == '-' then Some(62) else if c == '_' then Some(63) else None
  }

  // The alphabet of section 5 of RFC 4648, in its order, and the known answers of section 10.
  lemma Alphabet(v: Sextet, w: Sextet)
    ensures v < w < 26 || 26 <= v < w < 52 || 52 <= v < w < 62 ==>
      Letter(w) as int - Letter(v) as int == w as int - v as int
    ensures Letter(0) == 'A' && Letter(25) == 'Z' && Letter(26) == 'a' && Letter(51) == 'z'
    ensures Letter(52) == '0' && Letter(61) == '9' && Letter(62) == '-' && Letter(63) == '_'
  {
  }

  lemma KnownAnswers()
    ensures Encode([102]) == "Zg" && Encode([102, 111]) == "Zm8" && Encode([102, 111, 111]) == "Zm9v"
    ensures Encode([102, 111, 111, 98, 97, 114]) == "Zm9vYmFy" && Encode([251, 255]) == "-_8"
  {
    var foo, bar := [102, 111, 111], [98, 97, 114];
    assert Encode(bar) == "YmFy";
    assert foo + bar == [102, 111, 111, 98, 97, 114] && (foo + bar)[3..] == bar;
    assert Encode(foo + bar) == Encode(foo) + Encode(bar);
  }

  lemma LetterValue(v: Sextet)
    ensures ValueOf(Letter(v)) == Some(v) && Letter(v) != '.' && Letter(v) != '=' && Letter(v) != '\r'
      && Letter(v) != '\n'
  {
  }

  lemma ValueLetter(c: char)
    ensures ValueOf(c).Some? ==> Letter(ValueOf(c).value) == c
  {
  }

  // Three bytes as four sextets; a last group of one or two bytes is filled with zero bits.
  function First(a: Byte): Sextet {
    (a as int / 4) as Sextet
  }

  function Second(a: Byte, b: Byte): Sextet {
    ((a as int % 4) * 16 + b as int / 16) as Sextet
  }

  function Third(b: Byte, c: Byte): Sextet {
    ((b as int % 16) * 4 + c as int / 64) as Sextet
  }

  function Fourth(c: Byte): Sextet {
    (c as int % 64) as Sextet
  }

  function ByteA(x: Sextet, y: Sextet): Byte {
    (x as int * 4 + y as int / 16) as Byte
  }

  function ByteB(y: Sextet, z: Sextet): Byte {
    ((y as int % 16) * 16 + z as int / 4) as Byte
  }

  function ByteC(z: Sextet, w: Sextet): Byte {
    ((z as int % 4) * 64 + w as int) as Byte
  }

  function Encode(b: Bytes): string {
    if |b| == 0 then ""
    else if |b| == 1 then [Letter(First(b[0])), Letter(Second(b[0], 0))]
    else if |b| == 2 then [Letter(First(b[0])), Letter(Second(b[0], b[1])), Letter(Third(b[1], 0))]
    else
      [Letter(First(b[0])), Letter(Second(b[0], b[1])), Letter(Third(b[1], b[2])),
        Letter(Fourth(b[2]))] + Encode(b[3..])
  }

  // The decoder skips line ends wherever they stand, even when it is strict.
  function Stripped(s: string): string {
    if |s| == 0 then "" else (if s[0] == '\r' || s[0] == '\n' then "" else [s[0]]) + Stripped(s[1..])
  }

  // Strict decoding also refuses nonzero filling bits.
  function DecodeGroups(t: string): Option<Bytes> {
    if |t| == 0 then Some([])
    else if |t| == 1 || ValueOf(t[0]).None? || ValueOf(t[1]).None? then None
    else
      var x, y := ValueOf(t[0]).value, ValueOf(t[1]).value;
      if |t| == 2 then if y % 16 == 0 then Some([ByteA(x, y)]) else None
      else if ValueOf(t[2]).None? then None
      else
        var z := ValueOf(t[2]).value;
        if |t| == 3 then if z % 4 == 0 then Some([ByteA(x, y), ByteB(y, z)]) else None
        else if ValueOf(t[3]).None? then None
        else
          match DecodeGroups(t[4..])
          case None => None
          case Some(rest) => Some([ByteA(x, y), ByteB(y, z), ByteC(z, ValueOf(t[3]).value)] + rest)
  }

  function DecodeStrict(s: string): Option<Bytes> {
    DecodeGroups(Stripped(s))
  }

  lemma SextetsOfBytes(a: Byte, b: Byte, c: Byte)
    ensures ByteA(First(a), Second(a, b)) == a && ByteB(Second(a, b), Third(b, c)) == b
      && ByteC(Third(b, c), Fourth(c)) == c
    ensures Second(a, 0) % 16 == 0 && Third(b, 0) % 4 == 0
  {
  }

  lemma BytesOfSextets(x: Sextet, y: Sextet, z: Sextet, w: Sextet)
    ensures First(ByteA(x, y)) == x && Second(ByteA(x, y), ByteB(y, z)) == y
    ensures Third(ByteB(y, z), ByteC(z, w)) == z && Fourth(ByteC(z, w)) == w
    ensures y % 16 == 0 ==> Second(ByteA(x, y), 0) == y
    ensures z % 4 == 0 ==> Third(ByteB(y, z), 0) == z
  {
  }

  predicate InAlphabet(s: string) {
    forall i :: 0 <= i < |s| ==> ValueOf(s[i]).Some?
  }

  lemma {:induction false} EncodedAlphabet(b: Bytes)
    ensures InAlphabet(Encode(b))
    decreases |b|
  {
    hide ValueOf, Letter;
    if |b| > 0 {
      LetterValue(First(b[0]));
      LetterValue(Second(b[0], if |b| > 1 then b[1] else 0));
      if |b| > 1 {
        LetterValue(Third(b[1], if |b| > 2 then b[2] else 0));
      }
      if |b| > 2 {
        LetterValue(Fourth(b[2]));
        EncodedAlphabet(b[3..]);
      }
    }
  }

  lemma {:induction false} NothingToStrip(s: string)
    ensures (forall i :: 0 <= i < |s| ==> s[i] != '\r' && s[i] != '\n') <==> Stripped(s) == s
    ensures |Stripped(s)| <= |s|
  {
    if |s| > 0 {
      NothingToStrip(s[1..]);
      assert forall i :: 0 < i < |s| ==> s[i] == s[1..][i - 1];
      if s[0] != '\r' && s[0] != '\n' {
        assert Stripped(s) == [s[0]] + Stripped(s[1..]);
        assert s == [s[0]] + s[1..];
        assert Stripped(s) == s ==> Stripped(s[1..]) == s[1..] by {
          assert Stripped(s)[1..] == Stripped(s[1..]);
        }
      }
    }
  }

  // The bytes of four letters, of two and of three.
  lemma FourLetters(x: Sextet, y: Sextet, z: Sextet, w: Sextet, rest: string)
    ensures DecodeGroups([Letter(x), Letter(y), Letter(z), Letter(w)] + rest)
      == match DecodeGroups(rest)
         case None => None
         case Some(more) => Some([ByteA(x, y), ByteB(y, z), ByteC(z, w)] + more)
  {
    LetterValue(x);
    LetterValue(y);
    LetterValue(z);
    LetterValue(w);
    hide ValueOf, Letter, ByteA, ByteB, ByteC;
    var t := [Letter(x), Letter(y), Letter(z), Letter(w)] + rest;
    assert t[4..] == rest;
  }

  lemma TwoLetters(x: Sextet, y: Sextet)
    ensures DecodeGroups([Letter(x), Letter(y)]) == if y % 16 == 0 then Some([ByteA(x, y)]) else None
  {
    LetterValue(x);
    LetterValue(y);
    hide ValueOf, Letter, ByteA;
    var t := [Letter(x), Letter(y)];
    assert |t| == 2 && ValueOf(t[0]) == Some(x) && ValueOf(t[1]) == Some(y);
  }

  lemma ThreeLettersDecode(x: Sextet, y: Sextet, z: Sextet)
    ensures DecodeGroups([Letter(x), Letter(y), Letter(z)])
      == if z % 4 == 0 then Some([ByteA(x, y), ByteB(y, z)]) else None
  {
    LetterValue(x);
    LetterValue(y);
    LetterValue(z);
    hide ValueOf, Letter, ByteA, ByteB;
    var t := [Letter(x), Letter(y), Letter(z)];
    assert |t| == 3 && ValueOf(t[0]) == Some(x) && ValueOf(t[1]) == Some(y) && ValueOf(t[2]) == Some(z);
  }

  lemma {:induction false} DecodesBack(b: Bytes)
    ensures DecodeGroups(Encode(b)) == Some(b)
    decreases |b|
  {
    hide ValueOf, Letter, First, Second, Third, Fourth, DecodeGroups, ByteA, ByteB, ByteC;
    if |b| == 0 {
      assert DecodeGroups("") == Some([]) by { Nothing(); }
    } else if |b| == 1 {
      SextetsOfBytes(b[0], 0, 0);
      TwoLetters(First(b[0]), Second(b[0], 0));
      assert b == [b[0]];
    } else if |b| == 2 {
      SextetsOfBytes(b[0], b[1], 0);
      ThreeLettersDecode(First(b[0]), Second(b[0], b[1]), Third(b[1], 0));
      assert b == [b[0], b[1]];
    } else {
      DecodesBack(b[3..]);
      SextetsOfBytes(b[0], b[1], b[2]);
      FourLetters(First(b[0]), Second(b[0], b[1]), Third(b[1], b[2]), Fourth(b[2]), Encode(b[3..]));
      assert b == [b[0], b[1], b[2]] + b[3..];
    }
  }

  lemma Nothing()
    ensures DecodeGroups("") == Some([])
  {
  }

  lemma GroupEncodes(t: string)
    requires |t| >= 4 && DecodeGroups(t).Some?
    ensures DecodeGroups(t[4..]).Some? && Encode(DecodeGroups(t).value) == t[..4] + Encode(DecodeGroups(t[4..]).value)
  {
    ValueLetter(t[0]);
    ValueLetter(t[1]);
    ValueLetter(t[2]);
    ValueLetter(t[3]);
    var x, y, z, w := ValueOf(t[0]).value, ValueOf(t[1]).value, ValueOf(t[2]).value, ValueOf(t[3]).value;
    BytesOfSextets(x, y, z, w);
    hide ValueOf, Letter, First, Second, Third, Fourth, ByteA, ByteB, ByteC;
    var head, rest := [ByteA(x, y), ByteB(y, z), ByteC(z, w)], DecodeGroups(t[4..]).value;
    assert DecodeGroups(t).value == head + rest;
    assert (head + rest)[3..] == rest && t[..4] == [t[0], t[1], t[2], t[3]];
  }

  lemma OneByteEncodes(x: Sextet, y: Sextet)
    requires y % 16 == 0
    ensures Encode([ByteA(x, y)]) == [Letter(x), Letter(y)]
  {
    BytesOfSextets(x, y, 0, 0);
    hide Letter, First, Second, ByteA;
  }

  lemma TwoLettersEncode(t: string)
    requires |t| == 2 && DecodeGroups(t).Some?
    ensures Encode(DecodeGroups(t).value) == t
  {
    ValueLetter(t[0]);
    ValueLetter(t[1]);
    var x, y := ValueOf(t[0]).value, ValueOf(t[1]).value;
    assert t == [Letter(x), Letter(y)];
    hide *;
    TwoLetters(x, y);
    OneByteEncodes(x, y);
  }

  lemma ThreeLettersEncode(t: string)
    requires |t| == 3 && DecodeGroups(t).Some?
    ensures Encode(DecodeGroups(t).value) == t
  {
    ValueLetter(t[0]);
    ValueLetter(t[1]);
    ValueLetter(t[2]);
    var x, y, z := ValueOf(t[0]).value, ValueOf(t[1]).value, ValueOf(t[2]).value;
    BytesOfSextets(x, y, z, 0);
    hide ValueOf, Letter, First, Second, Third, Fourth, ByteA, ByteB, ByteC;
    assert DecodeGroups(t).value == [ByteA(x, y), ByteB(y, z)];
    assert t == [t[0], t[1], t[2]];
  }

  lemma LastGroupEncodes(t: string)
    requires |t| < 4 && DecodeGroups(t).Some?
    ensures Encode(DecodeGroups(t).value) == t
  {
    if |t| == 2 {
      TwoLettersEncode(t);
    } else if |t| == 3 {
      ThreeLettersEncode(t);
    } else {
      hide ValueOf;
    }
  }

  lemma {:induction false} EncodesBack(t: string)
    ensures DecodeGroups(t).Some? ==> Encode(DecodeGroups(t).value) == t
    decreases |t|
  {
    hide DecodeGroups, Encode;
    if DecodeGroups(t).Some? {
      if |t| < 4 {
        LastGroupEncodes(t);
      } else {
        GroupEncodes(t);
        EncodesBack(t[4..]);
        assert t == t[..4] + t[4..];
      }
    }
  }

  // Strict decoding undoes encoding, and what it accepts is an encoding but for line ends. So
  // encoding again and comparing refuses exactly the texts that contain a line end.
  lemma StrictDecoding(s: string, b: Bytes)
    ensures DecodeStrict(Encode(b)) == Some(b)
    ensures DecodeStrict(s) == Some(b) <==> Stripped(s) == Encode(b)
    ensures DecodeStrict(s) == Some(b) ==>
      (Encode(b) == s <==> forall i :: 0 <= i < |s| ==> s[i] != '\r' && s[i] != '\n')
  {
    DecodesBack(b);
    EncodesBack(Stripped(s));
    EncodedAlphabet(b);
    NothingToStrip(Encode(b));
    NothingToStrip(s);
    hide Stripped, DecodeGroups, Encode;
  }

  // ---- The token ------------------------------------------------------------------------------------

  // strings.Split by a single character.
  function Split(s: string, c: char): (parts: seq<string>)
    ensures |parts| > 0
  {
    if |s| == 0 then [""]
    else
      var rest := Split(s[1..], c);
      if s[0] == c then [""] + rest else [[s[0]] + rest[0]] + rest[1..]
  }

  function Material(handle: Bytes, secret: Bytes): RefreshMaterial {
    var token := "ert1." + Encode(handle) + "." + Encode(secret);
    RefreshMaterial(token, handle, secret, OfBytes(handle), OfText(token))
  }

  // What the parser makes of a text: the material it spells, if it spells one the canonical way.
  function Parsed(token: string): Option<RefreshMaterial> {
    var parts := Split(token, '.');
    if |parts| != 3 || parts[0] != "ert1" || '=' in parts[1] || '=' in parts[2] then None
    else
      var (handle, secret) := (DecodeStrict(parts[1]), DecodeStrict(parts[2]));
      if handle.None? || |handle.value| != HANDLE_SIZE || secret.None? || |secret.value| != SECRET_SIZE then None
      else if Encode(handle.value) != parts[1] || Encode(secret.value) != parts[2] then None
      else Some(RefreshMaterial(token, handle.value, secret.value, OfBytes(handle.value), OfText(token)))
  }

  // GenerateRefreshMaterial, from what the random source returns: parsing the token gives the
  // same material back.
  method GenerateRefreshMaterial(handle: Bytes, secret: Bytes) returns (m: RefreshMaterial)
    requires |handle| == HANDLE_SIZE && |secret| == SECRET_SIZE
    ensures Parsed(m.token) == Some(m) && m.handle == handle && m.secret == secret
  {
    var token := "ert1." + Encode(handle) + "." + Encode(secret);
    MaterialParts(handle, secret);
    hide Encode, Split, DecodeStrict;
    return RefreshMaterial(token, handle, secret, OfBytes(handle), OfText(token));
  }

  method ParseRefreshToken(token: string) returns (r: Result<RefreshMaterial, StoreError>)
    ensures r == (if Parsed(token).Some? then Ok(Parsed(token).value) else Err(InvalidGrant))
    ensures r.Ok? <==>
      exists handle, secret ::
        |handle| == HANDLE_SIZE && |secret| == SECRET_SIZE && token == Material(handle, secret).token
    ensures r.Ok? ==>
      |r.value.handle| == HANDLE_SIZE && |r.value.secret| == SECRET_SIZE
        && r.value == Material(r.value.handle, r.value.secret)
      && r.value.token == token
  {
    hide Encode, Split, DecodeStrict;
    forall handle, secret | |handle| == HANDLE_SIZE && |secret| == SECRET_SIZE
      && token == Material(handle, secret).token
      ensures Split(token, '.') == ["ert1", Encode(handle), Encode(secret)]
      ensures DecodeStrict(Encode(handle)) == Some(handle) && DecodeStrict(Encode(secret)) == Some(secret)
      ensures '=' !in Encode(handle) && '=' !in Encode(secret)
    {
      MaterialParts(handle, secret);
    }
    var parts := Split(token, '.');
    Rejoined(token);
    if |parts| != 3 || parts[0] != "ert1" || '=' in parts[1] || '=' in parts[2] {
      return Err(InvalidGrant);
    }
    var handle := DecodeStrict(parts[1]);
    if handle.None? || |handle.value| != HANDLE_SIZE {
      return Err(InvalidGrant);
    }
    var secret := DecodeStrict(parts[2]);
    if secret.None? || |secret.value| != SECRET_SIZE {
      return Err(InvalidGrant);
    }
    if Encode(handle.value) != parts[1] || Encode(secret.value) != parts[2] {
      return Err(InvalidGrant);
    }
    assert token == Material(handle.value, secret.value).token;
    return Ok(RefreshMaterial(token, handle.value, secret.value, OfBytes(handle.value), OfText(token)));
  }

  function Join(parts: seq<string>, c: char): string
    requires |parts| > 0
  {
    if |parts| == 1 then parts[0] else parts[0] + [c] + Join(parts[1..], c)
  }

  lemma {:induction false} SplitJoins(s: string, c: char)
    ensures Join(Split(s, c), c) == s
  {
    if |s| > 0 {
      SplitJoins(s[1..], c);
      var rest := Split(s[1..], c);
      if s[0] == c {
        assert ([""] + rest)[1..] == rest;
      } else if |rest| > 1 {
        assert ([[s[0]] + rest[0]] + rest[1..])[1..] == rest[1..];
      }
    }
  }

  lemma {:induction false} SplitFirst(a: string, b: string, c: char)
    requires c !in a
    ensures Split(a + [c] + b, c) == [a] + Split(b, c)
  {
    var s := a + [c] + b;
    if |a| == 0 {
      assert s[1..] == b;
    } else {
      assert s[1..] == a[1..] + [c] + b;
      SplitFirst(a[1..], b, c);
      assert a == [a[0]] + a[1..];
      assert ([a[1..]] + Split(b, c))[1..] == Split(b, c);
    }
  }

  lemma {:induction false} SplitNothing(a: string, c: char)
    requires c !in a
    ensures Split(a, c) == [a]
  {
    if |a| > 0 {
      SplitNothing(a[1..], c);
      assert a == [a[0]] + a[1..];
    }
  }

  lemma Rejoined(token: string)
    ensures var p := Split(token, '.');
      |p| == 3 ==> token == p[0] + "." + p[1] + "." + p[2]
  {
    SplitJoins(token, '.');
    var p := Split(token, '.');
    if |p| == 3 {
      assert Join(p[1..], '.') == p[1] + "." + Join(p[2..], '.');
      assert token == p[0] + "." + (p[1] + "." + p[2]);
    }
  }

  lemma PlainText(b: Bytes)
    ensures '.' !in Encode(b) && '=' !in Encode(b)
  {
    EncodedAlphabet(b);
    hide Encode;
  }

  lemma MaterialParts(handle: Bytes, secret: Bytes)
    ensures Split(Material(handle, secret).token, '.') == ["ert1", Encode(handle), Encode(secret)]
    ensures DecodeStrict(Encode(handle)) == Some(handle) && DecodeStrict(Encode(secret)) == Some(secret)
    ensures '=' !in Encode(handle) && '=' !in Encode(secret)
  {
    var h, s := Encode(handle), Encode(secret);
    StrictDecoding(h, handle);
    StrictDecoding(s, secret);
    hide Encode, Split, DecodeStrict, ValueOf;
    assert '.' !in h && '=' !in h && '.' !in s && '=' !in s by { PlainText(handle); PlainText(secret); }
    assert Material(handle, secret).token == "ert1" + "." + (h + "." + s);
    SplitFirst("ert1", h + "." + s, '.');
    SplitFirst(h, s, '.');
    SplitNothing(s, '.');
  }

  // Two generated tokens are the same only for the same handle and secret.
  lemma TokensDistinct(h1: Bytes, s1: Bytes, h2: Bytes, s2: Bytes)
    requires Material(h1, s1).token == Material(h2, s2).token
    ensures h1 == h2 && s1 == s2
  {
    MaterialParts(h1, s1);
    MaterialParts(h2, s2);
    var parts := Split(Material(h1, s1).token, '.');
    assert parts[1] == Encode(h1) == Encode(h2) && parts[2] == Encode(s1) == Encode(s2);
  }

  // Without the comparison a token could be written in other ways: the strict decoder alone
  // accepts a line end.
  lemma LineEndDecodes(b: Bytes)
    ensures DecodeStrict(Encode(b) + "\n") == Some(b) && Encode(b) + "\n" != Encode(b)
  {
    var s := Encode(b) + "\n";
    StrictDecoding(s, b);
    EncodedAlphabet(b);
    NothingToStrip(Encode(b));
    StripLast(Encode(b));
  }

  lemma {:induction false} StripLast(s: string)
    ensures Stripped(s + "\n") == Stripped(s)
  {
    if |s| > 0 {
      assert (s + "\n")[1..] == s[1..] + "\n";
      StripLast(s[1..]);
    }
  }

  // ---- Length-delimited fields -------------------------------------------------------------------------

  const WORD := 0x1_0000_0000

  // Four bytes, the most significant first, of a length cut to 32 bits.
  function Length32(n: nat): Bytes {
    var w := n % WORD;
    [(w / 0x100_0000) as Byte, (w / 0x1_0000 % 0x100) as Byte, (w / 0x100 % 0x100) as Byte, (w % 0x100) as Byte]
  }

  function Fields(values: seq<Bytes>): Bytes {
    if |values| == 0 then []
    else Fields(values[..|values| - 1]) + (Length32(|values[|values| - 1]|) + values[|values| - 1])
  }

  // credentialAAD and the preimage of ReplayHash.
  method Delimited(values: seq<Bytes>) returns (result: Bytes)
    ensures result == [1] + Fields(values)
  {
    result := [1];
    for i := 0 to |values|
      invariant result == [1] + Fields(values[..i])
    {
      assert values[..i + 1][..i] == values[..i];
      result := result + Length32(|values[i]|);
      result := result + values[i];
    }
    assert values[..|values|] == values;
  }

  method CredentialAAD(sid: Bytes, clientId: Bytes, connectorId: Bytes) returns (aad: Bytes)
    ensures aad == [1] + Fields([sid, clientId, connectorId])
  {
    aad := Delimited([sid, clientId, connectorId]);
  }

  method ReplayHash(thumbprint: Bytes, jti: Bytes, httpMethod: Bytes, target: Bytes) returns (hash: Digest)
    ensures hash == OfBytes([1] + Fields([thumbprint, jti, httpMethod, target]))
  {
    var b := Delimited([thumbprint, jti, httpMethod, target]);
    return OfBytes(b);
  }

  lemma Length32Injective(m: nat, n: nat)
    requires m < WORD && n < WORD && Length32(m) == Length32(n)
    ensures m == n
  {
    Recomposed(m);
    Recomposed(n);
  }

  lemma Recomposed(n: nat)
    requires n < WORD
    ensures var b := Length32(n);
      n == b[0] as int * 0x100_0000 + b[1] as int * 0x1_0000 + b[2] as int * 0x100 + b[3] as int
  {
    assert n % WORD == n;
    assert n / 0x100 == n / 0x1_0000 * 0x100 + n / 0x100 % 0x100;
    assert n / 0x1_0000 == n / 0x100_0000 * 0x100 + n / 0x1_0000 % 0x100;
  }

  function FromFront(values: seq<Bytes>): Bytes {
    if |values| == 0 then [] else Length32(|values[0]|) + values[0] + FromFront(values[1..])
  }

  lemma {:induction false} SameFields(values: seq<Bytes>)
    ensures Fields(values) == FromFront(values)
  {
    if |values| == 1 {
      assert values[..0] == [] && values[1..] == [];
    } else if |values| > 1 {
      var n := |values| - 1;
      SameFields(values[..n]);
      SameFields(values[1..]);
      SameFields(values[1..n]);
      assert values[..n][1..] == values[1..n] == values[1..][..n - 1];
      assert values[1..][n - 1] == values[n] && values[..n][0] == values[0];
    }
  }

  // As many fields, each shorter than four gibibytes, have one encoding only.
  lemma {:induction false} FieldsInjective(a: seq<Bytes>, b: seq<Bytes>)
    requires |a| == |b| && FromFront(a) == FromFront(b)
    requires forall i :: 0 <= i < |a| ==> |a[i]| < WORD && |b[i]| < WORD
    ensures a == b
  {
    if |a| > 0 {
      var x, y := FromFront(a), FromFront(b);
      assert x[..4] == Length32(|a[0]|) && y[..4] == Length32(|b[0]|);
      Length32Injective(|a[0]|, |b[0]|);
      var n := 4 + |a[0]|;
      assert x[4..n] == a[0] && y[4..n] == b[0];
      assert x[n..] == FromFront(a[1..]) && y[n..] == FromFront(b[1..]);
      FieldsInjective(a[1..], b[1..]);
      assert a == [a[0]] + a[1..] && b == [b[0]] + b[1..];
    }
  }

  lemma AADInjective(sid1: Bytes, client1: Bytes, connector1: Bytes, sid2: Bytes, client2: Bytes, connector2: Bytes)
    requires |sid1| < WORD && |client1| < WORD && |connector1| < WORD && |sid2| < WORD && |client2| < WORD
      && |connector2| < WORD
    requires [1] + Fields([sid1, client1, connector1]) == [1] + Fields([sid2, client2, connector2])
    ensures sid1 == sid2 && client1 == client2 && connector1 == connector2
  {
    var a, b := [sid1, client1, connector1], [sid2, client2, connector2];
    assert ([1] + Fields(a))[1..] == Fields(a) && ([1] + Fields(b))[1..] == Fields(b);
    SameFields(a);
    SameFields(b);
    FieldsInjective(a, b);
    assert a[0] == b[0] && a[1] == b[1] && a[2] == b[2];
  }

  lemma ReplayHashInjective(t1: Bytes, j1: Bytes, m1: Bytes, u1: Bytes, t2: Bytes, j2: Bytes, m2: Bytes, u2: Bytes)
    requires |t1| < WORD && |j1| < WORD && |m1| < WORD && |u1| < WORD && |t2| < WORD && |j2| < WORD && |m2| < WORD
      && |u2| < WORD
    requires OfBytes([1] + Fields([t1, j1, m1, u1])) == OfBytes([1] + Fields([t2, j2, m2, u2]))
    ensures t1 == t2 && j1 == j2 && m1 == m2 && u1 == u2
  {
    var a, b := [t1, j1, m1, u1], [t2, j2, m2, u2];
    assert ([1] + Fields(a))[1..] == Fields(a) && ([1] + Fields(b))[1..] == Fields(b);
    SameFields(a);
    SameFields(b);
    FieldsInjective(a, b);
    assert a[0] == b[0] && a[1] == b[1] && a[2] == b[2] && a[3] == b[3];
  }

  // At four gibibytes the cut length makes two contexts look the same.
  lemma LongFieldsCollide()
    ensures var zeros := seq(WORD, _ => 0 as Byte);
      Fields([zeros, [], []]) == Fields([[], [], zeros]) && [zeros, [], []] != [[], [], zeros]
  {
    var zeros := seq(WORD, _ => 0 as Byte);
    ThreeFields(zeros, [], []);
    ThreeFields([], [], zeros);
    assert Length32(WORD) == [0, 0, 0, 0] == Length32(0);
    assert [zeros, [], []][0] != [[], [], zeros][0];
    hide Fields, Length32;
    ZerosCommute(zeros, WORD);
  }

  lemma ThreeFields(a: Bytes, b: Bytes, c: Bytes)
    ensures Fields([a, b, c]) == Length32(|a|) + a + (Length32(|b|) + b + (Length32(|c|) + c))
  {
    SameFields([a, b, c]);
    hide Fields, Length32;
    assert [a, b, c][1..] == [b, c] && [b, c][1..] == [c] && [c][1..] == [];
    assert FromFront([c]) == Length32(|c|) + c;
    assert FromFront([b, c]) == Length32(|b|) + b + FromFront([c]);
  }

  lemma ZerosCommute(zeros: Bytes, n: nat)
    requires |zeros| == n && forall i :: 0 <= i < n ==> zeros[i] == 0
    ensures var word: Bytes := [0, 0, 0, 0];
      word + zeros + (word + [] + (word + [])) == word + [] + (word + [] + (word + zeros))
  {
  }
}
