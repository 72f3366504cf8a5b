/**
 base64url without padding (RFC 4648, section 5), with the decoder's leniency and the canonical check
 that removes it: a text is accepted exactly when it is the encoding of some bytes.
 */
module Base64Url {
  import opened Outcomes

  type Byte = b: int | 0 <= b < 256
  type Sextet = b: int | 0 <= b < 64

  function Letter(s: Sextet): (c: char)
    ensures IsLetter(c)
  {
    if s < 26 then 'A' + s as char
    else if s < 52 then 'a' + (s - 26) as char
    else if s < 62 then '0' + (s - 52) as char
    else if s == 62 then '-'
    else '_'
  }

  predicate IsLetter(c: char) {
    'A' <= c <= 'Z' || 'a' <= c <= 'z' || '0' <= c <= '9' || c == '-' || c == '_'
  }

  function Rank(c: char): (s: Sextet)
    requires IsLetter(c)
    ensures Letter(s) == c
  {
    if 'A' <= c <= 'Z' then (c - 'A') as int
    else if 'a' <= c <= 'z' then (c - 'a') as int + 26
    else if '0' <= c <= '9' then (c - '0') as int + 52
    else if c == '-' then 62
    else 63
  }

  lemma RankOfLetter(s: Sextet)
    ensures Rank(Letter(s)) == s
  {
  }

  predicate IsText(v: string) {
    forall c :: c in v ==> IsLetter(c)
  }

  // Three bytes as four sextets, and back.
  function First(a: Byte): Sextet { a / 4 }
  function Second(a: Byte, b: Byte): Sextet { a % 4 * 16 + b / 16 }
  function Third(b: Byte, c: Byte): Sextet { b % 16 * 4 + c / 64 }
  function Fourth(c: Byte): Sextet { c % 64 }

  function Byte0(s: Sextet, t: Sextet): Byte { s * 4 + t / 16 }
  function Byte1(t: Sextet, u: Sextet): Byte { t % 16 * 16 + u / 4 }
  function Byte2(u: Sextet, v: Sextet): Byte { u % 4 * 64 + v }

  lemma GroupOfBytes(a: Byte, b: Byte, c: Byte)
    ensures Byte0(First(a), Second(a, b)) == a
    ensures Byte1(Second(a, b), Third(b, c)) == b
    ensures Byte2(Third(b, c), Fourth(c)) == c
  {
  }

  function Encode(bytes: seq<Byte>): (v: string)
    ensures IsText(v)
  {
    if bytes == [] then ""
    else if |bytes| == 1 then [Letter(First(bytes[0])), Letter(Second(bytes[0], 0))]
    else if |bytes| == 2 then [Letter(First(bytes[0])), Letter(Second(bytes[0], bytes[1])), Letter(Third(bytes[1], 0))]
    else
      [Letter(First(bytes[0])), Letter(Second(bytes[0], bytes[1])), Letter(Third(bytes[1], bytes[2])), Letter(Fourth(bytes[2]))]
      + Encode(bytes[3..])
  }

  /** Four letters at a time; a tail of two or three gives one or two bytes, spare bits and a lone letter are dropped. */
  function Decode(v: string): seq<Byte>
    requires IsText(v)
  {
    if |v| <= 1 then []
    else if |v| == 2 then [Byte0(Rank(v[0]), Rank(v[1]))]
    else if |v| == 3 then [Byte0(Rank(v[0]), Rank(v[1])), Byte1(Rank(v[1]), Rank(v[2]))]
    else [Byte0(Rank(v[0]), Rank(v[1])), Byte1(Rank(v[1]), Rank(v[2])), Byte2(Rank(v[2]), Rank(v[3]))] + Decode(v[4..])
  }

  function DecodeCanonical(v: string): (r: Option<seq<Byte>>)
  {
    if v == "" || !IsText(v) then None
    else if Encode(Decode(v)) == v then Some(Decode(v))
    else None
  }

  lemma RanksOfLetters()
    ensures forall s: Sextet :: Rank(Letter(s)) == s
  {
    forall s: Sextet ensures Rank(Letter(s)) == s { RankOfLetter(s); }
  }

  lemma DecodeTail(bytes: seq<Byte>)
    requires |bytes| <= 2
    ensures Decode(Encode(bytes)) == bytes
  {
    RanksOfLetters();
    hide Rank, Letter, First, Second, Third, Fourth, Byte0, Byte1, Byte2;
    if |bytes| == 1 {
      GroupOfBytes(bytes[0], 0, 0);
    } else if |bytes| == 2 {
      GroupOfBytes(bytes[0], bytes[1], 0);
    }
  }

  lemma DecodeGroup(a: Byte, b: Byte, c: Byte, rest: seq<Byte>)
    ensures Decode(Encode([a, b, c] + rest)) == [a, b, c] + Decode(Encode(rest))
  {
    RanksOfLetters();
    hide Rank, Letter, First, Second, Third, Fourth, Byte0, Byte1, Byte2;
    var v := Encode([a, b, c] + rest);
    assert ([a, b, c] + rest)[3..] == rest;
    assert v[4..] == Encode(rest);
    GroupOfBytes(a, b, c);
  }

  lemma {:induction false} DecodeEncode(bytes: seq<Byte>)
    ensures Decode(Encode(bytes)) == bytes
  {
    if |bytes| <= 2 {
      DecodeTail(bytes);
    } else {
      DecodeEncode(bytes[3..]);
      assert bytes == [bytes[0], bytes[1], bytes[2]] + bytes[3..];
      DecodeGroup(bytes[0], bytes[1], bytes[2], bytes[3..]);
    }
  }

  /** The canonical decoder inverts the encoder, and accepts nothing the encoder does not produce. */
  lemma CanonicalExactly(v: string, bytes: seq<Byte>)
    ensures DecodeCanonical(v) == Some(bytes) <==> v == Encode(bytes) && bytes != []
  {
    DecodeEncode(bytes);
  }

  lemma {:induction false} EncodedLength(bytes: seq<Byte>)
    ensures |Encode(bytes)| == (4 * |bytes| + 2) / 3
  {
    if |bytes| > 2 { EncodedLength(bytes[3..]); }
  }

  /** The test vectors of section 10 of RFC 4648, without padding, and one with the two letters of section 5. */
  lemma Vectors()
    ensures Encode([102]) == "Zg" && Encode([102, 111]) == "Zm8" && Encode([102, 111, 111]) == "Zm9v"
    ensures Encode([102, 111, 111, 98]) == "Zm9vYg" && Encode([102, 111, 111, 98, 97]) == "Zm9vYmE"
    ensures Encode([102, 111, 111, 98, 97, 114]) == "Zm9vYmFy" && Encode([]) == "" && Encode([251, 255]) == "-_8"
  {
    assert [102, 111, 111][3..] == [];
    assert [102, 111, 111, 98][3..] == [98];
    assert [102, 111, 111, 98, 97][3..] == [98, 97];
    assert [102, 111, 111, 98, 97, 114][3..] == [98, 97, 114] && [98, 97, 114][3..] == [];
  }
}
