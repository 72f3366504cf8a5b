/**
 The signed history cursor: its printer, its parser, and the theorem that the parser accepts exactly
 what the printer emits for an in-range state. The signature is an opaque function of the text it is made
 over, and yields 32 bytes.
 */
module HistoryCursors {
  import opened Outcomes
  import opened Base64Url

  const MAX_HISTORY_OFFSET := 100_000_000
  const MAX_CURSOR_LENGTH := 512
  const NUL: string := "\0"

  type Digest = d: seq<Byte> | |d| == 32 witness seq(32, _ => 0)

  type Signer = string -> Digest

  datatype Limits = Limits(maxPages: nat, maxMessages: nat, maxBytes: nat)

  datatype CursorState = CursorState(
    sessionId: string, start: nat, end: nat, offset: nat, pages: nat, messages: nat, bytes: nat)

  predicate ValidLimits(l: Limits) {
    1 <= l.maxPages <= 100 && 1 <= l.maxMessages <= 5_000 && 1_024 <= l.maxBytes <= 32 * 1024 * 1024
  }

  // ---- Identifiers and numerals ------------------------------------------------------------------

  predicate IsAlphanumeric(c: char) {
    'A' <= c <= 'Z' || 'a' <= c <= 'z' || '0' <= c <= '9'
  }

  predicate IsIdentifier(s: string) {
    && 1 <= |s| <= 128 && IsAlphanumeric(s[0])
    && (forall c :: c in s ==> IsAlphanumeric(c) || c == '.' || c == '_' || c == ':' || c == '-')
  }

  predicate IsAscii(s: string) {
    forall i :: 0 <= i < |s| ==> s[i] as int < 128
  }

  function Codes(s: string): (bytes: seq<Byte>)
    requires IsAscii(s)
    ensures |bytes| == |s|
  {
    seq(|s|, i requires 0 <= i < |s| && IsAscii(s) => s[i] as Byte)
  }

  function Chars(bytes: seq<Byte>): (s: string)
    ensures |s| == |bytes|
  {
    seq(|bytes|, i requires 0 <= i < |bytes| => bytes[i] as char)
  }

  lemma CharsOfCodes(s: string)
    requires IsAscii(s)
    ensures Chars(Codes(s)) == s
  {
  }

  lemma CodesOfChars(bytes: seq<Byte>)
    requires IsAscii(Chars(bytes))
    ensures Codes(Chars(bytes)) == bytes
  {
  }

  predicate AllDigits(s: string) {
    forall i :: 0 <= i < |s| ==> '0' <= s[i] <= '9'
  }

  function Digits(n: nat): (s: string)
    ensures |s| >= 1 && AllDigits(s)
  {
    if n < 10 then ['0' + n as char] else Digits(n / 10) + ['0' + (n % 10) as char]
  }

  function Value(s: string): nat
    requires AllDigits(s)
  {
    if s == "" then 0 else Value(s[..|s| - 1]) * 10 + (s[|s| - 1] - '0') as int
  }

  /** (0|[1-9][0-9]{0,k-1}) */
  predicate IsNumeral(s: string, k: nat) {
    1 <= |s| <= k && AllDigits(s) && (s[0] == '0' ==> |s| == 1)
  }

  function Pow10(k: nat): nat {
    if k == 0 then 1 else 10 * Pow10(k - 1)
  }

  lemma {:induction false} DigitsAreNumeral(n: nat, k: nat)
    requires k >= 1 && n < Pow10(k)
    ensures IsNumeral(Digits(n), k) && Value(Digits(n)) == n
    ensures n > 0 ==> Digits(n)[0] != '0'
  {
    if n < 10 {
      assert Digits(n)[..0] == "";
    } else {
      assert Pow10(1) == 10;
      DigitsAreNumeral(n / 10, k - 1);
      assert Digits(n)[..|Digits(n)| - 1] == Digits(n / 10);
    }
  }

  /** One more digit at the end. */
  lemma ValueOfDigit(init: string, c: char)
    requires AllDigits(init) && '0' <= c <= '9'
    ensures AllDigits(init + [c]) && Value(init + [c]) == Value(init) * 10 + (c - '0') as int
    ensures Value(init) > 0 ==> Digits(Value(init + [c])) == Digits(Value(init)) + [c]
  {
    assert (init + [c])[..|init|] == init;
  }

  lemma {:induction false} NumeralIsDigits(s: string, k: nat)
    requires IsNumeral(s, k)
    ensures Digits(Value(s)) == s && Value(s) < Pow10(k)
    ensures s[0] != '0' ==> Value(s) > 0
  {
    hide Value, Digits, Pow10;
    PowerAtLeast(k);
    if |s| == 1 {
      assert s == [s[0]];
      OneDigit(s[0]);
    } else {
      var init, c := s[..|s| - 1], s[|s| - 1];
      assert s == init + [c];
      ValueOfDigit(init, c);
      NumeralIsDigits(init, k - 1);
    }
  }

  lemma OneDigit(c: char)
    requires '0' <= c <= '9'
    ensures Value([c]) == (c - '0') as int && Digits((c - '0') as int) == [c]
  {
    assert [c][..0] == "";
  }

  lemma {:induction false} PowerAtLeast(k: nat)
    requires k >= 1
    ensures Pow10(k) >= 10 && Pow10(k) == 10 * Pow10(k - 1)
  {
    if k > 1 { PowerAtLeast(k - 1); }
  }

  // ---- Colon-separated fields --------------------------------------------------------------------

  function Split(s: string): (parts: seq<string>)
    ensures |parts| >= 1
  {
    if s == "" then [""]
    else if s[0] == ':' then [""] + Split(s[1..])
    else var rest := Split(s[1..]); [[s[0]] + rest[0]] + rest[1..]
  }

  function Join(parts: seq<string>): string
    requires |parts| >= 1
  {
    if |parts| == 1 then parts[0] else parts[0] + ":" + Join(parts[1..])
  }

  lemma {:induction false} JoinOfSplit(s: string)
    ensures Join(Split(s)) == s
  {
    if s != "" {
      JoinOfSplit(s[1..]);
      var rest := Split(s[1..]);
      if s[0] == ':' {
        assert Split(s)[1..] == rest;
      } else {
        assert Split(s)[1..] == rest[1..];
      }
    }
  }

  lemma {:induction false} SplitOfJoin(parts: seq<string>)
    requires |parts| >= 1 && forall p :: p in parts ==> ':' !in p
    ensures Split(Join(parts)) == parts
    decreases |parts|
  {
    if |parts| == 1 {
      SplitOfOne(parts[0], "");
      assert parts[0] + "" == parts[0];
    } else {
      SplitOfJoin(parts[1..]);
      assert (":" + Join(parts[1..]))[1..] == Join(parts[1..]);
      SplitOfOne(parts[0], ":" + Join(parts[1..]));
      assert Join(parts) == parts[0] + (":" + Join(parts[1..]));
    }
  }

  /** A leading piece without a colon joins the first field of what follows. */
  lemma {:induction false} SplitOfOne(p: string, tail: string)
    requires ':' !in p && (tail == "" || tail[0] == ':')
    ensures Split(p + tail) == [p] + Split(tail)[1..]
  {
    if p == "" {
      assert p + tail == tail;
    } else {
      SplitOfOne(p[1..], tail);
      assert (p + tail)[1..] == p[1..] + tail;
      assert [p[0]] + p[1..] == p;
    }
  }

  function BeforeLastColon(s: string): string {
    if s == "" then ""
    else if s[|s| - 1] == ':' then s[..|s| - 1]
    else BeforeLastColon(s[..|s| - 1])
  }

  lemma {:induction false} JoinLast(parts: seq<string>, last: string)
    requires |parts| >= 1
    ensures Join(parts + [last]) == Join(parts) + ":" + last
    decreases |parts|
  {
    assert (parts + [last])[1..] == parts[1..] + [last];
    if |parts| > 1 { JoinLast(parts[1..], last); }
  }

  lemma {:induction false} BeforeLastOf(s: string, last: string)
    requires ':' !in last
    ensures BeforeLastColon(s + ":" + last) == s
  {
    var whole := s + ":" + last;
    if last == "" {
      assert whole[..|whole| - 1] == s;
    } else {
      BeforeLastOf(s, last[..|last| - 1]);
      assert whole[..|whole| - 1] == s + ":" + last[..|last| - 1];
      assert whole[|whole| - 1] == last[|last| - 1];
    }
  }

  // ---- The cursor --------------------------------------------------------------------------------

  predicate InRange(s: CursorState, l: Limits) {
    && IsIdentifier(s.sessionId) && s.start <= s.offset <= s.end <= MAX_HISTORY_OFFSET
    && s.end - s.start <= l.maxMessages
    && s.pages < l.maxPages && s.messages < l.maxMessages && s.bytes < l.maxBytes
  }

  function Fields(s: CursorState): seq<string>
    requires IsAscii(s.sessionId)
  {
    ["v3", Encode(Codes(s.sessionId)), Digits(s.start), Digits(s.end), Digits(s.offset),
     Digits(s.pages), Digits(s.messages), Digits(s.bytes)]
  }

  function Payload(s: CursorState): string
    requires IsAscii(s.sessionId)
  {
    Join(Fields(s))
  }

  /** What is signed: the requested session, the profile and the payload, set apart by zeros. */
  function SignedText(requested: string, profile: string, payload: string): string {
    requested + NUL + profile + NUL + payload
  }

  /** The printer; its states carry identifiers, which are ASCII. */
  function EncodeCursor(s: CursorState, sign: Signer, requested: string, profile: string): string
    requires IsIdentifier(s.sessionId)
  {
    IdentifierIsAscii(s.sessionId);
    SignedIsAscii(s, sign(SignedText(requested, profile, Payload(s))));
    Encode(Codes(Payload(s) + ":" + Encode(sign(SignedText(requested, profile, Payload(s))))))
  }

  lemma IdentifierIsAscii(s: string)
    requires IsIdentifier(s)
    ensures IsAscii(s)
  {
    forall i | 0 <= i < |s| ensures s[i] as int < 128 { assert s[i] in s; }
  }

  lemma TextIsAscii(v: string)
    requires IsText(v)
    ensures IsAscii(v) && ':' !in v
  {
    forall i | 0 <= i < |v| ensures v[i] as int < 128 { assert v[i] in v; }
  }

  lemma {:induction false} JoinIsAscii(parts: seq<string>)
    requires |parts| >= 1 && forall i :: 0 <= i < |parts| ==> IsAscii(parts[i])
    ensures IsAscii(Join(parts))
    decreases |parts|
  {
    if |parts| > 1 { JoinIsAscii(parts[1..]); }
  }

  lemma SignedIsAscii(s: CursorState, signature: Digest)
    requires IsAscii(s.sessionId)
    ensures IsAscii(Payload(s) + ":" + Encode(signature))
  {
    TextIsAscii(Encode(Codes(s.sessionId)));
    TextIsAscii(Encode(signature));
    JoinIsAscii(Fields(s));
  }

  predicate IsToken(s: string, lo: nat, hi: nat) {
    IsText(s) && lo <= |s| <= hi
  }

  /** The pattern the decoded text has to match, field by field. */
  predicate Matches(parts: seq<string>) {
    && |parts| == 9 && parts[0] == "v3" && IsToken(parts[1], 2, 171)
    && IsNumeral(parts[2], 9) && IsNumeral(parts[3], 9) && IsNumeral(parts[4], 9)
    && IsNumeral(parts[5], 3) && IsNumeral(parts[6], 6) && IsNumeral(parts[7], 9)
    && IsToken(parts[8], 43, 43)
  }

  function StateOf(sessionId: string, parts: seq<string>): CursorState
    requires Matches(parts)
  {
    CursorState(sessionId, Value(parts[2]), Value(parts[3]), Value(parts[4]), Value(parts[5]), Value(parts[6]), Value(parts[7]))
  }

  /** The parser; None is the thrown input error. */
  function DecodeCursor(v: string, sign: Signer, requested: string, profile: string, l: Limits): Option<CursorState> {
    if |v| > MAX_CURSOR_LENGTH || DecodeCanonical(v).None? then None
    else
      var decoded := Chars(DecodeCanonical(v).value);
      var parts := Split(decoded);
      if !Matches(parts) || DecodeCanonical(parts[1]).None? || DecodeCanonical(parts[8]).None? then None
      else if DecodeCanonical(parts[8]).value != sign(SignedText(requested, profile, BeforeLastColon(decoded))) then None
      else
        var sessionId := Chars(DecodeCanonical(parts[1]).value);
        if InRange(StateOf(sessionId, parts), l) then Some(StateOf(sessionId, parts)) else None
  }

  lemma Powers()
    ensures Pow10(2) == 100 && Pow10(3) == 1_000 && Pow10(4) == 10_000 && Pow10(6) == 1_000_000
    ensures Pow10(8) == 100_000_000 && Pow10(9) == 1_000_000_000
  {
    assert Pow10(1) == 10;
    assert Pow10(5) == 100_000;
    assert Pow10(7) == 10_000_000;
  }

  lemma NumberField(n: nat, k: nat)
    requires k >= 1 && n < Pow10(k)
    ensures IsNumeral(Digits(n), k) && Value(Digits(n)) == n && ':' !in Digits(n)
  {
    DigitsAreNumeral(n, k);
  }

  lemma TokenField(bytes: seq<Byte>, lo: nat, hi: nat)
    requires lo <= (4 * |bytes| + 2) / 3 <= hi
    ensures IsToken(Encode(bytes), lo, hi) && ':' !in Encode(bytes)
  {
    EncodedLength(bytes);
    TextIsAscii(Encode(bytes));
  }

  lemma FieldsAre(s: CursorState, last: string)
    requires IsAscii(s.sessionId)
    ensures var parts := Fields(s) + [last];
      && |parts| == 9 && parts[0] == "v3" && parts[1] == Encode(Codes(s.sessionId))
      && parts[2] == Digits(s.start) && parts[3] == Digits(s.end) && parts[4] == Digits(s.offset)
      && parts[5] == Digits(s.pages) && parts[6] == Digits(s.messages) && parts[7] == Digits(s.bytes) && parts[8] == last
  {
    hide Digits, Encode, Codes;
  }

  lemma FieldsFrom(parts: seq<string>, s: CursorState)
    requires IsAscii(s.sessionId) && |parts| == 9 && parts[0] == "v3" && parts[1] == Encode(Codes(s.sessionId))
    requires parts[2] == Digits(s.start) && parts[3] == Digits(s.end) && parts[4] == Digits(s.offset)
    requires parts[5] == Digits(s.pages) && parts[6] == Digits(s.messages) && parts[7] == Digits(s.bytes)
    ensures parts[..8] == Fields(s)
  {
    hide Digits, Encode, Codes;
  }

  lemma FieldsMatch(s: CursorState, l: Limits, signature: Digest)
    requires ValidLimits(l) && InRange(s, l) && IsAscii(s.sessionId)
    ensures var parts := Fields(s) + [Encode(signature)];
      Matches(parts) && StateOf(s.sessionId, parts) == s
  {
    assert 1 <= |s.sessionId| <= 128;
    Powers();
    FieldsAre(s, Encode(signature));
    hide Digits, Value, Encode, Codes, IsNumeral, IsToken, IsIdentifier, Pow10, IsAscii, AllDigits, IsText, Fields;
    TokenField(Codes(s.sessionId), 2, 171);
    TokenField(signature, 43, 43);
    NumberField(s.start, 9);
    NumberField(s.end, 9);
    NumberField(s.offset, 9);
    NumberField(s.pages, 3);
    NumberField(s.messages, 6);
    NumberField(s.bytes, 9);
  }

  lemma FieldsHoldNoColon(s: CursorState, signature: Digest)
    requires IsAscii(s.sessionId)
    ensures forall p :: p in Fields(s) + [Encode(signature)] ==> ':' !in p
  {
    forall n: nat ensures ':' !in Digits(n) { assert AllDigits(Digits(n)); }
    TextIsAscii(Encode(Codes(s.sessionId)));
    TextIsAscii(Encode(signature));
    hide Digits, Encode, Codes, IsText, IsAscii;
  }

  /** What the parser reads off the printed fields. */
  lemma PrintedParses(s: CursorState, l: Limits, sign: Signer, requested: string, profile: string)
    requires ValidLimits(l) && InRange(s, l)
    ensures |EncodeCursor(s, sign, requested, profile)| <= MAX_CURSOR_LENGTH ==>
      DecodeCursor(EncodeCursor(s, sign, requested, profile), sign, requested, profile, l) == Some(s)
  {
    IdentifierIsAscii(s.sessionId);
    var signature := sign(SignedText(requested, profile, Payload(s)));
    SignedIsAscii(s, signature);
    var text := Payload(s) + ":" + Encode(signature);
    var v := EncodeCursor(s, sign, requested, profile);
    var parts := Fields(s) + [Encode(signature)];
    CanonicalExactly(v, Codes(text));
    CharsOfCodes(text);
    FieldsMatch(s, l, signature);
    FieldsHoldNoColon(s, signature);
    JoinLast(Fields(s), Encode(signature));
    SplitOfJoin(parts);
    BeforeLastOf(Payload(s), Encode(signature));
    CanonicalExactly(parts[1], Codes(s.sessionId));
    CanonicalExactly(parts[8], signature);
    CharsOfCodes(s.sessionId);
    hide Matches, Encode, DecodeCanonical, Codes, Chars, Split, Join, Fields, StateOf, BeforeLastColon, IsIdentifier;
  }

  function Total(bounds: seq<nat>): nat {
    if bounds == [] then 0 else bounds[0] + Total(bounds[1..])
  }

  lemma {:induction false} JoinFits(parts: seq<string>, bounds: seq<nat>)
    requires |parts| == |bounds| >= 1 && forall i :: 0 <= i < |parts| ==> |parts[i]| <= bounds[i]
    ensures |Join(parts)| <= Total(bounds) + |parts| - 1
    decreases |parts|
  {
    if |parts| > 1 { JoinFits(parts[1..], bounds[1..]); }
  }

  const FIELD_BOUNDS: seq<nat> := [2, 171, 9, 9, 9, 2, 4, 8]

  lemma BoundsTotal()
    ensures Total(FIELD_BOUNDS) == 214
  {
    assert Total([9, 2, 4, 8]) == 23;
    assert FIELD_BOUNDS[1..][1..][1..][1..] == [9, 2, 4, 8];
    assert Total(FIELD_BOUNDS[1..][1..]) == 41;
  }

  lemma FieldLengths(s: CursorState, l: Limits)
    requires ValidLimits(l) && InRange(s, l) && IsAscii(s.sessionId)
    ensures |Fields(s)| == 8 && |Fields(s)[0]| == 2 && |Fields(s)[1]| <= 171
    ensures |Fields(s)[2]| <= 9 && |Fields(s)[3]| <= 9 && |Fields(s)[4]| <= 9
    ensures |Fields(s)[5]| <= 2 && |Fields(s)[6]| <= 4 && |Fields(s)[7]| <= 8
  {
    assert 1 <= |s.sessionId| <= 128;
    Powers();
    FieldsAre(s, "");
    assert |Fields(s)| == 8 && forall i :: 0 <= i < 8 ==> Fields(s)[i] == (Fields(s) + [""])[i];
    hide Encode, Codes, IsIdentifier, Pow10, AllDigits, IsText, IsAscii, Value, Digits, Fields;
    TokenField(Codes(s.sessionId), 2, 171);
    NumberField(s.start, 9);
    NumberField(s.end, 9);
    NumberField(s.offset, 9);
    NumberField(s.pages, 2);
    NumberField(s.messages, 4);
    NumberField(s.bytes, 8);
  }

  lemma FieldsFit(s: CursorState, l: Limits)
    requires ValidLimits(l) && InRange(s, l) && IsAscii(s.sessionId)
    ensures |Payload(s)| <= 221
  {
    hide *;
    FieldLengths(s, l);
    LengthsFit(Fields(s));
    PayloadIs(s);
  }

  lemma PayloadIs(s: CursorState)
    requires IsAscii(s.sessionId)
    ensures Payload(s) == Join(Fields(s))
  {
  }

  lemma LengthsFit(parts: seq<string>)
    requires |parts| == 8 && |parts[0]| == 2 && |parts[1]| <= 171
    requires |parts[2]| <= 9 && |parts[3]| <= 9 && |parts[4]| <= 9
    requires |parts[5]| <= 2 && |parts[6]| <= 4 && |parts[7]| <= 8
    ensures |Join(parts)| <= 221
  {
    hide Join, Total;
    BoundsTotal();
    JoinFits(parts, FIELD_BOUNDS);
  }

  /** Every emitted cursor fits the length the parser accepts. */
  lemma CursorFits(s: CursorState, l: Limits, sign: Signer, requested: string, profile: string)
    requires ValidLimits(l) && InRange(s, l)
    ensures |EncodeCursor(s, sign, requested, profile)| <= 354
  {
    IdentifierIsAscii(s.sessionId);
    var signature := sign(SignedText(requested, profile, Payload(s)));
    SignedIsAscii(s, signature);
    FieldsFit(s, l);
    EncodedLength(signature);
    EncodedLength(Codes(Payload(s) + ":" + Encode(signature)));
    hide Payload, Encode;
  }

  lemma ParsedFields(parts: seq<string>, resolved: seq<Byte>)
    requires Matches(parts) && IsAscii(Chars(resolved)) && parts[1] == Encode(resolved)
    ensures parts[..8] == Fields(StateOf(Chars(resolved), parts))
  {
    hide Digits, Value, Encode, Codes, Chars, Fields, IsNumeral, IsToken, Pow10, IsAscii;
    CodesOfChars(resolved);
    NumeralIsDigits(parts[2], 9);
    NumeralIsDigits(parts[3], 9);
    NumeralIsDigits(parts[4], 9);
    NumeralIsDigits(parts[5], 3);
    NumeralIsDigits(parts[6], 6);
    NumeralIsDigits(parts[7], 9);
    FieldsFrom(parts, StateOf(Chars(resolved), parts));
  }

  /** The text a parsed cursor decodes to is the printed payload with the signature. */
  lemma ParsedText(decoded: string, parts: seq<string>, resolved: seq<Byte>)
    requires parts == Split(decoded) && Matches(parts) && IsIdentifier(Chars(resolved)) && parts[1] == Encode(resolved)
    ensures IsAscii(Chars(resolved))
    ensures var s := StateOf(Chars(resolved), parts);
      decoded == Payload(s) + ":" + parts[8] && BeforeLastColon(decoded) == Payload(s)
  {
    assert IsText(parts[8]);
    hide Encode, Chars, Split, Join, Fields, BeforeLastColon, IsIdentifier, StateOf, IsAscii;
    IdentifierIsAscii(Chars(resolved));
    ParsedFields(parts, resolved);
    JoinOfSplit(decoded);
    assert parts == parts[..8] + [parts[8]];
    JoinLast(parts[..8], parts[8]);
    TextIsAscii(parts[8]);
    BeforeLastOf(Payload(StateOf(Chars(resolved), parts)), parts[8]);
  }

  lemma ParsedIsPrinted(v: string, s: CursorState, l: Limits, sign: Signer, requested: string, profile: string)
    requires DecodeCursor(v, sign, requested, profile, l) == Some(s)
    ensures InRange(s, l) && v == EncodeCursor(s, sign, requested, profile)
  {
    var outer := DecodeCanonical(v).value;
    var decoded := Chars(outer);
    var parts := Split(decoded);
    var resolved := DecodeCanonical(parts[1]).value;
    hide Encode, DecodeCanonical, Codes, Chars, Split, Fields, BeforeLastColon, IsIdentifier, IsAscii, Payload, IsNumeral;
    CanonicalExactly(v, outer);
    CanonicalExactly(parts[1], resolved);
    CanonicalExactly(parts[8], DecodeCanonical(parts[8]).value);
    ParsedText(decoded, parts, resolved);
    SignedIsAscii(s, sign(SignedText(requested, profile, Payload(s))));
    CodesOfChars(outer);
  }

  /** The parser accepts exactly the printed cursors of in-range states, and gives the state back. */
  lemma DecodeExactly(v: string, s: CursorState, l: Limits, sign: Signer, requested: string, profile: string)
    requires ValidLimits(l)
    ensures DecodeCursor(v, sign, requested, profile, l) == Some(s) <==>
      InRange(s, l) && v == EncodeCursor(s, sign, requested, profile)
  {
    hide DecodeCursor, EncodeCursor;
    if DecodeCursor(v, sign, requested, profile, l) == Some(s) {
      ParsedIsPrinted(v, s, l, sign, requested, profile);
    }
    if InRange(s, l) && v == EncodeCursor(s, sign, requested, profile) {
      CursorFits(s, l, sign, requested, profile);
      PrintedParses(s, l, sign, requested, profile);
    }
  }

  // ---- Whose cursor it is ------------------------------------------------------------------------

  /** A cursor is accepted for a session and a profile exactly if it is signed as one for them would be. */
  lemma CursorBound(s: CursorState, l: Limits, sign: Signer, requested: string, profile: string, requested': string, profile': string)
    requires ValidLimits(l) && InRange(s, l) && IsAscii(s.sessionId)
    ensures DecodeCursor(EncodeCursor(s, sign, requested, profile), sign, requested', profile', l).Some? <==>
      sign(SignedText(requested, profile, Payload(s))) == sign(SignedText(requested', profile', Payload(s)))
  {
    hide DecodeCursor, Payload, SignedText, Codes, Encode, IsAscii, IsIdentifier;
    var v := EncodeCursor(s, sign, requested, profile);
    var decoded := DecodeCursor(v, sign, requested', profile', l);
    if sign(SignedText(requested, profile, Payload(s))) == sign(SignedText(requested', profile', Payload(s))) {
      assert v == EncodeCursor(s, sign, requested', profile');
      DecodeExactly(v, s, l, sign, requested', profile');
    }
    hide EncodeCursor;
    if decoded.Some? {
      ParsedIsPrinted(v, decoded.value, l, sign, requested', profile');
      SameCursor(s, decoded.value, sign, requested, profile, requested', profile');
    }
  }

  lemma SameCursor(s: CursorState, s': CursorState, sign: Signer, requested: string, profile: string, requested': string, profile': string)
    requires IsIdentifier(s.sessionId) && IsIdentifier(s'.sessionId) && IsAscii(s.sessionId)
    requires EncodeCursor(s, sign, requested, profile) == EncodeCursor(s', sign, requested', profile')
    ensures sign(SignedText(requested, profile, Payload(s))) == sign(SignedText(requested', profile', Payload(s)))
  {
    hide Payload, SignedText, Codes, Encode, IsAscii, IsIdentifier;
    IdentifierIsAscii(s'.sessionId);
    var a, b := sign(SignedText(requested, profile, Payload(s))), sign(SignedText(requested', profile', Payload(s')));
    SignedIsAscii(s, a);
    SignedIsAscii(s', b);
    SamePrinted(s, a, s', b);
  }

  lemma SamePrinted(s: CursorState, a: Digest, s': CursorState, b: Digest)
    requires IsAscii(s.sessionId) && IsAscii(s'.sessionId)
    requires IsAscii(Payload(s) + ":" + Encode(a)) && IsAscii(Payload(s') + ":" + Encode(b))
    requires Encode(Codes(Payload(s) + ":" + Encode(a))) == Encode(Codes(Payload(s') + ":" + Encode(b)))
    ensures Payload(s) == Payload(s') && a == b
  {
    var x, y := Payload(s) + ":" + Encode(a), Payload(s') + ":" + Encode(b);
    CanonicalExactly(Encode(Codes(x)), Codes(x));
    CanonicalExactly(Encode(Codes(y)), Codes(y));
    CharsOfCodes(x);
    CharsOfCodes(y);
    TextIsAscii(Encode(a));
    TextIsAscii(Encode(b));
    BeforeLastOf(Payload(s), Encode(a));
    BeforeLastOf(Payload(s'), Encode(b));
    hide Payload, Codes, Chars, BeforeLastColon, IsAscii;
    assert x[|Payload(s)| + 1..] == Encode(a) && y[|Payload(s')| + 1..] == Encode(b);
    CanonicalExactly(Encode(a), a);
    CanonicalExactly(Encode(b), b);
  }

  lemma SameStart(a: string, u: string, b: string, v: string)
    requires a + NUL + u == b + NUL + v
    requires NUL[0] !in a && NUL[0] !in b
    ensures |a| == |b|
  {
    var x, y := a + NUL + u, b + NUL + v;
    assert x == y && x[|a|] == NUL[0] && y[|b|] == NUL[0];
    assert forall i :: 0 <= i < |a| ==> x[i] == a[i] && a[i] in a;
    assert forall i :: 0 <= i < |b| ==> y[i] == b[i] && b[i] in b;
  }

  /** What is signed tells sessions and profiles apart, as long as the requested ids hold no zero. */
  lemma SignedApart(requested: string, profile: string, requested': string, profile': string, payload: string)
    requires NUL[0] !in requested && NUL[0] !in requested'
    ensures SignedText(requested, profile, payload) == SignedText(requested', profile', payload) <==>
      requested == requested' && profile == profile'
  {
    var x, y := SignedText(requested, profile, payload), SignedText(requested', profile', payload);
    if x == y {
      var n, m := |requested|, |requested'|;
      assert x == requested + NUL + (profile + NUL + payload) && y == requested' + NUL + (profile' + NUL + payload);
      SameStart(requested, profile + NUL + payload, requested', profile' + NUL + payload);
      assert requested == x[..n] && requested' == y[..m];
      assert profile == x[n + 1..|x| - |payload| - 1] && profile' == y[m + 1..|y| - |payload| - 1];
    }
  }

  /** With a zero in them, a cursor of one session is one of another session and profile as well. */
  lemma SignedTogether(s: CursorState, l: Limits, sign: Signer, a: string, b: string, c: string)
    requires ValidLimits(l) && InRange(s, l)
    ensures DecodeCursor(EncodeCursor(s, sign, a + NUL + b, c), sign, a, b + NUL + c, l) == Some(s)
  {
    IdentifierIsAscii(s.sessionId);
    assert SignedText(a + NUL + b, c, Payload(s)) == SignedText(a, b + NUL + c, Payload(s));
    DecodeExactly(EncodeCursor(s, sign, a + NUL + b, c), s, l, sign, a, b + NUL + c);
  }
}
