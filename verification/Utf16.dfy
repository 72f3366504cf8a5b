/**
 Strings as UTF-16 code units, and the bytes they take in UTF-8 (RFC 3629, section 3) and inside a JSON
 string (ECMA-262, section 25.5.2): both are sums over code points, where an unpaired surrogate counts
 as one.
 */
module Utf16 {
  type Unit = u: int | 0 <= u < 0x1_0000
  type Text = seq<Unit>

  predicate IsHigh(u: int) { 0xd800 <= u <= 0xdbff }

  predicate IsLow(u: int) { 0xdc00 <= u <= 0xdfff }

  predicate LeadsPair(s: Text) {
    |s| >= 2 && IsHigh(s[0]) && IsLow(s[1])
  }

  function PairPoint(high: int, low: int): nat
    requires IsHigh(high) && IsLow(low)
  {
    0x1_0000 + (high - 0xd800) * 0x400 + (low - 0xdc00)
  }

  /** The code points, a surrogate without its partner standing for itself. */
  function CodePoints(s: Text): seq<nat> {
    if s == [] then []
    else if LeadsPair(s) then [PairPoint(s[0], s[1])] + CodePoints(s[2..])
    else [s[0]] + CodePoints(s[1..])
  }

  function Utf8Size(c: nat): nat {
    if c < 0x80 then 1 else if c < 0x800 then 2 else if c < 0x1_0000 then 3 else 4
  }

  /** Quotes, backslashes and the short control escapes take two bytes; other controls and lone surrogates six. */
  function JsonSize(c: nat): nat {
    if c == 0x22 || c == 0x5c || c == 0x08 || c == 0x09 || c == 0x0a || c == 0x0c || c == 0x0d then 2
    else if c < 0x20 then 6
    else if IsHigh(c) || IsLow(c) then 6
    else Utf8Size(c)
  }

  function Total(points: seq<nat>, size: nat -> nat): nat {
    if points == [] then 0 else size(points[0]) + Total(points[1..], size)
  }

  function Utf8Bytes(s: Text): nat { Total(CodePoints(s), Utf8Size) }

  function JsonBytes(s: Text): nat { Total(CodePoints(s), JsonSize) }

  predicate JoinsPair(a: Text, b: Text) {
    a != [] && b != [] && IsHigh(a[|a| - 1]) && IsLow(b[0])
  }

  lemma {:induction false} TotalAdds(a: seq<nat>, b: seq<nat>, size: nat -> nat)
    ensures Total(a + b, size) == Total(a, size) + Total(b, size)
  {
    if a == [] {
      assert a + b == b;
    } else {
      TotalAdds(a[1..], b, size);
      assert (a + b)[1..] == a[1..] + b;
    }
  }

  /** Peels the first code point off a text that does not end in the middle of a pair. */
  lemma Peel(a: Text, b: Text) returns (first: nat, rest: Text)
    requires a != [] && !JoinsPair(a, b)
    ensures |rest| < |a| && !JoinsPair(rest, b)
    ensures CodePoints(a) == [first] + CodePoints(rest) && CodePoints(a + b) == [first] + CodePoints(rest + b)
  {
    if LeadsPair(a) {
      first, rest := PairPoint(a[0], a[1]), a[2..];
      assert (a + b)[2..] == rest + b;
    } else {
      first, rest := a[0], a[1..];
      assert (a + b)[1..] == rest + b;
    }
  }

  /** Concatenation keeps the code points of both sides, unless it joins a surrogate pair. */
  lemma {:induction false} ApartPoints(a: Text, b: Text)
    requires !JoinsPair(a, b)
    ensures CodePoints(a + b) == CodePoints(a) + CodePoints(b)
    decreases |a|
  {
    if a == [] {
      assert a + b == b;
    } else {
      hide *;
      var first, rest := Peel(a, b);
      ApartPoints(rest, b);
      assert [first] + (CodePoints(rest) + CodePoints(b)) == ([first] + CodePoints(rest)) + CodePoints(b);
    }
  }

  lemma LastPoint(init: Text, high: Unit)
    requires IsHigh(high)
    ensures CodePoints(init + [high]) == CodePoints(init) + [high]
  {
    ApartPoints(init, [high]);
    assert CodePoints([high]) == [high] + CodePoints([]);
  }

  lemma {:induction false} JoinedPoints(init: Text, high: Unit, low: Unit, tail: Text)
    requires IsHigh(high) && IsLow(low)
    ensures CodePoints(init + [high, low] + tail) == CodePoints(init) + [PairPoint(high, low)] + CodePoints(tail)
  {
    var pair := [high, low] + tail;
    assert pair[2..] == tail;
    assert CodePoints(pair) == [PairPoint(high, low)] + CodePoints(tail);
    ApartPoints(init, pair);
    assert init + [high, low] + tail == init + pair;
  }

  lemma AppendedBytes(a: Text, b: Text)
    ensures Utf8Bytes(a + b) == Utf8Bytes(a) + Utf8Bytes(b) - (if JoinsPair(a, b) then 2 else 0)
    ensures JsonBytes(a + b) == JsonBytes(a) + JsonBytes(b) - (if JoinsPair(a, b) then 8 else 0)
  {
    AppendedTotal(a, b, Utf8Size);
    AppendedTotal(a, b, JsonSize);
  }

  lemma AppendedTotal(a: Text, b: Text, size: nat -> nat)
    ensures Total(CodePoints(a + b), size) + (if JoinsPair(a, b) then size(a[|a| - 1]) + size(b[0]) else 0)
      == Total(CodePoints(a), size) + Total(CodePoints(b), size)
         + (if JoinsPair(a, b) then size(PairPoint(a[|a| - 1], b[0])) else 0)
  {
    if JoinsPair(a, b) {
      assert a == a[..|a| - 1] + [a[|a| - 1]] && b == [b[0]] + b[1..];
      JoinedTotal(a[..|a| - 1], a[|a| - 1], b[0], b[1..], size);
    } else {
      ApartPoints(a, b);
      TotalAdds(CodePoints(a), CodePoints(b), size);
    }
  }

  lemma JoinedTotal(init: Text, high: Unit, low: Unit, tail: Text, size: nat -> nat)
    requires IsHigh(high) && IsLow(low)
    ensures Total(CodePoints((init + [high]) + ([low] + tail)), size) + size(high) + size(low)
      == Total(CodePoints(init + [high]), size) + Total(CodePoints([low] + tail), size) + size(PairPoint(high, low))
  {
    LastPoint(init, high);
    JoinedPoints(init, high, low, tail);
    assert (init + [high]) + ([low] + tail) == init + [high, low] + tail;
    var first, rest := CodePoints(init), CodePoints(tail);
    assert CodePoints([low] + tail) == [low] + rest;
    hide CodePoints;
    TotalAdds(first + [PairPoint(high, low)], rest, size);
    TotalAdds(first, [PairPoint(high, low)], size);
    TotalAdds(first, [high], size);
    TotalAdds([low], rest, size);
    TotalOfOne(PairPoint(high, low), size);
    TotalOfOne(high, size);
    TotalOfOne(low, size);
    hide Total;
  }

  lemma TotalOfOne(c: nat, size: nat -> nat)
    ensures Total([c], size) == size(c)
  {
    assert [c][1..] == [];
  }

  /** The cursor loop counts the bytes of the JSON text without building it. */
  method JsonStringContentBytes(value: Text) returns (bytes: nat)
    ensures bytes == JsonBytes(value)
  {
    bytes := 0;
    var index := 0;
    assert value[0..] == value;
    while index < |value|
      invariant 0 <= index <= |value|
      invariant bytes + JsonBytes(value[index..]) == JsonBytes(value)
    {
      var code := value[index];
      ghost var rest := value[index..];
      assert LeadsPair(rest) <==> index + 1 < |value| && IsHigh(code) && IsLow(value[index + 1]);
      assert LeadsPair(rest) ==> rest[2..] == value[index + 2..];
      assert rest[1..] == value[index + 1..];
      if code == 0x22 || code == 0x5c || code == 0x08 || code == 0x09 || code == 0x0a || code == 0x0c || code == 0x0d {
        bytes := bytes + 2;
      } else if code < 0x20 {
        bytes := bytes + 6;
      } else if code < 0x80 {
        bytes := bytes + 1;
      } else if code < 0x800 {
        bytes := bytes + 2;
      } else if IsHigh(code) && index + 1 < |value| && IsLow(value[index + 1]) {
        bytes := bytes + 4;
        index := index + 1;
      } else if IsHigh(code) || IsLow(code) {
        bytes := bytes + 6;
      } else {
        bytes := bytes + 3;
      }
      index := index + 1;
    }
    assert value[index..] == [];
  }
}
