/**
 serializeOfficeChatEvent: one upstream event within an exact wire budget. When it does not fit, text
 fields are emptied from the largest down until one can be cut to a prefix of its code points; the
 binary search for that prefix is proved to find the longest one that fits.
 */
module WireBudget {
  import opened Outcomes
  import opened Utf16

  /** An event: its text fields (text, summary, description, command, question, message), the JSON length of
      all the rest (as it is, and marked as truncated), and the lengths of the two notices that may replace it. */
  datatype Event = Event(fields: seq<Option<Text>>, rest: nat, restTruncated: nat, notice: nat)

  datatype Output = Exact | Truncated(fields: seq<Option<Text>>) | Notice | MinimalNotice

  // ---- Sizes -------------------------------------------------------------------------------------

  function FieldBytes(field: Option<Text>): nat {
    if field.Some? then JsonBytes(field.value) else 0
  }

  function FieldsBytes(fields: seq<Option<Text>>): nat {
    if fields == [] then 0 else FieldBytes(fields[0]) + FieldsBytes(fields[1..])
  }

  lemma {:induction false} FieldsBytesAfter(fields: seq<Option<Text>>, f: nat, field: Option<Text>)
    requires f < |fields|
    ensures FieldsBytes(fields[f := field]) + FieldBytes(fields[f]) == FieldsBytes(fields) + FieldBytes(field)
  {
    if f > 0 {
      FieldsBytesAfter(fields[1..], f - 1, field);
      assert fields[f := field][1..] == fields[1..][f - 1 := field];
    } else {
      assert fields[0 := field][1..] == fields[1..];
    }
  }

  // ---- Prefixes by code points -------------------------------------------------------------------

  /** The first k code points, as code units. */
  function Prefix(s: Text, k: nat): (p: Text)
    ensures p <= s
  {
    if k == 0 || s == [] then []
    else if LeadsPair(s) then [s[0], s[1]] + Prefix(s[2..], k - 1)
    else [s[0]] + Prefix(s[1..], k - 1)
  }

  lemma {:induction false} PrefixPoints(s: Text, k: nat)
    requires k <= |CodePoints(s)|
    ensures CodePoints(Prefix(s, k)) == CodePoints(s)[..k]
    ensures k == |CodePoints(s)| ==> Prefix(s, k) == s
    decreases |s|
  {
    if k == 0 || s == [] {
    } else if LeadsPair(s) {
      PrefixPoints(s[2..], k - 1);
      assert ([s[0], s[1]] + Prefix(s[2..], k - 1))[2..] == Prefix(s[2..], k - 1);
    } else {
      PrefixPoints(s[1..], k - 1);
      assert ([s[0]] + Prefix(s[1..], k - 1))[1..] == Prefix(s[1..], k - 1);
    }
  }

  lemma {:induction false} TotalGrows(points: seq<nat>, j: nat, k: nat)
    requires j <= k <= |points|
    ensures Total(points[..j], JsonSize) <= Total(points[..k], JsonSize)
  {
    assert points[..k] == points[..j] + points[j..k];
    TotalAdds(points[..j], points[j..k], JsonSize);
  }

  /** A longer prefix never takes fewer bytes. */
  lemma PrefixGrows(s: Text, j: nat, k: nat)
    requires j <= k <= |CodePoints(s)|
    ensures JsonBytes(Prefix(s, j)) <= JsonBytes(Prefix(s, k))
  {
    PrefixPoints(s, j);
    PrefixPoints(s, k);
    TotalGrows(CodePoints(s), j, k);
  }

  /** The most code points, up to n, whose bytes fit the room: tried one by one from the top. */
  function LongestFit(s: Text, room: nat, n: nat): (k: nat)
    requires n <= |CodePoints(s)|
    ensures k <= n
  {
    if n == 0 || JsonBytes(Prefix(s, n)) <= room then n else LongestFit(s, room, n - 1)
  }

  lemma {:induction false} LongestFitFound(s: Text, room: nat, n: nat, k: nat)
    requires k <= n <= |CodePoints(s)|
    requires JsonBytes(Prefix(s, k)) <= room && (k < n ==> JsonBytes(Prefix(s, k + 1)) > room)
    ensures LongestFit(s, room, n) == k
  {
    if k < n {
      PrefixGrows(s, k + 1, n);
      LongestFitFound(s, room, n - 1, k);
    }
  }

  // ---- The fields by size ------------------------------------------------------------------------

  /** A stable descending insertion. */
  function Insert(order: seq<nat>, f: nat, key: nat -> nat): seq<nat> {
    if order == [] then [f]
    else if key(f) > key(order[0]) then [f] + order
    else [order[0]] + Insert(order[1..], f, key)
  }

  function Order(n: nat, present: nat -> bool, key: nat -> nat): seq<nat> {
    if n == 0 then []
    else if present(n - 1) then Insert(Order(n - 1, present, key), n - 1, key)
    else Order(n - 1, present, key)
  }

  predicate Before(f: nat, g: nat, key: nat -> nat) {
    key(f) > key(g) || (key(f) == key(g) && f < g)
  }

  ghost predicate Descending(order: seq<nat>, key: nat -> nat) {
    forall i, j :: 0 <= i < j < |order| ==> Before(order[i], order[j], key)
  }

  lemma {:induction false} InsertHolds(order: seq<nat>, f: nat, key: nat -> nat)
    ensures multiset(Insert(order, f, key)) == multiset(order) + multiset{f}
  {
    if order != [] {
      assert order == [order[0]] + order[1..];
      if key(f) <= key(order[0]) { InsertHolds(order[1..], f, key); }
    }
  }

  lemma {:induction false} InsertDescends(order: seq<nat>, f: nat, key: nat -> nat)
    requires Descending(order, key) && forall i :: 0 <= i < |order| ==> order[i] < f
    ensures Descending(Insert(order, f, key), key)
  {
    if order != [] && key(f) <= key(order[0]) {
      InsertDescends(order[1..], f, key);
      InsertHolds(order[1..], f, key);
      var rest := Insert(order[1..], f, key);
      forall j | 0 <= j < |rest| ensures Before(order[0], rest[j], key) {
        assert rest[j] in multiset(rest);
        assert rest[j] == f || rest[j] in order[1..];
      }
    }
  }

  /** Each present field is listed once, and no other. */
  lemma {:induction false} OrderHolds(n: nat, present: nat -> bool, key: nat -> nat, f: nat)
    ensures multiset(Order(n, present, key))[f] == if f < n && present(f) then 1 else 0
  {
    if n > 0 {
      OrderHolds(n - 1, present, key, f);
      InsertHolds(Order(n - 1, present, key), n - 1, key);
      hide Insert;
    }
  }

  lemma OrderMembers(n: nat, present: nat -> bool, key: nat -> nat)
    ensures forall i :: 0 <= i < |Order(n, present, key)| ==> Order(n, present, key)[i] < n && present(Order(n, present, key)[i])
  {
    var order := Order(n, present, key);
    hide Order;
    forall i | 0 <= i < |order| ensures order[i] < n && present(order[i]) {
      OrderHolds(n, present, key, order[i]);
      assert order[i] in multiset(order);
    }
  }

  /** The largest first, equals in their given order. */
  lemma {:induction false} OrderDescends(n: nat, present: nat -> bool, key: nat -> nat)
    ensures Descending(Order(n, present, key), key)
  {
    if n > 0 {
      OrderDescends(n - 1, present, key);
      if present(n - 1) {
        OrderMembers(n - 1, present, key);
        InsertDescends(Order(n - 1, present, key), n - 1, key);
      }
    }
  }

  function HasField(fields: seq<Option<Text>>): nat -> bool {
    (f: nat) => f < |fields| && fields[f].Some?
  }

  function FieldSize(fields: seq<Option<Text>>): nat -> nat {
    (f: nat) => if f < |fields| && fields[f].Some? then Utf8Bytes(fields[f].value) else 0
  }

  function BySize(fields: seq<Option<Text>>): seq<nat> {
    Order(|fields|, HasField(fields), FieldSize(fields))
  }

  // ---- Cutting -----------------------------------------------------------------------------------

  predicate Present(fields: seq<Option<Text>>, order: seq<nat>) {
    forall i :: 0 <= i < |order| ==> order[i] < |fields| && fields[order[i]].Some?
  }

  /** Fields are emptied in turn; the first whose removal is enough gets its longest fitting prefix back. */
  function Cut(fields: seq<Option<Text>>, order: seq<nat>, rest: nat, max: nat): Option<seq<Option<Text>>>
    requires Present(fields, order)
    decreases |order|
  {
    if order == [] then None
    else
      var f := order[0];
      var original := fields[f].value;
      var emptied := fields[f := Some([])];
      if rest + FieldsBytes(emptied) > max then Cut(emptied, order[1..], rest, max)
      else Some(fields[f := Some(Prefix(original, LongestFit(original, max - rest - FieldsBytes(emptied), |CodePoints(original)|)))])
  }

  lemma BySizePresent(fields: seq<Option<Text>>)
    ensures Present(fields, BySize(fields))
  {
    OrderMembers(|fields|, HasField(fields), FieldSize(fields));
  }

  function Serialized(e: Event, max: nat): Output
  {
    BySizePresent(e.fields);
    if e.rest + FieldsBytes(e.fields) <= max then Exact
    else
      var cut := Cut(e.fields, BySize(e.fields), e.restTruncated, max);
      if cut.Some? then Truncated(cut.value)
      else if e.notice <= max then Notice
      else MinimalNotice
  }

  /** The binary search over the code points of one field. */
  method LongestPrefix(original: Text, without: nat, max: nat) returns (low: nat)
    requires without <= max
    ensures low == LongestFit(original, max - without, |CodePoints(original)|)
  {
    var n := |CodePoints(original)|;
    assert JsonBytes(Prefix(original, 0)) == 0;
    low := 0;
    var high := n;
    PrefixPoints(original, 0);
    hide Prefix, CodePoints, Total;
    while low < high
      invariant 0 <= low <= high <= n
      invariant without + JsonBytes(Prefix(original, low)) <= max
      invariant high < n ==> without + JsonBytes(Prefix(original, high + 1)) > max
    {
      var middle := (low + high + 1) / 2;
      if without + JsonBytes(Prefix(original, middle)) <= max { low := middle; } else { high := middle - 1; }
    }
    LongestFitFound(original, max - without, n, low);
  }

  method Serialize(e: Event, max: nat) returns (output: Output)
    ensures output == Serialized(e, max)
  {
    if e.rest + FieldsBytes(e.fields) <= max { return Exact; }
    BySizePresent(e.fields);
    var payload, order := e.fields, BySize(e.fields);
    hide BySize, LongestFit, Prefix;
    var i := 0;
    assert order[0..] == order;
    while i < |order|
      invariant i <= |order| && Present(payload, order[i..]) && Present(e.fields, order)
      invariant Cut(e.fields, order, e.restTruncated, max) == Cut(payload, order[i..], e.restTruncated, max)
    {
      var field := order[i];
      assert order[i..][0] == field && order[i..][1..] == order[i + 1..];
      var original := payload[field].value;
      var emptied := payload[field := Some([])];
      var without := e.restTruncated + FieldsBytes(emptied);
      if without <= max {
        var low := LongestPrefix(original, without, max);
        return Truncated(payload[field := Some(Prefix(original, low))]);
      }
      payload := emptied;
      i := i + 1;
    }
    assert order[i..] == [];
    output := if e.notice <= max then Notice else MinimalNotice;
  }

  // ---- What the result guarantees ----------------------------------------------------------------

  const MINIMAL_BYTES := 116   // the fixed text of the last resort

  function OutputBytes(e: Event, output: Output): nat {
    match output
    case Exact => e.rest + FieldsBytes(e.fields)
    case Truncated(fields) => e.restTruncated + FieldsBytes(fields)
    case Notice => e.notice
    case MinimalNotice => MINIMAL_BYTES
  }

  /** The prefix that is kept fits, and one code point more would not. */
  lemma {:induction false} LongestFitIs(s: Text, room: nat, n: nat)
    requires n <= |CodePoints(s)|
    ensures var k := LongestFit(s, room, n);
      JsonBytes(Prefix(s, k)) <= room && (k < n ==> JsonBytes(Prefix(s, k + 1)) > room)
  {
    if n > 0 && JsonBytes(Prefix(s, n)) > room { LongestFitIs(s, room, n - 1); }
  }

  lemma {:induction false} CutFits(fields: seq<Option<Text>>, order: seq<nat>, rest: nat, max: nat)
    requires Present(fields, order) && Cut(fields, order, rest, max).Some?
    ensures rest + FieldsBytes(Cut(fields, order, rest, max).value) <= max
    decreases |order|
  {
    var f := order[0];
    var original := fields[f].value;
    var emptied := fields[f := Some([])];
    if rest + FieldsBytes(emptied) > max {
      CutFits(emptied, order[1..], rest, max);
    } else {
      var room, n := max - rest - FieldsBytes(emptied), |CodePoints(original)|;
      LongestFitIs(original, room, n);
      FieldsBytesAfter(emptied, f, Some(Prefix(original, LongestFit(original, room, n))));
      assert emptied[f := Some(Prefix(original, LongestFit(original, room, n)))]
          == fields[f := Some(Prefix(original, LongestFit(original, room, n)))];
      hide JsonBytes, Prefix, LongestFit;
    }
  }

  /** The output is within the budget whenever the minimal notice is. */
  lemma WithinBudget(e: Event, max: nat)
    requires MINIMAL_BYTES <= max
    ensures OutputBytes(e, Serialized(e, max)) <= max
  {
    BySizePresent(e.fields);
    if Cut(e.fields, BySize(e.fields), e.restTruncated, max).Some? {
      CutFits(e.fields, BySize(e.fields), e.restTruncated, max);
    }
  }

  /** Only text is lost, and of at most one field in part: those tried before it are emptied, the others
      are as they were, and it keeps a prefix of itself. */
  lemma {:induction false} CutTouches(fields: seq<Option<Text>>, order: seq<nat>, rest: nat, max: nat) returns (i: nat)
    requires Present(fields, order) && Cut(fields, order, rest, max).Some?
    requires forall a, b :: 0 <= a < b < |order| ==> order[a] != order[b]
    ensures i < |order| && |Cut(fields, order, rest, max).value| == |fields|
    ensures var cut := Cut(fields, order, rest, max).value;
      && (forall j :: 0 <= j < i ==> cut[order[j]] == Some([]))
      && cut[order[i]].Some? && cut[order[i]].value <= fields[order[i]].value
      && (forall f :: 0 <= f < |fields| && f !in order[..i + 1] ==> cut[f] == fields[f])
    decreases |order|
  {
    var f := order[0];
    var emptied := fields[f := Some([])];
    if rest + FieldsBytes(emptied) > max {
      var i' := CutTouches(emptied, order[1..], rest, max);
      i := i' + 1;
      assert order[..i + 1] == [f] + order[1..][..i' + 1];
      assert forall j :: 1 <= j < |order| ==> order[1..][j - 1] == order[j];
    } else {
      i := 0;
    }
  }

  // ---- Which output it is ------------------------------------------------------------------------

  /** The event with the first k code points of field f, every larger field empty, and the others whole. */
  function Kept(fields: seq<Option<Text>>, f: nat, k: nat): seq<Option<Text>> {
    seq(|fields|, g requires 0 <= g < |fields| =>
      if fields[g].None? then None
      else if g == f then Some(Prefix(fields[g].value, k))
      else if Larger(fields, g, f) then Some([])
      else fields[g])
  }

  /** More bytes of UTF-8, or as many and listed before. */
  predicate Larger(fields: seq<Option<Text>>, g: nat, f: nat) {
    && g < |fields| && f < |fields| && fields[g].Some? && fields[f].Some?
    && (Utf8Bytes(fields[g].value) > Utf8Bytes(fields[f].value)
        || (Utf8Bytes(fields[g].value) == Utf8Bytes(fields[f].value) && g < f))
  }

  predicate Enough(e: Event, max: nat, f: nat, k: nat) {
    e.restTruncated + FieldsBytes(Kept(e.fields, f, k)) <= max
  }

  predicate IsField(e: Event, f: nat) {
    f < |e.fields| && e.fields[f].Some?
  }

  /** No more could be kept of field f than k code points, and emptying the larger fields alone is not enough. */
  ghost predicate MostKept(e: Event, max: nat, f: nat, k: nat) {
    && IsField(e, f) && k <= |CodePoints(e.fields[f].value)| && Enough(e, max, f, k)
    && (k < |CodePoints(e.fields[f].value)| ==> !Enough(e, max, f, k + 1))
    && (forall g :: Larger(e.fields, g, f) ==> !Enough(e, max, g, 0))
  }

  function WithEmpty(fields: seq<Option<Text>>, order: seq<nat>): (emptied: seq<Option<Text>>)
    ensures |emptied| == |fields|
  {
    seq(|fields|, g requires 0 <= g < |fields| => if g in order then Some([]) else fields[g])
  }

  /** The fields tried before one are the larger ones. */
  lemma TriedBefore(fields: seq<Option<Text>>, i: nat, g: nat)
    requires i < |BySize(fields)| && g < |fields| && fields[g].Some?
    ensures g in BySize(fields)[..i] <==> Larger(fields, g, BySize(fields)[i])
  {
    var order := BySize(fields);
    BySizePresent(fields);
    OrderHolds(|fields|, HasField(fields), FieldSize(fields), g);
    OrderDescends(|fields|, HasField(fields), FieldSize(fields));
    hide BySize, Utf8Bytes;
    assert g in multiset(order);
    var j :| 0 <= j < |order| && order[j] == g;
    if j < i { assert order[..i][j] == g; }
    if g in order[..i] {
      var m :| 0 <= m < i && order[m] == g;
      assert Before(order[m], order[i], FieldSize(fields));
    } else if j > i {
      assert Before(order[i], order[j], FieldSize(fields));
    }
  }

  lemma KeptIs(fields: seq<Option<Text>>, i: nat, k: nat)
    requires i < |BySize(fields)|
    ensures var f := BySize(fields)[i];
      && f < |fields| && fields[f].Some? && WithEmpty(fields, BySize(fields)[..i])[f] == fields[f]
      && Kept(fields, f, k) == WithEmpty(fields, BySize(fields)[..i])[f := Some(Prefix(fields[f].value, k))]
  {
    BySizePresent(fields);
    var f := BySize(fields)[i];
    TriedBefore(fields, i, f);
    forall g | 0 <= g < |fields|
      ensures Kept(fields, f, k)[g] == WithEmpty(fields, BySize(fields)[..i])[f := Some(Prefix(fields[f].value, k))][g]
    {
      if fields[g].Some? { TriedBefore(fields, i, g); }
      hide BySize, Larger, Prefix;
    }
  }

  lemma NextEmpty(fields: seq<Option<Text>>, order: seq<nat>, i: nat)
    requires i < |order| && order[i] < |fields|
    ensures WithEmpty(fields, order[..i])[order[i] := Some([])] == WithEmpty(fields, order[..i + 1])
  {
    assert order[..i + 1] == order[..i] + [order[i]];
  }

  lemma PresentFrom(fields: seq<Option<Text>>, i: nat)
    requires i <= |BySize(fields)|
    ensures Present(WithEmpty(fields, BySize(fields)[..i]), BySize(fields)[i..])
  {
    BySizePresent(fields);
    hide BySize;
  }

  /** What becomes of the event from the i-th field on. */
  function CutFrom(e: Event, max: nat, i: nat): Option<seq<Option<Text>>>
    requires i <= |BySize(e.fields)|
  {
    PresentFrom(e.fields, i);
    Cut(WithEmpty(e.fields, BySize(e.fields)[..i]), BySize(e.fields)[i..], e.restTruncated, max)
  }

  lemma CutNext(e: Event, max: nat, i: nat) returns (k: nat)
    requires i < |BySize(e.fields)|
    ensures !Enough(e, max, BySize(e.fields)[i], 0) ==> CutFrom(e, max, i) == CutFrom(e, max, i + 1)
    ensures Enough(e, max, BySize(e.fields)[i], 0) ==>
      var f := BySize(e.fields)[i];
      && AtMost(e, max, i, k)
      && CutFrom(e, max, i) == Some(WithEmpty(e.fields, BySize(e.fields)[..i])[f := Some(Prefix(e.fields[f].value, k))])
  {
    var order := BySize(e.fields);
    var f := order[i];
    BySizePresent(e.fields);
    var without := e.restTruncated + FieldsBytes(WithEmpty(e.fields, order[..i])[f := Some([])]);
    k := if without <= max then LongestFit(e.fields[f].value, max - without, |CodePoints(e.fields[f].value)|) else 0;
    EnoughAt(e, max, i);
    NextEmpty(e.fields, order, i);
    PresentFrom(e.fields, i);
    PresentFrom(e.fields, i + 1);
    assert order[i..][0] == order[i] && order[i..][1..] == order[i + 1..];
    hide BySize, Enough, CodePoints, Prefix, LongestFit, FieldsBytes, WithEmpty;
  }

  /** From the i-th field on, when emptying the larger ones was not enough. */
  lemma {:induction false} CutMost(e: Event, max: nat, i: nat) returns (f: nat, k: nat)
    requires i <= |BySize(e.fields)| && forall j :: 0 <= j < i ==> !Enough(e, max, BySize(e.fields)[j], 0)
    ensures if CutFrom(e, max, i).None? then forall j :: 0 <= j < |BySize(e.fields)| ==> !Enough(e, max, BySize(e.fields)[j], 0)
            else MostKept(e, max, f, k) && CutFrom(e, max, i).value == Kept(e.fields, f, k)
    decreases |BySize(e.fields)| - i
  {
    f, k := 0, 0;
    if i < |BySize(e.fields)| {
      hide *;
      f := BySize(e.fields)[i];
      k := CutNext(e, max, i);
      if !Enough(e, max, f, 0) {
        f, k := CutMost(e, max, i + 1);
      } else {
        MostFits(e, max, i, k);
      }
    } else {
      hide BySize, Enough;
      assert BySize(e.fields)[i..] == [];
    }
  }

  lemma EnoughAt(e: Event, max: nat, i: nat)
    requires i < |BySize(e.fields)|
    ensures var f := BySize(e.fields)[i];
      && f < |e.fields| && e.fields[f].Some? && WithEmpty(e.fields, BySize(e.fields)[..i])[f] == e.fields[f]
      && (Enough(e, max, f, 0) <==> e.restTruncated + FieldsBytes(WithEmpty(e.fields, BySize(e.fields)[..i])[f := Some([])]) <= max)
  {
    KeptIs(e.fields, i, 0);
    assert Prefix(e.fields[BySize(e.fields)[i]].value, 0) == [];
    hide BySize, Kept, FieldsBytes;
  }

  /** The i-th field can be given back k code points, and that is all. */
  ghost predicate AtMost(e: Event, max: nat, i: nat, k: nat)
    requires i < |BySize(e.fields)|
  {
    var f := BySize(e.fields)[i];
    && f < |e.fields| && e.fields[f].Some?
    && var emptied := WithEmpty(e.fields, BySize(e.fields)[..i])[f := Some([])];
    && e.restTruncated + FieldsBytes(emptied) <= max
    && k == LongestFit(e.fields[f].value, max - e.restTruncated - FieldsBytes(emptied), |CodePoints(e.fields[f].value)|)
  }

  lemma MostFits(e: Event, max: nat, i: nat, k: nat)
    requires i < |BySize(e.fields)| && AtMost(e, max, i, k)
    requires forall j :: 0 <= j < i ==> !Enough(e, max, BySize(e.fields)[j], 0)
    ensures MostKept(e, max, BySize(e.fields)[i], k)
    ensures var f := BySize(e.fields)[i];
      Kept(e.fields, f, k) == WithEmpty(e.fields, BySize(e.fields)[..i])[f := Some(Prefix(e.fields[f].value, k))]
  {
    hide Prefix, LongestFit, BySize, CodePoints, JsonBytes, FieldsBytes, Kept, WithEmpty, Larger;
    var f := BySize(e.fields)[i];
    var original, emptied := e.fields[f].value, WithEmpty(e.fields, BySize(e.fields)[..i])[f := Some([])];
    LongestFitIs(original, max - e.restTruncated - FieldsBytes(emptied), |CodePoints(original)|);
    LargerNotEnough(e, max, i);
    WeighedKept(e, i, k);
    WeighedKept(e, i, k + 1);
  }

  lemma LargerNotEnough(e: Event, max: nat, i: nat)
    requires i < |BySize(e.fields)| && forall j :: 0 <= j < i ==> !Enough(e, max, BySize(e.fields)[j], 0)
    ensures forall g :: Larger(e.fields, g, BySize(e.fields)[i]) ==> !Enough(e, max, g, 0)
  {
    hide BySize, Enough, Utf8Bytes;
    forall g | Larger(e.fields, g, BySize(e.fields)[i]) ensures !Enough(e, max, g, 0) {
      TriedBefore(e.fields, i, g);
      var j :| 0 <= j < i && BySize(e.fields)[j] == g;
    }
  }

  lemma WeighedKept(e: Event, i: nat, k: nat)
    requires i < |BySize(e.fields)|
    ensures var f := BySize(e.fields)[i];
      && f < |e.fields| && e.fields[f].Some?
      && FieldsBytes(Kept(e.fields, f, k))
         == FieldsBytes(WithEmpty(e.fields, BySize(e.fields)[..i])[f := Some([])]) + JsonBytes(Prefix(e.fields[f].value, k))
      && Kept(e.fields, f, k) == WithEmpty(e.fields, BySize(e.fields)[..i])[f := Some(Prefix(e.fields[f].value, k))]
  {
    KeptIs(e.fields, i, k);
    var f := BySize(e.fields)[i];
    var emptied := WithEmpty(e.fields, BySize(e.fields)[..i])[f := Some([])];
    FieldsBytesAfter(emptied, f, Some(Prefix(e.fields[f].value, k)));
    assert emptied[f := Some(Prefix(e.fields[f].value, k))] == Kept(e.fields, f, k);
    assert JsonBytes([]) == 0;
  }

  /** The event goes out as it is exactly when that fits. Otherwise as much text is kept as fits: of one
      field the longest prefix, nothing of the larger ones, all of the others. Only when no field can be
      emptied so that the rest fits, a notice takes its place. */
  lemma SerializedMost(e: Event, max: nat) returns (f: nat, k: nat)
    ensures var output := Serialized(e, max);
      && (output == Exact <==> e.rest + FieldsBytes(e.fields) <= max)
      && (output.Truncated? ==> MostKept(e, max, f, k) && output.fields == Kept(e.fields, f, k))
      && (output.Notice? || output.MinimalNotice? ==> forall g :: IsField(e, g) ==> !Enough(e, max, g, 0))
      && (output.Notice? ==> e.notice <= max) && (output.MinimalNotice? ==> e.notice > max)
  {
    assert BySize(e.fields)[..0] == [] && BySize(e.fields)[0..] == BySize(e.fields);
    assert WithEmpty(e.fields, []) == e.fields;
    BySizePresent(e.fields);
    f, k := CutMost(e, max, 0);
    forall g | IsField(e, g) ensures g in BySize(e.fields) {
      OrderHolds(|e.fields|, HasField(e.fields), FieldSize(e.fields), g);
      assert g in multiset(BySize(e.fields));
    }
    hide BySize;
  }
}
