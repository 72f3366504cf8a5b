/**
 The live transcript: the size of every row and of the whole transcript is cached and kept up by
 increments. The specification functions below recount everything; each method is proved to answer as
 they do. Caches are keyed by value where the source keys them by object identity.
 */
module LiveTranscripts {
  import opened Utf16

  const MAX_ROWS := 500
  const MAX_BYTES := 8 * 1024 * 1024
  const MAX_STREAMING_BYTES := 1024 * 1024
  const STREAMING := "streaming"

  /** `rest` stands for the fields that are neither read nor changed here. */
  datatype ChatMessage = ChatMessage(id: string, status: string, rest: string, body: Text)

  /** The JSON length of a row with an empty body. */
  type Overhead = (string, string, string) -> nat

  datatype Reason = RowLimit | ByteLimit | StreamingLimit
  datatype Change = Accepted(messages: seq<ChatMessage>, windowed: bool) | Resync(reason: Reason)

  // ---- The recount -------------------------------------------------------------------------------

  function RowBytes(m: ChatMessage, overhead: Overhead): nat {
    overhead(m.id, m.status, m.rest) + JsonBytes(m.body) + 1
  }

  function Bytes(messages: seq<ChatMessage>, overhead: Overhead): nat {
    if messages == [] then 0 else RowBytes(messages[0], overhead) + Bytes(messages[1..], overhead)
  }

  predicate Fits(messages: seq<ChatMessage>, overhead: Overhead) {
    |messages| <= MAX_ROWS && Bytes(messages, overhead) <= MAX_BYTES
  }

  /** Rows are dropped from the front until the rest fits. */
  function LongestSuffix(messages: seq<ChatMessage>, overhead: Overhead): (r: seq<ChatMessage>)
    ensures Fits(r, overhead)
  {
    if messages == [] || Fits(messages, overhead) then messages else LongestSuffix(messages[1..], overhead)
  }

  predicate Holds(messages: seq<ChatMessage>, id: string) {
    exists i :: 0 <= i < |messages| && messages[i].id == id
  }

  function Windowed(messages: seq<ChatMessage>, keep: set<string>, overhead: Overhead): Change {
    var suffix := LongestSuffix(messages, overhead);
    if suffix != messages && exists id :: id in keep && !Holds(suffix, id) then
      Resync(if |messages| > MAX_ROWS then RowLimit else ByteLimit)
    else Accepted(suffix, suffix != messages)
  }

  function Appended(messages: seq<ChatMessage>, m: ChatMessage, overhead: Overhead): Change {
    if |messages| > MAX_ROWS then Resync(RowLimit)
    else if m.status == STREAMING && Utf8Bytes(m.body) > MAX_STREAMING_BYTES then Resync(StreamingLimit)
    else if RowBytes(m, overhead) > MAX_BYTES then Resync(ByteLimit)
    else Windowed(messages + [m], {m.id}, overhead)
  }

  function Replaced(messages: seq<ChatMessage>, index: nat, m: ChatMessage, enforce: bool, overhead: Overhead): Change {
    if |messages| > MAX_ROWS then Resync(RowLimit)
    else if index >= |messages| then Appended(messages, m, overhead)
    else if enforce && Utf8Bytes(m.body) > MAX_STREAMING_BYTES then Resync(StreamingLimit)
    else if RowBytes(m, overhead) > MAX_BYTES then Resync(ByteLimit)
    else if Bytes(messages[index := m], overhead) > MAX_BYTES then Windowed(messages[index := m], {m.id}, overhead)
    else Accepted(messages[index := m], false)
  }

  function IndexOf(messages: seq<ChatMessage>, id: string): (k: nat)
    ensures k <= |messages| && (k < |messages| ==> messages[k].id == id)
    ensures forall i :: 0 <= i < k ==> messages[i].id != id
  {
    if messages == [] || messages[0].id == id then 0 else 1 + IndexOf(messages[1..], id)
  }

  function Extended(messages: seq<ChatMessage>, id: string, delta: Text, overhead: Overhead): Change {
    var k := IndexOf(messages, id);
    if |messages| > MAX_ROWS then Resync(RowLimit)
    else if k == |messages| then Appended(messages, ChatMessage(id, STREAMING, "", delta), overhead)
    else
      var m := messages[k].(body := messages[k].body + delta, status := STREAMING);
      if Utf8Bytes(m.body) > MAX_STREAMING_BYTES then Resync(StreamingLimit)
      else if messages[k].status != STREAMING then Replaced(messages, k, m, true, overhead)
      else if Bytes(messages[k := m], overhead) > MAX_BYTES then Windowed(messages[k := m], {id}, overhead)
      else Accepted(messages[k := m], false)
  }

  function AllReplaced(messages: seq<ChatMessage>, replacements: seq<ChatMessage>, enforceFor: set<string>, overhead: Overhead): Change {
    if |messages| > MAX_ROWS then Resync(RowLimit)
    else if exists i :: 0 <= i < |replacements| && (replacements[i].status == STREAMING || replacements[i].id in enforceFor)
                        && Utf8Bytes(replacements[i].body) > MAX_STREAMING_BYTES then Resync(StreamingLimit)
    else if exists i :: 0 <= i < |replacements| && RowBytes(replacements[i], overhead) > MAX_BYTES then Resync(ByteLimit)
    else Windowed(replacements, enforceFor, overhead)
  }

  // ---- What the specification guarantees ---------------------------------------------------------

  lemma {:induction false} BytesAdd(a: seq<ChatMessage>, b: seq<ChatMessage>, overhead: Overhead)
    ensures Bytes(a + b, overhead) == Bytes(a, overhead) + Bytes(b, overhead)
  {
    if a == [] {
      assert a + b == b;
    } else {
      BytesAdd(a[1..], b, overhead);
      assert (a + b)[1..] == a[1..] + b;
    }
  }

  lemma BytesReplaced(messages: seq<ChatMessage>, k: nat, m: ChatMessage, overhead: Overhead)
    requires k < |messages|
    ensures Bytes(messages[k := m], overhead) + RowBytes(messages[k], overhead) == Bytes(messages, overhead) + RowBytes(m, overhead)
  {
    var before, after := messages[..k], messages[k + 1..];
    assert messages == before + ([messages[k]] + after) && messages[k := m] == before + ([m] + after);
    BytesAdd(before, [messages[k]] + after, overhead);
    BytesAdd(before, [m] + after, overhead);
    assert ([messages[k]] + after)[1..] == after && ([m] + after)[1..] == after;
  }

  /** The suffix kept is the longest one within both limits. */
  lemma {:induction false} SuffixIsLongest(messages: seq<ChatMessage>, overhead: Overhead, k: nat)
    requires k <= |messages| && Fits(messages[k..], overhead)
    ensures exists j :: 0 <= j <= k && LongestSuffix(messages, overhead) == messages[j..]
    decreases |messages|
  {
    if messages == [] || Fits(messages, overhead) {
      assert messages == messages[0..];
    } else {
      assert messages[0..] == messages;
      assert messages[1..][k - 1..] == messages[k..];
      SuffixIsLongest(messages[1..], overhead, k - 1);
      var j :| 0 <= j <= k - 1 && LongestSuffix(messages[1..], overhead) == messages[1..][j..];
      assert messages[1..][j..] == messages[j + 1..];
    }
  }

  /** Conversely, a suffix that fits while one row more does not is the one kept. */
  lemma {:induction false} SuffixFound(messages: seq<ChatMessage>, overhead: Overhead, k: nat)
    requires k <= |messages| && Fits(messages[k..], overhead)
    requires k > 0 ==> !Fits(messages[k - 1..], overhead)
    ensures LongestSuffix(messages, overhead) == messages[k..]
    decreases |messages|
  {
    if k == 0 {
      assert messages[0..] == messages;
    } else {
      LongerIsBigger(messages, overhead, k - 1);
      assert messages[1..][k - 1..] == messages[k..];
      if k > 1 { assert messages[1..][k - 2..] == messages[k - 1..]; }
      SuffixFound(messages[1..], overhead, k - 1);
    }
  }

  lemma LongerIsBigger(messages: seq<ChatMessage>, overhead: Overhead, k: nat)
    requires k <= |messages| && !Fits(messages[k..], overhead)
    ensures !Fits(messages, overhead)
  {
    BytesAdd(messages[..k], messages[k..], overhead);
    assert messages[..k] + messages[k..] == messages;
  }

  lemma WindowedWithinLimits(messages: seq<ChatMessage>, keep: set<string>, overhead: Overhead)
    ensures var change := Windowed(messages, keep, overhead);
      change.Accepted? ==> (
        && Fits(change.messages, overhead) && change.windowed == (change.messages != messages)
        && forall id :: id in keep && Holds(messages, id) ==> Holds(change.messages, id))
  {
  }

  /** Whatever a delta does, an accepted transcript is within both limits, still holds the
      row it is about, and that row's text is within the streaming limit. */
  lemma AcceptedWithinLimits(messages: seq<ChatMessage>, id: string, delta: Text, overhead: Overhead)
    ensures var change := Extended(messages, id, delta, overhead);
      var k := IndexOf(messages, id);
      change.Accepted? ==> (
        && Fits(change.messages, overhead) && Holds(change.messages, id)
        && Utf8Bytes((if k < |messages| then messages[k].body else []) + delta) <= MAX_STREAMING_BYTES)
  {
    hide Fits, LongestSuffix, Utf8Bytes, JsonBytes;
    var k := IndexOf(messages, id);
    if k < |messages| {
      var m := messages[k].(body := messages[k].body + delta, status := STREAMING);
      var next := messages[k := m];
      assert next[k].id == id;
      WindowedWithinLimits(next, {id}, overhead);
      if |messages| <= MAX_ROWS { BytesFit(next, overhead); }
    } else {
      var m := ChatMessage(id, STREAMING, "", delta);
      assert (messages + [m])[|messages|].id == id;
      WindowedWithinLimits(messages + [m], {id}, overhead);
      assert [] + delta == delta;
    }
  }

  lemma {:induction false} SuffixIs(messages: seq<ChatMessage>, overhead: Overhead)
    ensures var suffix := LongestSuffix(messages, overhead);
      |suffix| <= |messages| && suffix == messages[|messages| - |suffix|..]
    decreases |messages|
  {
    if messages != [] && !Fits(messages, overhead) {
      SuffixIs(messages[1..], overhead);
      var suffix := LongestSuffix(messages[1..], overhead);
      assert messages[1..][|messages| - 1 - |suffix|..] == messages[|messages| - |suffix|..];
    } else {
      assert messages[0..] == messages;
    }
  }

  /** A new row is accepted unless it breaks a limit by itself, and then it is the last one: older rows make
      room for it, so that the window never asks for a resync. */
  lemma AppendedExactly(messages: seq<ChatMessage>, m: ChatMessage, overhead: Overhead)
    ensures var change := Appended(messages, m, overhead);
      && (change.Accepted? <==> |messages| <= MAX_ROWS && RowBytes(m, overhead) <= MAX_BYTES
                                && (m.status == STREAMING ==> Utf8Bytes(m.body) <= MAX_STREAMING_BYTES))
      && (change.Accepted? ==> Fits(change.messages, overhead) && change.messages != [] && change.messages[|change.messages| - 1] == m)
  {
    hide LongestSuffix, RowBytes, Utf8Bytes;
    var next := messages + [m];
    if RowBytes(m, overhead) <= MAX_BYTES {
      assert next[|messages|..] == [m] && [m][1..] == [];
      SuffixIsLongest(next, overhead, |messages|);
      SuffixIs(next, overhead);
      var suffix := LongestSuffix(next, overhead);
      assert suffix[|suffix| - 1] == m;
      assert Holds(suffix, m.id);
    }
  }

  /** The same limits after one row is replaced; the row stays. */
  lemma ReplacedWithinLimits(messages: seq<ChatMessage>, index: nat, m: ChatMessage, enforce: bool, overhead: Overhead)
    requires index < |messages|
    ensures var change := Replaced(messages, index, m, enforce, overhead);
      change.Accepted? ==> (
        && Fits(change.messages, overhead) && Holds(change.messages, m.id)
        && (enforce ==> Utf8Bytes(m.body) <= MAX_STREAMING_BYTES))
  {
    hide LongestSuffix, RowBytes, Utf8Bytes;
    var next := messages[index := m];
    assert next[index].id == m.id;
    WindowedWithinLimits(next, {m.id}, overhead);
    if |messages| <= MAX_ROWS { BytesFit(next, overhead); }
  }

  /** And after all rows are: none of the rows to preserve is lost, and no row that is streaming, or is to
      be preserved, is over the streaming limit. */
  lemma AllReplacedWithinLimits(
      messages: seq<ChatMessage>, replacements: seq<ChatMessage>, enforceFor: set<string>, overhead: Overhead)
    ensures var change := AllReplaced(messages, replacements, enforceFor, overhead);
      change.Accepted? ==> (
        && Fits(change.messages, overhead) && change.windowed == (change.messages != replacements)
        && (forall id :: id in enforceFor && Holds(replacements, id) ==> Holds(change.messages, id))
        && (forall m :: m in change.messages && (m.status == STREAMING || m.id in enforceFor) ==>
              Utf8Bytes(m.body) <= MAX_STREAMING_BYTES))
  {
    hide LongestSuffix, RowBytes, Utf8Bytes, Fits, Holds;
    WindowedWithinLimits(replacements, enforceFor, overhead);
    SuffixIs(replacements, overhead);
  }

  lemma BytesFit(messages: seq<ChatMessage>, overhead: Overhead)
    requires |messages| <= MAX_ROWS
    ensures Bytes(messages, overhead) <= MAX_BYTES ==> Fits(messages, overhead)
  {
  }

  // ---- What an edit leaves -----------------------------------------------------------------------

  /** The newest rows that fit, and how many are left out. */
  ghost predicate NewestFrom(rows: seq<ChatMessage>, j: nat, kept: seq<ChatMessage>, overhead: Overhead) {
    j <= |rows| && kept == rows[j..] && Fits(kept, overhead) && (j > 0 ==> !Fits(rows[j - 1..], overhead))
  }

  /** A row with this id is still among the newest that fit. */
  ghost predicate Reaches(rows: seq<ChatMessage>, id: string, overhead: Overhead) {
    exists i :: 0 <= i < |rows| && rows[i].id == id && Fits(rows[i..], overhead)
  }

  /** The rows are accepted as the newest ones that fit, unless one to be preserved would go. */
  ghost predicate Windows(change: Change, rows: seq<ChatMessage>, keep: set<string>, overhead: Overhead) {
    if Fits(rows, overhead) || forall id :: id in keep ==> Reaches(rows, id, overhead) then
      change.Accepted? && exists j: nat :: NewestFrom(rows, j, change.messages, overhead) && change.windowed == (j > 0)
    else change == Resync(if |rows| > MAX_ROWS then RowLimit else ByteLimit)
  }

  lemma SuffixNewest(rows: seq<ChatMessage>, overhead: Overhead)
    ensures var suffix := LongestSuffix(rows, overhead);
      |suffix| <= |rows| && NewestFrom(rows, |rows| - |suffix|, suffix, overhead)
  {
    SuffixIs(rows, overhead);
    var j := |rows| - |LongestSuffix(rows, overhead)|;
    if j > 0 && Fits(rows[j - 1..], overhead) { SuffixIsLongest(rows, overhead, j - 1); }
  }

  lemma ShorterFits(rows: seq<ChatMessage>, j: nat, i: nat, overhead: Overhead)
    requires j <= i <= |rows| && Fits(rows[j..], overhead)
    ensures Fits(rows[i..], overhead)
  {
    assert rows[j..][i - j..] == rows[i..];
    if !Fits(rows[i..], overhead) { LongerIsBigger(rows[j..], overhead, i - j); }
  }

  lemma HoldsReaches(rows: seq<ChatMessage>, id: string, overhead: Overhead)
    ensures Holds(LongestSuffix(rows, overhead), id) <==> Reaches(rows, id, overhead)
  {
    var suffix := LongestSuffix(rows, overhead);
    SuffixNewest(rows, overhead);
    var j := |rows| - |suffix|;
    if Holds(suffix, id) {
      var i :| 0 <= i < |suffix| && suffix[i].id == id;
      ShorterFits(rows, j, j + i, overhead);
      assert rows[j + i].id == id;
    }
    if Reaches(rows, id, overhead) {
      var i :| 0 <= i < |rows| && rows[i].id == id && Fits(rows[i..], overhead);
      if i < j { ShorterFits(rows, i, j - 1, overhead); }
      assert suffix[i - j].id == id;
    }
  }

  lemma WindowedExactly(rows: seq<ChatMessage>, keep: set<string>, overhead: Overhead)
    ensures Windows(Windowed(rows, keep, overhead), rows, keep, overhead)
  {
    var suffix := LongestSuffix(rows, overhead);
    SuffixNewest(rows, overhead);
    forall id ensures Holds(suffix, id) <==> Reaches(rows, id, overhead) { HoldsReaches(rows, id, overhead); }
    assert rows[0..] == rows;
    if Fits(rows, overhead) { SuffixFound(rows, overhead, 0); }
    hide LongestSuffix, Fits, Holds;
    assert suffix == rows <==> |suffix| == |rows|;
  }

  /** A delta is appended to the body of the row it is for, the first with that id, or to a new row at the end. */
  function WithDelta(messages: seq<ChatMessage>, id: string, delta: Text): (rows: seq<ChatMessage>) {
    var k := IndexOf(messages, id);
    if k == |messages| then messages + [ChatMessage(id, STREAMING, "", delta)]
    else messages[k := messages[k].(body := messages[k].body + delta, status := STREAMING)]
  }

  lemma DeltaIs(messages: seq<ChatMessage>, id: string, delta: Text)
    ensures var rows := WithDelta(messages, id, delta);
      if exists i :: 0 <= i < |messages| && messages[i].id == id then
        && |rows| == |messages|
        && exists k :: 0 <= k < |messages| && messages[k].id == id && (forall i :: 0 <= i < k ==> messages[i].id != id)
             && rows[k] == ChatMessage(id, STREAMING, messages[k].rest, messages[k].body + delta)
             && forall i :: 0 <= i < |messages| && i != k ==> rows[i] == messages[i]
      else rows == messages + [ChatMessage(id, STREAMING, "", delta)]
  {
  }

  lemma AppendedWindows(messages: seq<ChatMessage>, m: ChatMessage, overhead: Overhead)
    requires |messages| <= MAX_ROWS && RowBytes(m, overhead) <= MAX_BYTES
    requires m.status == STREAMING ==> Utf8Bytes(m.body) <= MAX_STREAMING_BYTES
    ensures Windows(Appended(messages, m, overhead), messages + [m], {m.id}, overhead)
  {
    WindowedExactly(messages + [m], {m.id}, overhead);
    hide Windowed, Windows;
  }

  lemma RewrittenWindows(messages: seq<ChatMessage>, index: nat, m: ChatMessage, change: Change, overhead: Overhead)
    requires index < |messages| <= MAX_ROWS
    requires change == if Bytes(messages[index := m], overhead) > MAX_BYTES
                       then Windowed(messages[index := m], {m.id}, overhead) else Accepted(messages[index := m], false)
    ensures Windows(change, messages[index := m], {m.id}, overhead)
  {
    var rows := messages[index := m];
    WindowedExactly(rows, {m.id}, overhead);
    BytesFit(rows, overhead);
    assert rows[0..] == rows;
    hide Windowed, Bytes, Reaches;
    assert Fits(rows, overhead) ==> NewestFrom(rows, 0, rows, overhead);
  }

  /** Within the limits a row has by itself, the rows with it replaced are the newest that fit. */
  lemma ReplacedExactly(messages: seq<ChatMessage>, index: nat, m: ChatMessage, enforce: bool, overhead: Overhead)
    requires |messages| <= MAX_ROWS && RowBytes(m, overhead) <= MAX_BYTES
    requires enforce || m.status == STREAMING ==> Utf8Bytes(m.body) <= MAX_STREAMING_BYTES
    ensures var rows := if index < |messages| then messages[index := m] else messages + [m];
      Windows(Replaced(messages, index, m, enforce, overhead), rows, {m.id}, overhead)
  {
    hide Windowed, Windows, Utf8Bytes, RowBytes, Appended;
    if index < |messages| {
      RewrittenWindows(messages, index, m, Replaced(messages, index, m, enforce, overhead), overhead);
    } else {
      AppendedWindows(messages, m, overhead);
    }
  }

  /** The same for a delta: the row it is for carries its old body and the delta, every other row is as it was. */
  lemma ExtendedExactly(messages: seq<ChatMessage>, id: string, delta: Text, overhead: Overhead)
    requires |messages| <= MAX_ROWS
    ensures var rows, k := WithDelta(messages, id, delta), IndexOf(messages, id);
      var change := Extended(messages, id, delta, overhead);
      && |rows| > k && (Utf8Bytes(rows[k].body) > MAX_STREAMING_BYTES ==> change == Resync(StreamingLimit))
      && (Utf8Bytes(rows[k].body) <= MAX_STREAMING_BYTES && RowBytes(rows[k], overhead) <= MAX_BYTES ==>
            Windows(change, rows, {id}, overhead))
  {
    hide Windowed, Windows, Utf8Bytes, RowBytes, Bytes;
    var rows, k := WithDelta(messages, id, delta), IndexOf(messages, id);
    if Utf8Bytes(rows[k].body) <= MAX_STREAMING_BYTES && RowBytes(rows[k], overhead) <= MAX_BYTES {
      if k < |messages| && messages[k].status == STREAMING {
        RewrittenWindows(messages, k, rows[k], Extended(messages, id, delta, overhead), overhead);
      } else {
        ReplacedExactly(messages, k, rows[k], true, overhead);
      }
    }
  }

  /** And for all rows at once. */
  lemma AllReplacedExactly(
      messages: seq<ChatMessage>, replacements: seq<ChatMessage>, enforceFor: set<string>, overhead: Overhead)
    requires |messages| <= MAX_ROWS
    requires forall m :: m in replacements ==> RowBytes(m, overhead) <= MAX_BYTES
    requires forall m :: m in replacements && (m.status == STREAMING || m.id in enforceFor) ==> Utf8Bytes(m.body) <= MAX_STREAMING_BYTES
    ensures Windows(AllReplaced(messages, replacements, enforceFor, overhead), replacements, enforceFor, overhead)
  {
    WindowedExactly(replacements, enforceFor, overhead);
    hide Windowed, Windows, Utf8Bytes, RowBytes;
    assert forall i :: 0 <= i < |replacements| ==> replacements[i] in replacements;
  }

  // ---- The cached form ---------------------------------------------------------------------------

  class LiveTranscript {
    const overhead: Overhead
    var messageBytes: map<ChatMessage, nat>
    var bodyBytes: map<ChatMessage, nat>
    var transcriptBytes: map<seq<ChatMessage>, nat>

    /** Every cached size is the one a recount gives. */
    ghost predicate Valid()
      reads this
    {
      && (forall m :: m in messageBytes ==> messageBytes[m] == RowBytes(m, overhead))
      && (forall m :: m in bodyBytes ==> bodyBytes[m] == Utf8Bytes(m.body))
      && (forall ms :: ms in transcriptBytes ==> transcriptBytes[ms] == Bytes(ms, overhead))
    }

    constructor (overhead: Overhead)
      ensures Valid() && this.overhead == overhead
    {
      this.overhead, messageBytes, bodyBytes, transcriptBytes := overhead, map[], map[], map[];
    }

    method ChatMessageBytes(m: ChatMessage) returns (bytes: nat)
      requires Valid()
      modifies this`messageBytes
      ensures Valid() && bytes == RowBytes(m, overhead)
    {
      if m in messageBytes { return messageBytes[m]; }
      bytes := RowBytes(m, overhead);
      messageBytes := messageBytes[m := bytes];
    }

    method Utf8BodyBytes(m: ChatMessage) returns (bytes: nat)
      requires Valid()
      modifies this`bodyBytes
      ensures Valid() && bytes == Utf8Bytes(m.body)
    {
      if m in bodyBytes { return bodyBytes[m]; }
      bytes := Utf8Bytes(m.body);
      bodyBytes := bodyBytes[m := bytes];
    }

    method ChatTranscriptBytes(messages: seq<ChatMessage>) returns (bytes: nat)
      requires Valid()
      modifies this`messageBytes, this`transcriptBytes
      ensures Valid() && bytes == Bytes(messages, overhead)
    {
      if messages in transcriptBytes { return transcriptBytes[messages]; }
      bytes := 0;
      for i := 0 to |messages|
        invariant Valid() && transcriptBytes == old(transcriptBytes) && bytes == Bytes(messages[..i], overhead)
      {
        var row := ChatMessageBytes(messages[i]);
        BytesAdd(messages[..i], [messages[i]], overhead);
        assert messages[..i + 1] == messages[..i] + [messages[i]] && [messages[i]][1..] == [];
        bytes := bytes + row;
      }
      assert messages[..|messages|] == messages;
      transcriptBytes := transcriptBytes[messages := bytes];
    }

    method BoundedTranscriptSuffix(messages: seq<ChatMessage>) returns (bounded: seq<ChatMessage>, truncated: bool)
      requires Valid()
      modifies this
      ensures Valid() && bounded == LongestSuffix(messages, overhead) && truncated == (bounded != messages)
    {
      hide LongestSuffix, RowBytes;
      assert messages[0..] == messages;
      if |messages| <= MAX_ROWS {
        var whole := ChatTranscriptBytes(messages);
        if whole <= MAX_BYTES {
          SuffixFound(messages, overhead, 0);
          return messages, false;
        }
      }
      var k, bytes := |messages|, 0;
      assert messages[k..] == [];
      var full := false;
      while k > 0 && !full
        invariant Valid() && 0 <= k <= |messages| && bytes == Bytes(messages[k..], overhead)
        invariant Fits(messages[k..], overhead) && (full ==> k > 0 && !Fits(messages[k - 1..], overhead))
        decreases k, !full
      {
        var row := ChatMessageBytes(messages[k - 1]);
        assert messages[k - 1..] == [messages[k - 1]] + messages[k..];
        if |messages| - k >= MAX_ROWS || bytes + row > MAX_BYTES {
          full := true;
        } else {
          k, bytes := k - 1, bytes + row;
        }
      }
      SuffixFound(messages, overhead, k);
      bounded, truncated := messages[k..], true;
      transcriptBytes := transcriptBytes[bounded := bytes];
    }

    method NewestWindow(messages: seq<ChatMessage>, keep: set<string>) returns (change: Change)
      requires Valid()
      modifies this
      ensures Valid() && change == Windowed(messages, keep, overhead)
    {
      hide LongestSuffix;
      var bounded, truncated := BoundedTranscriptSuffix(messages);
      if truncated && exists id :: id in keep && !Holds(bounded, id) {
        return Resync(if |messages| > MAX_ROWS then RowLimit else ByteLimit);
      }
      return Accepted(bounded, truncated);
    }

    method AppendLiveMessage(messages: seq<ChatMessage>, m: ChatMessage) returns (change: Change)
      requires Valid()
      modifies this
      ensures Valid() && change == Appended(messages, m, overhead)
    {
      hide Windowed, RowBytes, Utf8Bytes;
      if |messages| > MAX_ROWS { return Resync(RowLimit); }
      if m.status == STREAMING {
        var body := Utf8BodyBytes(m);
        if body > MAX_STREAMING_BYTES { return Resync(StreamingLimit); }
      }
      var row := ChatMessageBytes(m);
      if row > MAX_BYTES { return Resync(ByteLimit); }
      change := NewestWindow(messages + [m], {m.id});
    }

    method ReplaceLiveMessage(messages: seq<ChatMessage>, index: nat, m: ChatMessage, enforce: bool) returns (change: Change)
      requires Valid()
      modifies this
      ensures Valid() && change == Replaced(messages, index, m, enforce, overhead)
    {
      hide Windowed, RowBytes, Utf8Bytes, Appended;
      if |messages| > MAX_ROWS { return Resync(RowLimit); }
      if index >= |messages| {
        change := AppendLiveMessage(messages, m);
        return;
      }
      if enforce {
        var body := Utf8BodyBytes(m);
        if body > MAX_STREAMING_BYTES { return Resync(StreamingLimit); }
      }
      var row := ChatMessageBytes(m);
      if row > MAX_BYTES { return Resync(ByteLimit); }
      var total := ChatTranscriptBytes(messages);
      var current := ChatMessageBytes(messages[index]);
      BytesReplaced(messages, index, m, overhead);
      var nextBytes := total - current + row;
      var next := messages[index := m];
      if nextBytes > MAX_BYTES {
        change := NewestWindow(next, {m.id});
        return;
      }
      transcriptBytes := transcriptBytes[next := nextBytes];
      return Accepted(next, false);
    }

    /** The rows after a delta are weighed by what the delta adds, a joined surrogate pair included. */
    method AppendLiveDelta(messages: seq<ChatMessage>, id: string, delta: Text) returns (change: Change)
      requires Valid()
      modifies this
      ensures Valid() && change == Extended(messages, id, delta, overhead)
    {
      hide Windowed, RowBytes, Utf8Bytes, JsonBytes, Appended, Replaced;
      if |messages| > MAX_ROWS { return Resync(RowLimit); }
      var index := FindIndex(messages, id);
      if index == |messages| {
        change := AppendLiveMessage(messages, ChatMessage(id, STREAMING, "", delta));
        return;
      }
      var current := messages[index];
      var replacement := current.(body := current.body + delta, status := STREAMING);
      AppendedBytes(current.body, delta);
      var joins := JoinsPair(current.body, delta);
      var currentBody := Utf8BodyBytes(current);
      var nextBodyBytes := currentBody + Utf8Bytes(delta) - if joins then 2 else 0;
      if nextBodyBytes > MAX_STREAMING_BYTES { return Resync(StreamingLimit); }
      if current.status != STREAMING {
        change := ReplaceLiveMessage(messages, index, replacement, true);
        return;
      }
      change := ExtendStreaming(messages, index, delta, replacement, nextBodyBytes);
    }

    method ExtendStreaming(messages: seq<ChatMessage>, index: nat, delta: Text, replacement: ChatMessage, nextBodyBytes: nat)
      returns (change: Change)
      requires Valid() && index < |messages| && messages[index].status == STREAMING
      requires replacement == messages[index].(body := messages[index].body + delta)
      requires nextBodyBytes == Utf8Bytes(replacement.body)
      modifies this
      ensures Valid()
      ensures change == if Bytes(messages[index := replacement], overhead) > MAX_BYTES
                        then Windowed(messages[index := replacement], {replacement.id}, overhead)
                        else Accepted(messages[index := replacement], false)
    {
      hide Windowed, Utf8Bytes, JsonBytes, Bytes;
      var current := messages[index];
      AppendedBytes(current.body, delta);
      BytesReplaced(messages, index, replacement, overhead);
      var suffixBytes := JsonStringContentBytes(delta);
      var added := suffixBytes as int - if JoinsPair(current.body, delta) then 8 else 0;
      var total := ChatTranscriptBytes(messages);
      var row := ChatMessageBytes(current);
      bodyBytes := bodyBytes[replacement := nextBodyBytes];
      messageBytes := messageBytes[replacement := row + added];
      var next := messages[index := replacement];
      if total + added > MAX_BYTES {
        change := NewestWindow(next, {replacement.id});
        return;
      }
      transcriptBytes := transcriptBytes[next := total + added];
      return Accepted(next, false);
    }

    method FindIndex(messages: seq<ChatMessage>, id: string) returns (index: nat)
      ensures index == IndexOf(messages, id)
    {
      index := 0;
      assert messages[0..] == messages;
      while index < |messages| && messages[index].id != id
        invariant index <= |messages| && IndexOf(messages, id) == index + IndexOf(messages[index..], id)
      {
        assert messages[index..][1..] == messages[index + 1..];
        index := index + 1;
      }
    }

    method ReplaceLiveMessages(messages: seq<ChatMessage>, replacements: seq<ChatMessage>, enforceFor: set<string>)
      returns (change: Change)
      requires Valid()
      modifies this
      ensures Valid() && change == AllReplaced(messages, replacements, enforceFor, overhead)
    {
      hide Windowed, RowBytes, Utf8Bytes;
      if |messages| > MAX_ROWS { return Resync(RowLimit); }
      for i := 0 to |replacements|
        invariant Valid()
        invariant forall j :: 0 <= j < i && (replacements[j].status == STREAMING || replacements[j].id in enforceFor) ==>
          Utf8Bytes(replacements[j].body) <= MAX_STREAMING_BYTES
      {
        if replacements[i].status == STREAMING || replacements[i].id in enforceFor {
          var body := Utf8BodyBytes(replacements[i]);
          if body > MAX_STREAMING_BYTES { return Resync(StreamingLimit); }
        }
      }
      for i := 0 to |replacements|
        invariant Valid()
        invariant forall j :: 0 <= j < i ==> RowBytes(replacements[j], overhead) <= MAX_BYTES
      {
        var row := ChatMessageBytes(replacements[i]);
        if row > MAX_BYTES { return Resync(ByteLimit); }
      }
      change := NewestWindow(replacements, enforceFor);
    }
  }
}
