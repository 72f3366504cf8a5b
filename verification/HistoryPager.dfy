/**
 Bounded backwards paging over a session's history. `FitPage` is the loop that fills one page from the
 newest row backwards; the lemmas follow it over a history whose rows below `end` do not change.
 The JSON lengths of a message and of a page are parameters.
 */
module HistoryPager {
  import opened Outcomes
  import opened HistoryCursors

  datatype Message = Message(index: nat, body: string)
  datatype Row = Readable(body: string) | Unreadable

  /** What the upstream answers for one slice of the history. */
  datatype Fetched = Fetched(messages: seq<Message>, offset: nat, limit: nat, returned: nat, dropped: nat)

  datatype Reason = PageLimit | MessageLimit | ByteLimit | InvalidRows

  datatype Page = Page(
    messages: seq<Message>, offset: nat, hasMore: bool, next: Option<CursorState>, limitedByBytes: bool,
    reason: Option<Reason>, partial: bool, pages: nat, loaded: nat, bytes: nat, start: nat, end: nat)

  /** A page, or one of the thrown errors. */
  datatype Served = Served(page: Page) | MessageOversized | MetadataOversized | HistoryChanged

  datatype Sizes = Sizes(message: Message -> nat, page: Page -> nat, maxResponseBytes: nat)

  // ---- Reading the upstream ----------------------------------------------------------------------

  /** Unreadable rows are left out; the others keep their position as index. */
  function Normalized(rows: seq<Row>, from: nat): seq<Message> {
    if rows == [] then []
    else (if rows[0].Readable? then [Message(from, rows[0].body)] else []) + Normalized(rows[1..], from + 1)
  }

  function Window(rows: seq<Row>, from: nat, to: nat): seq<Message>
    requires from <= to <= |rows|
  {
    Normalized(rows[from..to], from)
  }

  function Upstream(rows: seq<Row>, from: nat, to: nat): Fetched
    requires from <= to <= |rows|
  {
    NormalizedShape(rows[from..to], from);
    Fetched(Window(rows, from, to), from, to - from, to - from, to - from - |Window(rows, from, to)|)
  }

  predicate AllReadable(rows: seq<Row>, from: nat, to: nat) {
    from <= to <= |rows| && forall i :: from <= i < to ==> rows[i].Readable?
  }

  lemma {:induction false} NormalizedShape(rows: seq<Row>, from: nat)
    ensures var ms := Normalized(rows, from);
      && |ms| <= |rows| && (|ms| == |rows| <==> forall i :: 0 <= i < |rows| ==> rows[i].Readable?)
      && (forall i :: 0 <= i < |ms| ==> from <= ms[i].index < from + |rows|)
      && (forall i, j :: 0 <= i < j < |ms| ==> ms[i].index < ms[j].index)
  {
    if rows != [] {
      NormalizedShape(rows[1..], from + 1);
      if rows[0].Readable? {
        assert (forall i :: 0 <= i < |rows[1..]| ==> rows[1..][i].Readable?) ==>
          forall i :: 1 <= i < |rows| ==> rows[1..][i - 1] == rows[i];
      }
      if forall i :: 0 <= i < |rows| ==> rows[i].Readable? {
        assert forall i :: 0 <= i < |rows[1..]| ==> rows[1..][i] == rows[i + 1];
      }
    }
  }

  /** The rest of a normalized slice from one of its messages on is the slice that begins there. */
  lemma {:induction false} NormalizedFrom(rows: seq<Row>, from: nat, k: nat)
    requires k < |Normalized(rows, from)|
    ensures var at := Normalized(rows, from)[k].index;
      from <= at < from + |rows| && Normalized(rows, from)[k..] == Normalized(rows[at - from..], at)
  {
    NormalizedShape(rows, from);
    var ms := Normalized(rows, from);
    if rows[0].Readable? && k == 0 {
      assert rows[0..] == rows;
    } else {
      var k' := if rows[0].Readable? then k - 1 else k;
      NormalizedFrom(rows[1..], from + 1, k');
      var at := ms[k].index;
      assert rows[1..][at - from - 1..] == rows[at - from..];
      assert ms[k..] == Normalized(rows[1..], from + 1)[k'..];
    }
  }

  lemma {:induction false} NormalizedSplit(a: seq<Row>, b: seq<Row>, from: nat)
    ensures Normalized(a + b, from) == Normalized(a, from) + Normalized(b, from + |a|)
  {
    if a == [] {
      assert a + b == b;
    } else {
      NormalizedSplit(a[1..], b, from + 1);
      assert (a + b)[1..] == a[1..] + b;
    }
  }

  lemma WindowSplit(rows: seq<Row>, a: nat, b: nat, c: nat)
    requires a <= b <= c <= |rows|
    ensures Window(rows, a, c) == Window(rows, a, b) + Window(rows, b, c)
  {
    NormalizedSplit(rows[a..b], rows[b..c], a);
    assert rows[a..b] + rows[b..c] == rows[a..c];
  }

  lemma WindowFrom(rows: seq<Row>, from: nat, to: nat, k: nat)
    requires from <= to <= |rows| && k < |Window(rows, from, to)|
    ensures var at := Window(rows, from, to)[k].index;
      from <= at < to && Window(rows, from, to)[k..] == Window(rows, at, to)
  {
    NormalizedFrom(rows[from..to], from, k);
    var at := Window(rows, from, to)[k].index;
    assert rows[from..to][at - from..] == rows[at..to];
  }

  // ---- One page ----------------------------------------------------------------------------------

  /** The sum of the messages' JSON lengths, each with its separator. */
  function Weight(messages: seq<Message>, size: Message -> nat): nat {
    if messages == [] then 0 else size(messages[0]) + 1 + Weight(messages[1..], size)
  }

  function TerminalReason(c: CursorState): Option<Reason> {
    if c.start > 0 then Some(MessageLimit) else None
  }

  function MakePage(h: Fetched, messages: seq<Message>, c: CursorState, nextOffset: nat, added: nat, hasMore: bool,
                    limitedByBytes: bool, reason: Option<Reason>): Page
  {
    var loaded := c.messages + |messages|;
    Page(messages, h.offset, hasMore,
         if hasMore then Some(c.(offset := nextOffset, pages := c.pages + 1, messages := loaded, bytes := c.bytes + added)) else None,
         limitedByBytes, reason, reason == Some(InvalidRows) || (reason.Some? && loaded > 0),
         c.pages + 1, loaded, c.bytes + added, c.start, c.end)
  }

  /** The page that would hold the messages from k on, as the loop weighs it. */
  function Candidate(h: Fetched, c: CursorState, sizes: Sizes, k: nat): Page
    requires k < |h.messages|
  {
    var more := h.messages[k].index > c.start;
    var reason := if h.dropped > 0 then Some(InvalidRows) else if more then None else TerminalReason(c);
    MakePage(h, h.messages[k..], c, h.messages[k].index, Weight(h.messages[k..], sizes.message), more && h.dropped == 0, false, reason)
  }

  /** Message k may join the newer ones already kept. */
  predicate Joins(h: Fetched, c: CursorState, l: Limits, sizes: Sizes, k: nat)
    requires k < |h.messages|
  {
    && c.messages + (|h.messages| - k - 1) < l.maxMessages
    && c.bytes + Weight(h.messages[k..], sizes.message) <= l.maxBytes
    && sizes.page(Candidate(h, c, sizes, k)) <= sizes.maxResponseBytes
  }

  /** The loop stops at k: everything from k on joined, and the message before it does not. */
  ghost predicate StopsAt(h: Fetched, c: CursorState, l: Limits, sizes: Sizes, k: nat) {
    && k <= |h.messages| && (forall i :: k <= i < |h.messages| ==> Joins(h, c, l, sizes, i))
    && (k > 0 ==> !Joins(h, c, l, sizes, k - 1))
  }

  /** Where the loop stops when it goes on below n. */
  function StopFrom(h: Fetched, c: CursorState, l: Limits, sizes: Sizes, n: nat): (k: nat)
    requires n <= |h.messages|
    ensures k <= n && forall i :: k <= i < n ==> Joins(h, c, l, sizes, i)
    ensures k > 0 ==> !Joins(h, c, l, sizes, k - 1)
  {
    if n > 0 && Joins(h, c, l, sizes, n - 1) then StopFrom(h, c, l, sizes, n - 1) else n
  }

  function Stop(h: Fetched, c: CursorState, l: Limits, sizes: Sizes): (k: nat)
    ensures k <= |h.messages| && StopsAt(h, c, l, sizes, k)
  {
    StopFrom(h, c, l, sizes, |h.messages|)
  }

  /** Why the loop stopped, when an aggregate budget was the cause. */
  function StopReason(h: Fetched, c: CursorState, l: Limits, sizes: Sizes, k: nat): Option<Reason>
    requires k <= |h.messages|
  {
    if k == 0 then None
    else if c.messages + (|h.messages| - k) >= l.maxMessages then Some(MessageLimit)
    else if c.bytes + Weight(h.messages[k - 1..], sizes.message) > l.maxBytes then Some(ByteLimit)
    else None
  }

  function BudgetReason(c: CursorState, l: Limits, more: bool, loaded: nat, bytes: nat, stop: Option<Reason>): Option<Reason> {
    if stop.Some? then stop
    else if !more then TerminalReason(c)
    else if c.pages + 1 >= l.maxPages then Some(PageLimit)
    else if loaded >= l.maxMessages then Some(MessageLimit)
    else if bytes >= l.maxBytes then Some(ByteLimit)
    else None
  }

  /** The page that holds the messages from k on. */
  function PageFrom(h: Fetched, c: CursorState, l: Limits, sizes: Sizes, k: nat): Served
    requires k <= |h.messages|
  {
    var messages := h.messages[k..];
    var added := Weight(messages, sizes.message);
    var stop := StopReason(h, c, l, sizes, k);
    var nextOffset := if messages == [] then c.offset else messages[0].index;
    var more := nextOffset > c.start;
    var budget := BudgetReason(c, l, more, c.messages + |messages|, c.bytes + added, stop);
    var reason := if h.dropped > 0 then Some(InvalidRows) else budget;
    if messages == [] && h.messages != [] && (c.offset > c.start || (reason.Some? && c.messages == 0)) then MessageOversized
    else
      var page := MakePage(h, messages, c, nextOffset, added, more && reason.None?, k > 0 && stop.None?, reason);
      if sizes.page(page) > sizes.maxResponseBytes then MetadataOversized else Served(page)
  }

  lemma NoWeight(size: Message -> nat)
    ensures Weight([], size) == 0
  {
  }

  /** What the loop weighs when it looks at the message before the ones it has. */
  lemma Weighed(h: Fetched, c: CursorState, l: Limits, sizes: Sizes, n: nat)
    requires 0 < n <= |h.messages|
    ensures h.messages[n - 1..] == [h.messages[n - 1]] + h.messages[n..]
    ensures var weight := Weight(h.messages[n..], sizes.message) + (sizes.message(h.messages[n - 1]) + 1);
      && Weight(h.messages[n - 1..], sizes.message) == weight
      && (Joins(h, c, l, sizes, n - 1) <==>
            && c.messages + |h.messages[n..]| < l.maxMessages && c.bytes + weight <= l.maxBytes
            && sizes.page(Candidate(h, c, sizes, n - 1)) <= sizes.maxResponseBytes)
  {
    hide Candidate;
    assert h.messages[n - 1..] == [h.messages[n - 1]] + h.messages[n..];
  }

  /** The loop of FitPage: takes messages from the newest on while they fit. */
  method TakeNewest(h: Fetched, c: CursorState, l: Limits, sizes: Sizes)
    returns (messages: seq<Message>, addedBytes: nat, budgetReason: Option<Reason>)
    ensures var k := Stop(h, c, l, sizes);
      && messages == h.messages[k..] && addedBytes == Weight(messages, sizes.message)
      && budgetReason == StopReason(h, c, l, sizes, k)
  {
    hide StopsAt, Joins, MakePage, Weight;
    messages, addedBytes, budgetReason := [], 0, None;
    var index := |h.messages|;
    assert h.messages[index..] == [];
    NoWeight(sizes.message);
    ghost var stop := Stop(h, c, l, sizes);
    var done := false;
    while index > 0 && !done
      invariant 0 <= index <= |h.messages| && messages == h.messages[index..]
      invariant addedBytes == Weight(messages, sizes.message)
      invariant stop == StopFrom(h, c, l, sizes, index)
      invariant !done ==> budgetReason == None
      invariant done ==> index > 0 && !Joins(h, c, l, sizes, index - 1) && budgetReason == StopReason(h, c, l, sizes, index)
      decreases index, !done
    {
      var message := h.messages[index - 1];
      Weighed(h, c, l, sizes, index);
      if c.messages + |messages| >= l.maxMessages {
        budgetReason := Some(MessageLimit);
        done := true;
      } else if c.bytes + addedBytes + (sizes.message(message) + 1) > l.maxBytes {
        budgetReason := Some(ByteLimit);
        done := true;
      } else {
        var candidateBytes := addedBytes + (sizes.message(message) + 1);
        var candidateHasMore := message.index > c.start;
        var candidateReason := if h.dropped > 0 then Some(InvalidRows) else if candidateHasMore then None else TerminalReason(c);
        var candidate := MakePage(h, [message] + messages, c, message.index, candidateBytes,
                                  candidateHasMore && h.dropped == 0, false, candidateReason);
        if sizes.page(candidate) > sizes.maxResponseBytes {
          done := true;
        } else {
          messages, addedBytes, index := [message] + messages, candidateBytes, index - 1;
        }
      }
    }
  }

  /** The reason a page carries, once the loop is over. */
  method DecideReason(c: CursorState, l: Limits, moreAvailable: bool, loaded: nat, bytes: nat, stop: Option<Reason>)
    returns (budgetReason: Option<Reason>)
    ensures budgetReason == BudgetReason(c, l, moreAvailable, loaded, bytes, stop)
  {
    budgetReason := stop;
    if moreAvailable && budgetReason.None? {
      if c.pages + 1 >= l.maxPages { budgetReason := Some(PageLimit); }
      else if loaded >= l.maxMessages { budgetReason := Some(MessageLimit); }
      else if bytes >= l.maxBytes { budgetReason := Some(ByteLimit); }
    }
    if !moreAvailable && budgetReason.None? { budgetReason := TerminalReason(c); }
  }

  method FitPage(h: Fetched, c: CursorState, l: Limits, sizes: Sizes) returns (served: Served)
    ensures served == PageFrom(h, c, l, sizes, Stop(h, c, l, sizes))
  {
    hide StopsAt, Joins, Stop, MakePage, Weight, BudgetReason;
    var messages, addedBytes, budgetReason := TakeNewest(h, c, l, sizes);
    var pageLimitedByBytes := |messages| < |h.messages| && budgetReason.None?;
    var nextOffset := if messages == [] then c.offset else messages[0].index;
    var moreAvailable := nextOffset > c.start;
    var loaded, bytes := c.messages + |messages|, c.bytes + addedBytes;
    budgetReason := DecideReason(c, l, moreAvailable, loaded, bytes, budgetReason);
    var reason := if h.dropped > 0 then Some(InvalidRows) else budgetReason;
    if messages == [] && h.messages != [] && (c.offset > c.start || (reason.Some? && c.messages == 0)) {
      served := MessageOversized;
      return;
    }
    var page := MakePage(h, messages, c, nextOffset, addedBytes, moreAvailable && reason.None?, pageLimitedByBytes, reason);
    served := if sizes.page(page) > sizes.maxResponseBytes then MetadataOversized else Served(page);
  }

  function FetchOffset(c: CursorState, limit: nat): nat {
    if c.offset > limit && c.offset - limit > c.start then c.offset - limit else c.start
  }

  /** One request: an answer that is not the slice asked for, row for row, is refused. */
  method ServePage(h: Fetched, c: CursorState, limit: nat, l: Limits, sizes: Sizes) returns (served: Served)
    requires c.start <= c.offset
    ensures var from := FetchOffset(c, limit);
      if h.offset == from && h.limit == h.returned == c.offset - from && h.dropped == h.returned - |h.messages| then
        served == PageFrom(h, c, l, sizes, Stop(h, c, l, sizes))
      else served == HistoryChanged
  {
    var fetchOffset := FetchOffset(c, limit);
    var fetchLimit := c.offset - fetchOffset;
    if h.offset != fetchOffset || h.limit != fetchLimit || h.returned != fetchLimit || h.dropped != h.returned - |h.messages| {
      return HistoryChanged;
    }
    served := FitPage(h, c, l, sizes);
  }

  // ---- Following the cursors ---------------------------------------------------------------------

  function InitialCursor(sessionId: string, total: nat, l: Limits): CursorState {
    CursorState(sessionId, if total > l.maxMessages then total - l.maxMessages else 0, total, total, 0, 0, 0)
  }

  /** The cursor stands before the newest rows, all of them readable and all of them handed out. */
  ghost predicate Newest(rows: seq<Row>, c: CursorState, l: Limits, sizes: Sizes) {
    && InRange(c, l) && c.end <= |rows|
    && c.start == (if c.end > l.maxMessages then c.end - l.maxMessages else 0)
    && c.messages == c.end - c.offset && AllReadable(rows, c.offset, c.end)
    && c.bytes == Weight(Window(rows, c.offset, c.end), sizes.message)
  }

  lemma {:induction false} WeightAdds(a: seq<Message>, b: seq<Message>, size: Message -> nat)
    ensures Weight(a + b, size) == Weight(a, size) + Weight(b, size)
  {
    if a == [] {
      assert a + b == b;
    } else {
      WeightAdds(a[1..], b, size);
      assert (a + b)[1..] == a[1..] + b;
    }
  }

  lemma WindowSize(rows: seq<Row>, from: nat, to: nat)
    requires from <= to <= |rows|
    ensures |Window(rows, from, to)| <= to - from
    ensures |Window(rows, from, to)| == to - from <==> AllReadable(rows, from, to)
  {
    NormalizedShape(rows[from..to], from);
    if forall i :: 0 <= i < to - from ==> rows[from..to][i].Readable? {
      forall i | from <= i < to ensures rows[i].Readable? { assert rows[i] == rows[from..to][i - from]; }
    }
  }

  /** A page that is not the last lowers the offset, and its cursor again stands before the newest rows. */
  lemma ContinuingPage(rows: seq<Row>, c: CursorState, limit: nat, l: Limits, sizes: Sizes, k: nat)
    requires Newest(rows, c, l, sizes) && limit >= 1
    requires var h := Upstream(rows, FetchOffset(c, limit), c.offset);
      k <= |h.messages| && PageFrom(h, c, l, sizes, k).Served? && PageFrom(h, c, l, sizes, k).page.hasMore
    ensures var page := PageFrom(Upstream(rows, FetchOffset(c, limit), c.offset), c, l, sizes, k).page;
      && page.next.Some? && page.next.value.offset < c.offset && page.next.value.pages == c.pages + 1
      && Newest(rows, page.next.value, l, sizes) && page.next.value.end == c.end
      && page.messages == Window(rows, page.next.value.offset, c.offset)
  {
    var from := FetchOffset(c, limit);
    var h := Upstream(rows, from, c.offset);
    WindowSize(rows, from, c.offset);
    assert h.messages[k..] != [];
    WindowFrom(rows, from, c.offset, k);
    var at := h.messages[k].index;
    WindowSize(rows, at, c.offset);
    WindowSplit(rows, at, c.offset, c.end);
    WeightAdds(Window(rows, at, c.offset), Window(rows, c.offset, c.end), sizes.message);
  }

  /** Where a last page begins. */
  function LowestOf(page: Page, c: CursorState): nat {
    if page.messages == [] then c.offset else page.messages[0].index
  }

  /** The last page holds the rows just below its cursor, and if it is not marked truncated the whole
      history has been handed out. */
  lemma LastPage(rows: seq<Row>, c: CursorState, limit: nat, l: Limits, sizes: Sizes, k: nat)
    requires Newest(rows, c, l, sizes) && limit >= 1
    requires var h := Upstream(rows, FetchOffset(c, limit), c.offset);
      k <= |h.messages| && PageFrom(h, c, l, sizes, k).Served? && !PageFrom(h, c, l, sizes, k).page.hasMore
    ensures var page := PageFrom(Upstream(rows, FetchOffset(c, limit), c.offset), c, l, sizes, k).page;
      var low := LowestOf(page, c);
      && low <= c.offset && page.messages == Window(rows, low, c.offset)
      && (page.reason.None? ==> low == 0 && AllReadable(rows, 0, c.end))
  {
    var from := FetchOffset(c, limit);
    var h := Upstream(rows, from, c.offset);
    WindowSize(rows, from, c.offset);
    if k < |h.messages| {
      WindowFrom(rows, from, c.offset, k);
    } else {
      assert rows[c.offset..c.offset] == [];
    }
  }

  /** No page exceeds the aggregate limits. */
  lemma {:induction false} PageWithinLimits(h: Fetched, c: CursorState, l: Limits, sizes: Sizes, k: nat)
    requires InRange(c, l) && StopsAt(h, c, l, sizes, k) && PageFrom(h, c, l, sizes, k).Served?
    ensures var page := PageFrom(h, c, l, sizes, k).page;
      && page.pages <= l.maxPages && page.loaded <= l.maxMessages && page.bytes <= l.maxBytes
      && sizes.page(page) <= sizes.maxResponseBytes
  {
    if k < |h.messages| { assert Joins(h, c, l, sizes, k); }
  }

  // ---- Why a page ends the load ------------------------------------------------------------------

  /** The message before the ones that were kept, if there is one, would have exceeded the bytes. */
  predicate NextExceeds(h: Fetched, l: Limits, sizes: Sizes, page: Page) {
    var k := |h.messages| - |page.messages|;
    k > 0 && page.bytes + sizes.message(h.messages[k - 1]) + 1 > l.maxBytes
  }

  /** A limit is given as the reason only if it was met, and dropped rows exactly if there were any; a page
      without a reason met no limit, and says whether it reached the start of the whole history. */
  ghost predicate Justified(h: Fetched, c: CursorState, l: Limits, sizes: Sizes, page: Page) {
    var low := if page.messages == [] then c.offset else page.messages[0].index;
    && page.pages == c.pages + 1 && page.loaded == c.messages + |page.messages|
    && page.bytes == c.bytes + Weight(page.messages, sizes.message)
    && (page.reason == Some(InvalidRows) <==> h.dropped > 0)
    && (page.reason == Some(PageLimit) ==> page.pages >= l.maxPages && low > c.start)
    && (page.reason == Some(MessageLimit) ==> page.loaded >= l.maxMessages || (low <= c.start && c.start > 0))
    && (page.reason == Some(ByteLimit) ==> (page.bytes >= l.maxBytes && low > c.start) || NextExceeds(h, l, sizes, page))
    && (page.reason.None? && page.hasMore ==>
          low > c.start && page.pages < l.maxPages && page.loaded < l.maxMessages && page.bytes < l.maxBytes)
    && (page.reason.None? && !page.hasMore ==> low <= c.start && c.start == 0)
    && (page.partial <==> page.reason == Some(InvalidRows) || (page.reason.Some? && page.loaded > 0))
    && (page.limitedByBytes <==>
          |page.messages| < |h.messages| && page.loaded < l.maxMessages && !NextExceeds(h, l, sizes, page))
  }

  lemma PageJustified(h: Fetched, c: CursorState, l: Limits, sizes: Sizes)
    requires PageFrom(h, c, l, sizes, Stop(h, c, l, sizes)).Served?
    ensures Justified(h, c, l, sizes, PageFrom(h, c, l, sizes, Stop(h, c, l, sizes)).page)
  {
    var k := Stop(h, c, l, sizes);
    hide StopsAt, Joins, Stop;
    if k > 0 { Weighed(h, c, l, sizes, k); }
  }

  /** The two errors are raised only when not one message fits, or the page is too big even so. */
  lemma ErrorJustified(h: Fetched, c: CursorState, l: Limits, sizes: Sizes)
    ensures var k := Stop(h, c, l, sizes);
      && (PageFrom(h, c, l, sizes, k).MessageOversized? ==> h.messages != [] && !Joins(h, c, l, sizes, |h.messages| - 1))
      && !PageFrom(h, c, l, sizes, k).HistoryChanged?
  {
    hide Joins;
  }

  /** A server limit that the history as a whole meets, or that the pages have. */
  ghost predicate ServerMet(rows: seq<Row>, total: nat, l: Limits, sizes: Sizes, pages: nat, reason: Reason)
    requires total <= |rows|
  {
    match reason
    case PageLimit => pages >= l.maxPages
    case MessageLimit => total >= l.maxMessages
    case ByteLimit => Weight(Window(rows, 0, total), sizes.message) >= l.maxBytes
    case InvalidRows => !AllReadable(rows, 0, total)
  }

  lemma PartWeighs(rows: seq<Row>, low: nat, total: nat, sizes: Sizes)
    requires low <= total <= |rows|
    ensures Weight(Window(rows, low, total), sizes.message) <= Weight(Window(rows, 0, total), sizes.message)
    ensures |Window(rows, low, total)| <= total - low
  {
    WindowSplit(rows, 0, low, total);
    WeightAdds(Window(rows, 0, low), Window(rows, low, total), sizes.message);
    WindowSize(rows, low, total);
  }

  lemma NextWeighs(h: Fetched, sizes: Sizes, k: nat)
    requires 0 < k <= |h.messages|
    ensures Weight(h.messages[k - 1..], sizes.message) == Weight(h.messages[k..], sizes.message) + sizes.message(h.messages[k - 1]) + 1
  {
    assert h.messages[k - 1..] == [h.messages[k - 1]] + h.messages[k..];
  }

  /** The reason a page of the run carries is true of the history it comes from. */
  lemma ReasonMet(rows: seq<Row>, c: CursorState, limit: nat, l: Limits, sizes: Sizes)
    requires Newest(rows, c, l, sizes) && limit >= 1
    requires var h := Upstream(rows, FetchOffset(c, limit), c.offset);
      PageFrom(h, c, l, sizes, Stop(h, c, l, sizes)).Served?
    ensures var h := Upstream(rows, FetchOffset(c, limit), c.offset);
      var page := PageFrom(h, c, l, sizes, Stop(h, c, l, sizes)).page;
      page.reason.Some? ==> ServerMet(rows, c.end, l, sizes, page.pages, page.reason.value)
  {
    var from := FetchOffset(c, limit);
    var h := Upstream(rows, from, c.offset);
    var k := Stop(h, c, l, sizes);
    var page := PageFrom(h, c, l, sizes, k).page;
    PageJustified(h, c, l, sizes);
    assert page.messages == h.messages[k..];
    hide Stop, PageFrom;
    if page.reason == Some(ByteLimit) { BytesMet(rows, c, from, l, sizes, page, k); }
    WindowSize(rows, from, c.offset);
    hide Weight, Window, NextExceeds;
    assert c.messages == c.end - c.offset;
  }

  lemma BytesMet(rows: seq<Row>, c: CursorState, from: nat, l: Limits, sizes: Sizes, page: Page, k: nat)
    requires Newest(rows, c, l, sizes) && from <= c.offset && k <= |Window(rows, from, c.offset)|
    requires page.messages == Window(rows, from, c.offset)[k..] && page.bytes == c.bytes + Weight(page.messages, sizes.message)
    requires page.bytes >= l.maxBytes || NextExceeds(Upstream(rows, from, c.offset), l, sizes, page)
    ensures Weight(Window(rows, 0, c.end), sizes.message) >= l.maxBytes
  {
    var h := Upstream(rows, from, c.offset);
    assert c.bytes == Weight(Window(rows, c.offset, c.end), sizes.message);
    PartWeighs(rows, c.offset, c.end, sizes);
    NoWeight(sizes.message);
    hide Newest;
    if k > 0 { TakenWeighs(rows, c, from, k - 1, sizes); NextWeighs(h, sizes, k); }
    if k < |h.messages| { TakenWeighs(rows, c, from, k, sizes); }
    hide Weight, Window;
    assert page.messages != [] ==> k < |h.messages|;
  }

  lemma TakenWeighs(rows: seq<Row>, c: CursorState, from: nat, k: nat, sizes: Sizes)
    requires from <= c.offset <= c.end <= |rows| && k < |Window(rows, from, c.offset)|
    ensures Weight(Window(rows, from, c.offset)[k..], sizes.message) + Weight(Window(rows, c.offset, c.end), sizes.message)
            <= Weight(Window(rows, 0, c.end), sizes.message)
    ensures |Window(rows, from, c.offset)[k..]| <= c.offset
  {
    WindowFrom(rows, from, c.offset, k);
    var at := Window(rows, from, c.offset)[k].index;
    WindowSplit(rows, at, c.offset, c.end);
    WeightAdds(Window(rows, at, c.offset), Window(rows, c.offset, c.end), sizes.message);
    PartWeighs(rows, at, c.end, sizes);
    PartWeighs(rows, at, c.offset, sizes);
  }

  // ---- A history with room to spare --------------------------------------------------------------

  /** The whole history is readable and within the aggregate limits, and any 50 rows in a row fit a response. */
  ghost predicate Roomy(rows: seq<Row>, total: nat, l: Limits, sizes: Sizes) {
    && AllReadable(rows, 0, total) && total <= l.maxMessages
    && Weight(Window(rows, 0, total), sizes.message) <= l.maxBytes
    && (forall page: Page, from: nat, to: nat :: from <= to <= total && to - from <= 50 && page.messages == Window(rows, from, to) ==>
          sizes.page(page) <= sizes.maxResponseBytes)
  }

  lemma RoomyWindow(rows: seq<Row>, total: nat, l: Limits, sizes: Sizes, from: nat, to: nat)
    requires Roomy(rows, total, l, sizes) && from <= to <= total
    ensures |Window(rows, from, to)| == to - from && AllReadable(rows, from, to)
    ensures Weight(Window(rows, from, total), sizes.message)
            == Weight(Window(rows, from, to), sizes.message) + Weight(Window(rows, to, total), sizes.message)
    ensures Weight(Window(rows, from, total), sizes.message) <= l.maxBytes
    ensures from > 0 ==> Weight(Window(rows, from, total), sizes.message) < l.maxBytes
    ensures forall i :: 0 <= i < to - from ==> Window(rows, from, to)[i].index == from + i
  {
    WindowSize(rows, from, to);
    WindowSplit(rows, from, to, total);
    WeightAdds(Window(rows, from, to), Window(rows, to, total), sizes.message);
    WindowSplit(rows, 0, from, total);
    WeightAdds(Window(rows, 0, from), Window(rows, from, total), sizes.message);
    WindowSize(rows, 0, from);
    NormalizedIndex(rows[from..to], from);
  }

  lemma {:induction false} NormalizedIndex(rows: seq<Row>, from: nat)
    requires |Normalized(rows, from)| == |rows|
    ensures forall i :: 0 <= i < |rows| ==> Normalized(rows, from)[i].index == from + i
  {
    if rows != [] {
      NormalizedShape(rows[1..], from + 1);
      NormalizedIndex(rows[1..], from + 1);
    }
  }

  lemma RoomyJoins(rows: seq<Row>, c: CursorState, limit: nat, l: Limits, sizes: Sizes, i: nat)
    requires Newest(rows, c, l, sizes) && Roomy(rows, c.end, l, sizes) && 1 <= limit <= 50
    requires i < |Upstream(rows, FetchOffset(c, limit), c.offset).messages|
    ensures Joins(Upstream(rows, FetchOffset(c, limit), c.offset), c, l, sizes, i)
  {
    var from := FetchOffset(c, limit);
    var h := Upstream(rows, from, c.offset);
    hide Roomy, InRange, Weight, Window;
    RoomyWindow(rows, c.end, l, sizes, from, c.offset);
    WindowFrom(rows, from, c.offset, i);
    RoomyWindow(rows, c.end, l, sizes, from + i, c.offset);
    RoomyResponse(rows, c.end, l, sizes, Candidate(h, c, sizes, i), from + i, c.offset);
  }

  lemma RoomyResponse(rows: seq<Row>, total: nat, l: Limits, sizes: Sizes, page: Page, from: nat, to: nat)
    requires Roomy(rows, total, l, sizes) && from <= to <= total && to - from <= 50 && page.messages == Window(rows, from, to)
    ensures sizes.page(page) <= sizes.maxResponseBytes
  {
  }

  /** Every page of such a history is full: it takes all rows that were asked for. */
  lemma RoomyStop(rows: seq<Row>, c: CursorState, limit: nat, l: Limits, sizes: Sizes)
    requires Newest(rows, c, l, sizes) && Roomy(rows, c.end, l, sizes) && 1 <= limit <= 50
    ensures Stop(Upstream(rows, FetchOffset(c, limit), c.offset), c, l, sizes) == 0
  {
    var h := Upstream(rows, FetchOffset(c, limit), c.offset);
    var k := Stop(h, c, l, sizes);
    if k > 0 { RoomyJoins(rows, c, limit, l, sizes, k - 1); }
  }

  /** And only the number of pages can end the load before the start of the history. */
  lemma RoomyPage(rows: seq<Row>, c: CursorState, limit: nat, l: Limits, sizes: Sizes)
    requires Newest(rows, c, l, sizes) && Roomy(rows, c.end, l, sizes) && 1 <= limit <= 50
    ensures var from := FetchOffset(c, limit);
      var h := Upstream(rows, from, c.offset);
      var served := PageFrom(h, c, l, sizes, Stop(h, c, l, sizes));
      && served.Served? && served.page.messages == Window(rows, from, c.offset)
      && served.page.hasMore == (from > 0 && c.pages + 1 < l.maxPages)
      && served.page.reason == if from > 0 && c.pages + 1 >= l.maxPages then Some(PageLimit) else None
  {
    var from := FetchOffset(c, limit);
    var h := Upstream(rows, from, c.offset);
    RoomyStop(rows, c, limit, l, sizes);
    RoomyWindow(rows, c.end, l, sizes, from, c.offset);
    assert h.messages[0..] == h.messages;
    RoomyPages(rows, c, limit, l, sizes);
    hide Roomy, Stop, Window, Weight, AllReadable, InRange;
    assert from > 0 ==> c.messages + |h.messages| < l.maxMessages;
  }

  lemma RoomyPages(rows: seq<Row>, c: CursorState, limit: nat, l: Limits, sizes: Sizes)
    requires Newest(rows, c, l, sizes) && Roomy(rows, c.end, l, sizes) && 1 <= limit <= 50
    ensures forall page: Page :: page.messages == Window(rows, FetchOffset(c, limit), c.offset) ==>
      sizes.page(page) <= sizes.maxResponseBytes
  {
    forall page: Page | page.messages == Window(rows, FetchOffset(c, limit), c.offset)
      ensures sizes.page(page) <= sizes.maxResponseBytes
    {
      RoomyResponse(rows, c.end, l, sizes, page, FetchOffset(c, limit), c.offset);
    }
  }
}
