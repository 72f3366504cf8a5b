/**
 The client side of history loading: HistoryAccumulator, and the loop that feeds it with the pages the
 cursors lead to.
 */
module HistoryLoaders {
  import opened Outcomes
  import opened HistoryCursors
  import opened HistoryPager

  datatype ClientReason = PagesReached | MessagesReached | BytesReached | ServerLimit | UpstreamError | InvalidServerRows

  datatype BoundedPage = BoundedPage(
    messages: seq<Message>, older: bool, hasMore: bool, truncated: bool, partial: bool, reason: Option<Reason>)

  function Load(messages: seq<Message>, bytesOf: Message -> nat): nat {
    if messages == [] then 0 else bytesOf(messages[0]) + Load(messages[1..], bytesOf)
  }

  lemma {:induction false} LoadAdds(a: seq<Message>, b: seq<Message>, bytesOf: Message -> nat)
    ensures Load(a + b, bytesOf) == Load(a, bytesOf) + Load(b, bytesOf)
  {
    if a == [] {
      assert a + b == b;
    } else {
      LoadAdds(a[1..], b, bytesOf);
      assert (a + b)[1..] == a[1..] + b;
    }
  }

  function NormalizeReason(reason: Option<Reason>): ClientReason {
    match reason
    case Some(PageLimit) => PagesReached
    case Some(MessageLimit) => MessagesReached
    case Some(ByteLimit) => BytesReached
    case Some(InvalidRows) => InvalidServerRows
    case None => ServerLimit
  }

  /** Whether a message fits beside those a client had and those it has just accepted. */
  predicate HasRoom(limits: Limits, bytesOf: Message -> nat, had: seq<Message>, accepted: seq<Message>, message: Message) {
    && |had| + |accepted| < limits.maxMessages
    && Load(had, bytesOf) + Load(accepted, bytesOf) + bytesOf(message) <= limits.maxBytes
  }

  class HistoryAccumulator {
    const limits: Limits
    const bytesOf: Message -> nat
    var messages: seq<Message>
    var pages: nat
    var bytes: nat
    var reason: Option<ClientReason>
    var serverPartial: bool

    predicate Valid()
      reads this
    {
      |messages| <= limits.maxMessages && bytes == Load(messages, bytesOf) <= limits.maxBytes
    }

    constructor (limits: Limits, bytesOf: Message -> nat)
      ensures Valid() && messages == [] && pages == 0 && reason == None && !serverPartial
      ensures this.limits == limits && this.bytesOf == bytesOf
    {
      this.limits, this.bytesOf := limits, bytesOf;
      messages, pages, bytes, reason, serverPartial := [], 0, 0, None, false;
    }

    /** Whether one more message still fits beside those accepted so far. */
    predicate Room(accepted: seq<Message>, message: Message)
      reads this
    {
      HasRoom(limits, bytesOf, messages, accepted, message)
    }

    /** Takes the newest messages of an older page that fit: those from k on. */
    method AcceptOlder(candidates: seq<Message>) returns (accepted: seq<Message>, k: nat)
      requires Valid()
      modifies this`bytes, this`reason
      ensures k <= |candidates| && accepted == candidates[k..]
      ensures |messages| + |accepted| <= limits.maxMessages
      ensures bytes == Load(messages, bytesOf) + Load(accepted, bytesOf) <= limits.maxBytes
      ensures k > 0 ==> !Room(accepted, candidates[k - 1])
      ensures reason == if k == 0 then old(reason)
                        else if |messages| + |accepted| >= limits.maxMessages then Some(MessagesReached) else Some(BytesReached)
    {
      k := |candidates|;
      accepted := [];
      assert candidates[k..] == [];
      while k > 0
        invariant k <= |candidates| && accepted == candidates[k..] && reason == old(reason)
        invariant |messages| + |accepted| <= limits.maxMessages
        invariant bytes == Load(messages, bytesOf) + Load(accepted, bytesOf) <= limits.maxBytes
      {
        var message := candidates[k - 1];
        if |messages| + |accepted| >= limits.maxMessages { reason := Some(MessagesReached); return; }
        if bytes + bytesOf(message) > limits.maxBytes { reason := Some(BytesReached); return; }
        accepted := [message] + accepted;
        assert candidates[k - 1..] == accepted;
        bytes, k := bytes + bytesOf(message), k - 1;
      }
    }

    /** Takes the first messages of a newer page that fit: those before k. */
    method AcceptNewer(candidates: seq<Message>) returns (accepted: seq<Message>, k: nat)
      requires Valid()
      modifies this`bytes, this`reason
      ensures k <= |candidates| && accepted == candidates[..k]
      ensures |messages| + |accepted| <= limits.maxMessages
      ensures bytes == Load(messages, bytesOf) + Load(accepted, bytesOf) <= limits.maxBytes
      ensures k < |candidates| ==> !Room(accepted, candidates[k])
      ensures reason == if k == |candidates| then old(reason)
                        else if |messages| + |accepted| >= limits.maxMessages then Some(MessagesReached) else Some(BytesReached)
    {
      k := 0;
      accepted := [];
      while k < |candidates|
        invariant k <= |candidates| && accepted == candidates[..k] && reason == old(reason)
        invariant |messages| + |accepted| <= limits.maxMessages
        invariant bytes == Load(messages, bytesOf) + Load(accepted, bytesOf) <= limits.maxBytes
      {
        var message := candidates[k];
        if |messages| + |accepted| >= limits.maxMessages { reason := Some(MessagesReached); return; }
        if bytes + bytesOf(message) > limits.maxBytes { reason := Some(BytesReached); return; }
        LoadAdds(accepted, [message], bytesOf);
        assert Load([message], bytesOf) == bytesOf(message);
        accepted := accepted + [message];
        assert candidates[..k + 1] == accepted;
        bytes, k := bytes + bytesOf(message), k + 1;
      }
    }

    /** The reason on record after a page, given why its messages were cut, if they were. */
    function Concluded(page: BoundedPage, cut: Option<ClientReason>): Option<ClientReason>
      reads this
    {
      if cut.Some? then cut
      else if page.truncated then Some(NormalizeReason(page.reason))
      else if !page.hasMore then None
      else if pages >= limits.maxPages then Some(PagesReached)
      else if |messages| >= limits.maxMessages then Some(MessagesReached)
      else if bytes >= limits.maxBytes then Some(BytesReached)
      else None
    }

    /** Takes what fits of a page; k is where the messages were cut. */
    method Take(page: BoundedPage) returns (k: nat)
      requires Valid()
      modifies this`messages, this`bytes, this`reason
      ensures Valid() && k <= |page.messages|
      ensures messages == if page.older then page.messages[k..] + old(messages) else old(messages) + page.messages[..k]
      ensures page.older && k > 0 ==> !old(Room(page.messages[k..], page.messages[k - 1]))
      ensures !page.older && k < |page.messages| ==> !old(Room(page.messages[..k], page.messages[k]))
      ensures reason == if (if page.older then k > 0 else k < |page.messages|) then
        Some(if |messages| >= limits.maxMessages then MessagesReached else BytesReached) else old(reason)
    {
      var accepted: seq<Message>;
      if page.older {
        accepted, k := AcceptOlder(page.messages);
        LoadAdds(accepted, messages, bytesOf);
        messages := accepted + messages;
      } else {
        accepted, k := AcceptNewer(page.messages);
        LoadAdds(messages, accepted, bytesOf);
        messages := messages + accepted;
      }
    }

    /** Adds one page; true asks for the next. */
    method Append(page: BoundedPage) returns (more: bool, ghost k: nat)
      requires Valid()
      modifies this
      ensures Valid() && k <= |page.messages| && pages == old(pages) + 1
      ensures messages == if page.older then page.messages[k..] + old(messages) else old(messages) + page.messages[..k]
      ensures page.older && k > 0 ==> !old(Room(page.messages[k..], page.messages[k - 1]))
      ensures !page.older && k < |page.messages| ==> !old(Room(page.messages[..k], page.messages[k]))
      ensures reason == Concluded(page, if (if page.older then k > 0 else k < |page.messages|) then
        Some(if |messages| >= limits.maxMessages then MessagesReached else BytesReached) else old(reason))
      ensures more <==> page.hasMore && reason.None?
      ensures serverPartial == (old(serverPartial) || page.partial)
    {
      hide Load;
      pages := pages + 1;
      k := Take(page);
      serverPartial := serverPartial || page.partial;
      if page.truncated && reason.None? { reason := Some(NormalizeReason(page.reason)); }
      if page.hasMore && reason.None? {
        if pages >= limits.maxPages { reason := Some(PagesReached); }
        else if |messages| >= limits.maxMessages { reason := Some(MessagesReached); }
        else if bytes >= limits.maxBytes { reason := Some(BytesReached); }
      }
      more := page.hasMore && reason.None?;
    }
  }

  function ForClient(page: Page): BoundedPage {
    BoundedPage(page.messages, true, page.hasMore, page.reason.Some?, page.partial, page.reason)
  }

  /** What a load that ended for this reason says about the history, or about the pages it took. */
  ghost predicate Met(rows: seq<Row>, total: nat, l: Limits, sizes: Sizes, limits: Limits, bytesOf: Message -> nat, pages: nat,
                      reason: ClientReason)
    requires total <= |rows|
  {
    match reason
    case PagesReached => pages >= l.maxPages || pages >= limits.maxPages
    case MessagesReached => total >= l.maxMessages || total >= limits.maxMessages
    case BytesReached =>
      || Weight(Window(rows, 0, total), sizes.message) >= l.maxBytes || Load(Window(rows, 0, total), bytesOf) >= limits.maxBytes
    case InvalidServerRows => !AllReadable(rows, 0, total)
    case ServerLimit => false
    case UpstreamError => false
  }

  /** The history is within the limits of both sides, and enough pages are allowed when each asks for `pace` rows. */
  ghost predicate Ample(rows: seq<Row>, total: nat, l: Limits, sizes: Sizes, limits: Limits, bytesOf: Message -> nat, pace: nat)
  {
    && Roomy(rows, total, l, sizes) && total <= limits.maxMessages
    && Load(Window(rows, 0, total), bytesOf) <= limits.maxBytes && (forall m :: bytesOf(m) > 0)
    && 1 <= pace && total <= pace * l.maxPages && total <= pace * limits.maxPages
  }

  lemma PartLoads(rows: seq<Row>, low: nat, middle: nat, total: nat, bytesOf: Message -> nat, k: nat)
    requires low <= middle <= total <= |rows| && k < |Window(rows, low, middle)|
    ensures Load(Window(rows, low, middle)[k..], bytesOf) + Load(Window(rows, middle, total), bytesOf)
            <= Load(Window(rows, 0, total), bytesOf)
    ensures |Window(rows, low, middle)[k..]| + |Window(rows, middle, total)| <= total
    ensures Load(Window(rows, low, middle)[k..], bytesOf)
            == bytesOf(Window(rows, low, middle)[k]) + Load(Window(rows, low, middle)[k + 1..], bytesOf)
  {
    WindowFrom(rows, low, middle, k);
    var at := Window(rows, low, middle)[k].index;
    WindowSplit(rows, at, middle, total);
    WindowSplit(rows, 0, at, total);
    WindowSize(rows, 0, total);
    LoadAdds(Window(rows, at, middle), Window(rows, middle, total), bytesOf);
    LoadAdds(Window(rows, 0, at), Window(rows, at, total), bytesOf);
    assert Window(rows, low, middle)[k..][1..] == Window(rows, low, middle)[k + 1..];
  }

  lemma RestLoads(rows: seq<Row>, low: nat, total: nat, bytesOf: Message -> nat)
    requires low <= total <= |rows|
    ensures Load(Window(rows, low, total), bytesOf) <= Load(Window(rows, 0, total), bytesOf)
    ensures |Window(rows, low, total)| <= total - low
    ensures (forall m :: bytesOf(m) > 0) && low > 0 && AllReadable(rows, 0, low) ==>
      Load(Window(rows, low, total), bytesOf) < Load(Window(rows, 0, total), bytesOf)
  {
    WindowSplit(rows, 0, low, total);
    WindowSize(rows, 0, low);
    WindowSize(rows, low, total);
    LoadAdds(Window(rows, 0, low), Window(rows, low, total), bytesOf);
  }

  lemma PagesLeft(low: nat, pace: nat, pages: nat, total: nat, maxPages: nat)
    requires 0 < low && low + pace * pages <= total <= pace * maxPages
    ensures pages < maxPages
  {
    assert pages >= maxPages ==> pace * pages >= pace * maxPages;
  }

  lemma TakenLoads(rows: seq<Row>, low: nat, c: CursorState, bytesOf: Message -> nat, messages: seq<Message>, k: nat)
    requires low <= c.offset <= c.end <= |rows| && messages == Window(rows, low, c.offset) && k <= |messages|
    ensures Load(messages[k..] + Window(rows, c.offset, c.end), bytesOf) <= Load(Window(rows, 0, c.end), bytesOf)
    ensures |messages[k..] + Window(rows, c.offset, c.end)| <= c.end
  {
    LoadAdds(messages[k..], Window(rows, c.offset, c.end), bytesOf);
    if k < |messages| {
      PartLoads(rows, low, c.offset, c.end, bytesOf, k);
    } else {
      RestLoads(rows, c.offset, c.end, bytesOf);
    }
  }

  lemma CutMet(rows: seq<Row>, c: CursorState, low: nat, limits: Limits, bytesOf: Message -> nat, messages: seq<Message>,
               had: seq<Message>, k: nat)
    requires low <= c.offset <= c.end <= |rows| && messages == Window(rows, low, c.offset) && 0 < k <= |messages|
    requires had == Window(rows, c.offset, c.end) && !HasRoom(limits, bytesOf, had, messages[k..], messages[k - 1])
    ensures |messages[k..] + had| >= limits.maxMessages || Load(Window(rows, 0, c.end), bytesOf) >= limits.maxBytes
  {
    PartLoads(rows, low, c.offset, c.end, bytesOf, k - 1);
    hide Window, Load;
  }

  /** The client stops for a reason that is true of the history, or of its pages. */
  lemma StopMet(rows: seq<Row>, c: CursorState, low: nat, l: Limits, sizes: Sizes, client: HistoryAccumulator, page: BoundedPage,
                had: seq<Message>, k: nat)
    requires low <= c.offset <= c.end <= |rows| && page.older && page.messages == Window(rows, low, c.offset)
    requires client.Valid() && k <= |page.messages| && had == Window(rows, c.offset, c.end)
    requires client.messages == page.messages[k..] + had
    requires k > 0 ==> !HasRoom(client.limits, client.bytesOf, had, page.messages[k..], page.messages[k - 1])
    requires client.reason == client.Concluded(page, if k > 0 then
      Some(if |client.messages| >= client.limits.maxMessages then MessagesReached else BytesReached) else None)
    requires page.truncated == page.reason.Some? && (page.truncated ==> ServerMet(rows, c.end, l, sizes, client.pages, page.reason.value))
    ensures client.reason.Some? ==> Met(rows, c.end, l, sizes, client.limits, client.bytesOf, client.pages, client.reason.value)
  {
    hide Window, Load, Weight, AllReadable, HasRoom;
    TakenLoads(rows, low, c, client.bytesOf, page.messages, k);
    if k > 0 { CutMet(rows, c, low, client.limits, client.bytesOf, page.messages, had, k); }
  }

  /** A page of such a history leaves enough pages for the rest. */
  lemma AmpleTurn(rows: seq<Row>, c: CursorState, limit: nat, l: Limits, sizes: Sizes, client: HistoryAccumulator, pace: nat)
    requires Ample(rows, c.end, l, sizes, client.limits, client.bytesOf, pace) && Newest(rows, c, l, sizes) && pace <= limit <= 50
    requires c.offset == 0 || c.offset + pace * c.pages <= c.end
    ensures Roomy(rows, c.end, l, sizes)
    ensures var low := FetchOffset(c, limit);
      low > 0 ==> low + pace * (c.pages + 1) <= c.end && c.pages + 1 < l.maxPages && c.pages + 1 < client.limits.maxPages
  {
    var low := FetchOffset(c, limit);
    assert c.start == 0;
    hide Roomy;
    if low > 0 {
      assert pace * (c.pages + 1) == pace * c.pages + pace;
      PagesLeft(low, pace, c.pages + 1, c.end, l.maxPages);
      PagesLeft(low, pace, c.pages + 1, c.end, client.limits.maxPages);
    }
  }

  /** The client takes all of it and goes on. */
  lemma AmpleAppend(rows: seq<Row>, c: CursorState, limit: nat, l: Limits, sizes: Sizes, client: HistoryAccumulator,
                    page: BoundedPage, had: seq<Message>, k: nat, pace: nat)
    requires Ample(rows, c.end, l, sizes, client.limits, client.bytesOf, pace) && Newest(rows, c, l, sizes) && 1 <= limit <= 50
    requires page.older && page.messages == Window(rows, FetchOffset(c, limit), c.offset) && had == Window(rows, c.offset, c.end)
    requires client.Valid() && k <= |page.messages| && client.messages == page.messages[k..] + had
    requires client.pages == c.pages + 1
    requires var low := FetchOffset(c, limit);
      && (low > 0 ==> c.pages + 1 < l.maxPages && c.pages + 1 < client.limits.maxPages)
      && page.hasMore == (low > 0 && c.pages + 1 < l.maxPages) && (page.truncated <==> low > 0 && c.pages + 1 >= l.maxPages)
    requires k > 0 ==> !HasRoom(client.limits, client.bytesOf, had, page.messages[k..], page.messages[k - 1])
    requires client.reason == client.Concluded(page, if k > 0 then
      Some(if |client.messages| >= client.limits.maxMessages then MessagesReached else BytesReached) else None)
    ensures k == 0 && client.reason.None?
  {
    var low := FetchOffset(c, limit);
    if k > 0 {
      PartLoads(rows, low, c.offset, c.end, client.bytesOf, k - 1);
      assert false;
    }
    WindowSplit(rows, low, c.offset, c.end);
    assert page.messages[0..] == page.messages;
    RoomyWindow(rows, c.end, l, sizes, 0, low);
    RestLoads(rows, low, c.end, client.bytesOf);
    hide Window, Load, Weight, AllReadable, Roomy, Newest;
  }

  /** Follows the cursors, each sent as text and parsed again, over a history whose rows below `total`
      stay as they are. What the client ends up with is the newest readable rows without a gap, in
      order; a run that ends without a reason has loaded the whole history, one that ends with a reason ended
      for that, and a history within all limits is loaded whole. */
  method LoadHistory(rows: seq<Row>, total: nat, sessionId: string, requested: string, profile: string, sign: Signer,
                     l: Limits, sizes: Sizes, limitOf: nat -> nat, client: HistoryAccumulator, ghost pace: nat)
    returns (failed: bool, ghost low: nat)
    requires total <= |rows| && total <= MAX_HISTORY_OFFSET && IsIdentifier(sessionId) && ValidLimits(l)
    requires forall n :: 1 <= limitOf(n) <= 50 && pace <= limitOf(n)
    requires client.Valid() && client.messages == [] && client.pages == 0 && client.reason == None
    modifies client
    ensures client.Valid() && low <= total && client.messages == Window(rows, low, total)
    ensures !failed && client.reason.None? ==> low == 0 && AllReadable(rows, 0, total) && |client.messages| == total
    ensures client.pages <= l.maxPages
    ensures client.reason.Some? ==> Met(rows, total, l, sizes, client.limits, client.bytesOf, client.pages, client.reason.value)
    ensures Ample(rows, total, l, sizes, client.limits, client.bytesOf, pace) ==> !failed && client.reason.None? && low == 0
  {
    hide Newest, Window, AllReadable, InRange, EncodeCursor, DecodeCursor, IsIdentifier, Upstream, Met, Ample, Roomy, Load;
    ghost var ample := Ample(rows, total, l, sizes, client.limits, client.bytesOf, pace);
    var cursor := InitialCursor(sessionId, total, l);
    var text: Option<string> := None;
    low := total;
    InitialNewest(rows, total, sessionId, l, sizes);
    var more := true;
    failed := false;
    while more
      invariant client.Valid() && low <= total && client.messages == Window(rows, low, total)
      invariant more ==> client.reason == None && Newest(rows, cursor, l, sizes) && cursor.offset == low && cursor.end == total
      invariant more ==> client.pages == cursor.pages < l.maxPages
      invariant more && text.Some? ==> IsIdentifier(cursor.sessionId) && text.value == EncodeCursor(cursor, sign, requested, profile)
      invariant !more && !failed && client.reason.None? ==> low == 0 && AllReadable(rows, 0, total)
      invariant client.pages <= l.maxPages
      invariant client.reason.Some? ==> Met(rows, total, l, sizes, client.limits, client.bytesOf, client.pages, client.reason.value)
      invariant ample ==> !failed && client.reason.None?
      invariant ample && more ==> cursor.offset == 0 || cursor.offset + pace * cursor.pages <= total
      decreases if more then cursor.offset + 1 else 0
    {
      NewestInRange(rows, cursor, l, sizes);
      if text.Some? {
        DecodeExactly(text.value, cursor, l, sign, requested, profile);
        cursor := DecodeCursor(text.value, sign, requested, profile, l).value;
      }
      if ample { AmpleTurn(rows, cursor, limitOf(cursor.pages), l, sizes, client, pace); }
      var served, pageLow := TurnPage(rows, cursor, limitOf(cursor.pages), l, sizes);
      if !served.Served? {
        failed, more := true, false;
        break;
      }
      var page := served.page;
      ghost var taken, had := 0, client.messages;
      more, taken := client.Append(ForClient(page));
      StopMet(rows, cursor, pageLow, l, sizes, client, ForClient(page), had, taken);
      if ample { AmpleAppend(rows, cursor, limitOf(cursor.pages), l, sizes, client, ForClient(page), had, taken, pace); }
      low := JoinedLow(rows, pageLow, cursor.offset, total, taken);
      if page.hasMore {
        cursor := page.next.value;
        NewestInRange(rows, cursor, l, sizes);
        text := Some(EncodeCursor(cursor, sign, requested, profile));
      }
    }
    WindowSize(rows, low, total);
  }

  lemma InitialNewest(rows: seq<Row>, total: nat, sessionId: string, l: Limits, sizes: Sizes)
    requires total <= |rows| && total <= MAX_HISTORY_OFFSET && IsIdentifier(sessionId) && ValidLimits(l)
    ensures Newest(rows, InitialCursor(sessionId, total, l), l, sizes) && Window(rows, total, total) == []
  {
    assert rows[total..total] == [];
  }

  lemma NewestInRange(rows: seq<Row>, c: CursorState, l: Limits, sizes: Sizes)
    requires Newest(rows, c, l, sizes)
    ensures InRange(c, l) && IsIdentifier(c.sessionId) && c.pages < l.maxPages && c.start <= c.offset <= c.end <= |rows|
  {
  }

  /** One request of the run: the page holds the readable rows from `low` up to its cursor. */
  method TurnPage(rows: seq<Row>, c: CursorState, limit: nat, l: Limits, sizes: Sizes) returns (served: Served, ghost low: nat)
    requires Newest(rows, c, l, sizes) && limit >= 1
    ensures low <= c.offset <= c.end <= |rows|
    ensures served.Served? ==> served.page.messages == Window(rows, low, c.offset) && served.page.pages <= l.maxPages
    ensures served.Served? && served.page.hasMore ==>
      && served.page.reason.None? && served.page.next.Some? && Newest(rows, served.page.next.value, l, sizes)
      && served.page.next.value.offset == low < c.offset && served.page.next.value.end == c.end
      && served.page.next.value.pages == c.pages + 1
    ensures served.Served? && !served.page.hasMore && served.page.reason.None? ==> low == 0 && AllReadable(rows, 0, c.end)
    ensures served.Served? ==>
      served.page.loaded <= l.maxMessages && served.page.bytes <= l.maxBytes && sizes.page(served.page) <= sizes.maxResponseBytes
    ensures served.Served? && served.page.reason.Some? ==> ServerMet(rows, c.end, l, sizes, c.pages + 1, served.page.reason.value)
    ensures Roomy(rows, c.end, l, sizes) && limit <= 50 ==> (
      && served.Served? && low == FetchOffset(c, limit)
      && served.page.hasMore == (low > 0 && c.pages + 1 < l.maxPages)
      && (served.page.reason.Some? <==> low > 0 && c.pages + 1 >= l.maxPages))
  {
    var h := Upstream(rows, FetchOffset(c, limit), c.offset);
    served := ServePage(h, c, limit, l, sizes);
    ghost var k := Stop(h, c, l, sizes);
    low := c.offset;
    if limit <= 50 && Roomy(rows, c.end, l, sizes) { RoomyTurn(rows, c, limit, l, sizes); }
    hide Roomy;
    if served.Served? {
      ReasonMet(rows, c, limit, l, sizes);
      PageWithinLimits(h, c, l, sizes, k);
      if served.page.hasMore {
        ContinuingPage(rows, c, limit, l, sizes, k);
        low := served.page.next.value.offset;
      } else {
        LastPage(rows, c, limit, l, sizes, k);
        low := LowestOf(served.page, c);
      }
    }
  }

  lemma RoomyTurn(rows: seq<Row>, c: CursorState, limit: nat, l: Limits, sizes: Sizes)
    requires Newest(rows, c, l, sizes) && Roomy(rows, c.end, l, sizes) && 1 <= limit <= 50
    ensures var from := FetchOffset(c, limit);
      var h := Upstream(rows, from, c.offset);
      var served := PageFrom(h, c, l, sizes, Stop(h, c, l, sizes));
      && served.Served? && LowestOf(served.page, c) == from
      && served.page.hasMore == (from > 0 && c.pages + 1 < l.maxPages)
      && (served.page.reason.Some? <==> from > 0 && c.pages + 1 >= l.maxPages)
      && (served.page.next.Some? ==> served.page.next.value.offset == from)
  {
    RoomyPage(rows, c, limit, l, sizes);
    RoomyWindow(rows, c.end, l, sizes, FetchOffset(c, limit), c.offset);
  }

  /** Where the loaded rows begin once a page's messages from k on join those already there. */
  lemma JoinedLow(rows: seq<Row>, low: nat, middle: nat, total: nat, k: nat) returns (at: nat)
    requires low <= middle <= total <= |rows| && k <= |Window(rows, low, middle)|
    ensures low <= at <= middle && (k == 0 ==> at == low)
    ensures Window(rows, low, middle)[k..] + Window(rows, middle, total) == Window(rows, at, total)
  {
    if k == 0 {
      at := low;
    } else if k == |Window(rows, low, middle)| {
      at := middle;
      assert rows[middle..middle] == [];
    } else {
      at := Window(rows, low, middle)[k].index;
      WindowFrom(rows, low, middle, k);
    }
    WindowSplit(rows, at, middle, total);
  }
}
