/**
 The runs of the hub that break all-or-resync: a reset is requested while nothing is connected, so it is
 over before it is recorded and the record stays. Then the first events of 193 sessions arrive before
 any of them is bound. The tombstones are full by then, the reset that should follow is taken for one
 already running, and the oldest session loses its prefix without a trace.
 */
module LostEarlyEvents {
  import opened Outcomes
  import opened EarlyEvents

  const FIRST := Event("first", Some(1))
  const SECOND := Event("second", Some(1))

  /** A reset that such a hub is asked for acts, and there is nothing to close. */
  predicate Unlinked(s: Hub) {
    s.resetting == Idle && !s.stopping && !s.linked && s.maxEventBytes > 0
  }

  /** The reset with nothing connected, then a connection. */
  function IdleReset(start: Hub): seq<Op> {
    [ResetRequest(start.generation), Link(true, start.generation + 2)]
  }

  function Arrival(start: Hub, id: LiveId, e: Event): Op {
    Route(start.generation + 2, id, e)
  }

  /** After n such sessions: the last 64 are buffered, those before are tombstoned. */
  function FilledHub(start: Hub, n: nat): Hub {
    var k: nat := if n < MAX_UNBOUND_SESSIONS then n else MAX_UNBOUND_SESSIONS;
    Hub(Ids(n - k, n), map id | id in Below(n) && id !in Below(n - k) :: Buffered([FIRST], 1, false), Below(n - k),
        Stuck, true, start.generation + 2, false, map[], start.subscribers, start.maxEventBytes)
  }

  function Below(n: nat): set<LiveId> {
    if n == 0 then {} else Below(n - 1) + {n - 1}
  }

  function Ids(from: nat, to: nat): seq<LiveId>
    requires from <= to
  {
    seq(to - from, i requires 0 <= i < to - from => from + i)
  }

  function FilledLedger(n: nat): Ledger {
    map id | id in Below(n) :: [FIRST]
  }

  lemma {:induction false} SumBelow(ids: seq<LiveId>, f: LiveId -> nat)
    requires forall id :: id in ids ==> f(id) <= 1
    ensures Sum(ids, f) <= |ids|
  {
    if ids != [] { SumBelow(ids[1..], f); }
  }

  lemma OneFits(s: Hub, id: LiveId, e: Event)
    requires id in s.unbound && s.unbound[id] == Buffered([], 0, false) && |s.order| <= MAX_UNBOUND_SESSIONS
    requires forall x :: x in s.unbound ==> |s.unbound[x].events| <= 1 && s.unbound[x].bytes <= 1
    requires s.maxEventBytes > 0 && e.json == Some(1)
    ensures Grown(s, id, e) == Replaced(s, id, Buffered([e], 1, false))
  {
    SumBelow(s.order, EventsOf(s.unbound));
    SumBelow(s.order, BytesOf(s.unbound));
    assert [] + [e] == [e];
  }

  lemma {:induction false} BelowIs(n: nat)
    ensures |Below(n)| == n && forall id: LiveId :: id in Below(n) <==> id < n
  {
    if n > 0 { BelowIs(n - 1); }
  }

  lemma IdsAppend(from: nat, to: nat)
    requires from <= to
    ensures Ids(from, to) + [to] == Ids(from, to + 1)
    ensures from < to ==> Ids(from, to)[0] == from && Ids(from, to)[1..] == Ids(from + 1, to)
  {
  }

  lemma FilledEvicted(start: Hub, n: nat)
    requires n >= MAX_UNBOUND_SESSIONS
    ensures var oldest := n - MAX_UNBOUND_SESSIONS;
      var s := FilledHub(start, n);
      && s.order[0] == oldest && oldest in s.unbound
      && Evicted(s) == s.(order := Ids(oldest + 1, n), unbound := s.unbound - {oldest}, tombstones := Below(oldest + 1))
  {
    var oldest := n - MAX_UNBOUND_SESSIONS;
    BelowIs(n);
    BelowIs(oldest);
    IdsAppend(oldest, n);
    hide Ids;
  }

  lemma FilledOpened(start: Hub, n: nat)
    requires n < MAX_UNBOUND_SESSIONS
    ensures Replaced(Opened(FilledHub(start, n), n), n, Buffered([FIRST], 1, false)) == FilledHub(start, n + 1)
  {
    IdsAppend(0, n);
    hide Ids;
    assert FilledHub(start, n + 1).unbound == Opened(FilledHub(start, n), n).unbound[n := Buffered([FIRST], 1, false)];
  }

  lemma FilledReopened(start: Hub, n: nat)
    requires n >= MAX_UNBOUND_SESSIONS
    ensures Replaced(Opened(Evicted(FilledHub(start, n)), n), n, Buffered([FIRST], 1, false)) == FilledHub(start, n + 1)
  {
    var oldest := n - MAX_UNBOUND_SESSIONS;
    FilledEvicted(start, n);
    FilledSlides(start, n);
    IdsAppend(oldest + 1, n);
    hide Evicted, Discarded, Ids, Below;
  }

  lemma FilledSlides(start: Hub, n: nat)
    requires n >= MAX_UNBOUND_SESSIONS
    ensures FilledHub(start, n + 1).unbound ==
      (FilledHub(start, n).unbound - {n - MAX_UNBOUND_SESSIONS})[n := Buffered([FIRST], 1, false)]
  {
    FilledUnbound(start, n);
    FilledUnbound(start, n + 1);
    hide *;
    Slides(FilledHub(start, n).unbound, FilledHub(start, n + 1).unbound, n - MAX_UNBOUND_SESSIONS, n);
  }

  lemma Slides(m: map<LiveId, Buffered>, m': map<LiveId, Buffered>, oldest: nat, n: nat)
    requires oldest < n && forall id: LiveId :: (id in m <==> oldest <= id < n) && (id in m' <==> oldest + 1 <= id < n + 1)
    requires forall id :: id in m ==> m[id] == Buffered([FIRST], 1, false)
    requires forall id :: id in m' ==> m'[id] == Buffered([FIRST], 1, false)
    ensures m' == (m - {oldest})[n := Buffered([FIRST], 1, false)]
  {
    var slid := (m - {oldest})[n := Buffered([FIRST], 1, false)];
    assert m'.Keys == slid.Keys;
  }

  lemma FilledUnbound(start: Hub, n: nat)
    requires n >= MAX_UNBOUND_SESSIONS
    ensures forall id: LiveId :: id in FilledHub(start, n).unbound <==> n - MAX_UNBOUND_SESSIONS <= id < n
    ensures forall id :: id in FilledHub(start, n).unbound ==> FilledHub(start, n).unbound[id] == Buffered([FIRST], 1, false)
  {
    BelowIs(n);
    BelowIs(n - MAX_UNBOUND_SESSIONS);
    hide Below, Ids;
  }

  lemma FilledStep(start: Hub, n: nat)
    requires Unlinked(start) && n < MAX_UNBOUND_SESSIONS + MAX_TOMBSTONES
    ensures Step(FilledHub(start, n), Arrival(start, n, FIRST)) == FilledHub(start, n + 1)
  {
    FilledIs(start, n);
    hide FilledHub, Grown, Replaced, Discarded, Evicted, Opened;
    if n < MAX_UNBOUND_SESSIONS { FilledGrows(start, n); } else { FilledRegrows(start, n); }
  }

  /** What a step has to know of the full or filling buffer. */
  lemma FilledIs(start: Hub, n: nat)
    ensures var s := FilledHub(start, n);
      var oldest: nat := if n < MAX_UNBOUND_SESSIONS then 0 else n - MAX_UNBOUND_SESSIONS;
      && n !in s.unbound && n !in s.tombstones && |s.order| == n - oldest && |s.tombstones| == oldest
      && !s.stopping && s.generation == start.generation + 2 && s.routes == map[]
      && forall x :: x in s.unbound ==> s.unbound[x] == Buffered([FIRST], 1, false)
  {
    var oldest: nat := if n < MAX_UNBOUND_SESSIONS then 0 else n - MAX_UNBOUND_SESSIONS;
    BelowIs(n); BelowIs(oldest);
    hide Ids, Below;
  }

  lemma FilledGrows(start: Hub, n: nat)
    requires Unlinked(start) && n < MAX_UNBOUND_SESSIONS
    ensures Grown(Opened(FilledHub(start, n), n), n, FIRST) == FilledHub(start, n + 1)
  {
    hide Ids, Below, Grown, Replaced;
    FilledIs(start, n);
    OneFits(Opened(FilledHub(start, n), n), n, FIRST);
    FilledOpened(start, n);
  }

  lemma FilledRegrows(start: Hub, n: nat)
    requires Unlinked(start) && n >= MAX_UNBOUND_SESSIONS
    ensures FilledHub(start, n).order != [] && Grown(Opened(Evicted(FilledHub(start, n)), n), n, FIRST) == FilledHub(start, n + 1)
  {
    hide Below, Grown, Replaced, Discarded;
    FilledIs(start, n);
    FilledEvicted(start, n);
    OneFits(Opened(Evicted(FilledHub(start, n)), n), n, FIRST);
    FilledReopened(start, n);
  }

  /** The connection, and the first events of n sessions, after a reset that had nothing to close. */
  function LossyRun(start: Hub, n: nat): seq<Op> {
    if n == 0 then IdleReset(start) else LossyRun(start, n - 1) + [Arrival(start, n - 1, FIRST)]
  }

  lemma {:induction false} StepsAppend(s: Hub, l: Ledger, ops: seq<Op>, op: Op)
    ensures Steps(s, ops + [op]) == Step(Steps(s, ops), op)
    ensures LedgerOf(l, s, ops + [op]) == LedgerAfter(LedgerOf(l, s, ops), Steps(s, ops), op)
    ensures AllHeard(s, ops + [op]) <==> AllHeard(s, ops) && Heard(Steps(s, ops), op)
    decreases |ops|
  {
    hide Step, LedgerAfter, Heard;
    if ops == [] {
      assert (ops + [op])[1..] == [];
    } else {
      assert (ops + [op])[1..] == ops[1..] + [op];
      StepsAppend(Step(s, ops[0]), LedgerAfter(l, s, ops[0]), ops[1..], op);
    }
  }

  lemma FilledLedgerStep(start: Hub, n: nat)
    requires Unlinked(start) && n < MAX_UNBOUND_SESSIONS + MAX_TOMBSTONES
    ensures LedgerAfter(FilledLedger(n), FilledHub(start, n), Arrival(start, n, FIRST)) == FilledLedger(n + 1)
  {
    FilledStep(start, n);
    BelowIs(n);
    assert [] + [FIRST] == [FIRST];
    assert FilledLedger(n)[n := [FIRST]] == FilledLedger(n + 1);
    hide Step, Below, FilledLedger;
  }

  /** A run that leads to the n-th such hub and its ledger, over events that each come by a connection. */
  ghost predicate LeadsTo(start: Hub, l: Ledger, ops: seq<Op>, n: nat) {
    Steps(start, ops) == FilledHub(start, n) && LedgerOf(l, start, ops) == FilledLedger(n) && AllHeard(start, ops)
  }

  lemma LossyRunStarts(start: Hub, l: Ledger)
    requires Unlinked(start)
    ensures LeadsTo(start, l, IdleReset(start), 0)
  {
    var reset, link := ResetRequest(start.generation), Link(true, start.generation + 2);
    var s := Step(start, reset);
    assert IdleReset(start)[1..] == [link];
    assert Steps(start, IdleReset(start)) == Steps(s, [link]) == Step(s, link);
    assert LedgerAfter(l, start, reset) == map[];
    assert LedgerOf(map[], s, [link]) == map[];
    assert AllHeard(s, [link]);
  }

  lemma LossyRunStep(start: Hub, l: Ledger, n: nat)
    requires Unlinked(start) && n < MAX_UNBOUND_SESSIONS + MAX_TOMBSTONES && LeadsTo(start, l, LossyRun(start, n), n)
    ensures LeadsTo(start, l, LossyRun(start, n + 1), n + 1)
  {
    var op := Arrival(start, n, FIRST);
    assert Heard(FilledHub(start, n), op);
    hide Step, LedgerAfter, FilledHub, FilledLedger, Steps, LedgerOf, Heard, AllHeard, Arrival, Unlinked;
    StepsAppend(start, l, LossyRun(start, n), op);
    FilledStep(start, n);
    FilledLedgerStep(start, n);
  }

  lemma {:induction false} LossyRunFills(start: Hub, l: Ledger, n: nat)
    requires Unlinked(start) && n <= MAX_UNBOUND_SESSIONS + MAX_TOMBSTONES
    ensures LeadsTo(start, l, LossyRun(start, n), n)
  {
    hide *;
    if n == 0 {
      LossyRunIsReset(start);
      LossyRunStarts(start, l);
    } else {
      LossyRunFills(start, l, n - 1);
      LossyRunStep(start, l, n - 1);
    }
  }

  lemma LossyRunIsReset(start: Hub)
    ensures LossyRun(start, 0) == IdleReset(start)
  {
  }

  const FULL := MAX_UNBOUND_SESSIONS + MAX_TOMBSTONES

  lemma FullDiscards(start: Hub, s: Hub)
    requires s == FilledHub(start, FULL)
    ensures s.order[0] == MAX_TOMBSTONES && |s.order| == MAX_UNBOUND_SESSIONS && |s.tombstones| == MAX_TOMBSTONES
    ensures MAX_TOMBSTONES in s.unbound && MAX_TOMBSTONES !in s.tombstones && FULL !in s.unbound && FULL !in s.tombstones
    ensures Discarded(s, MAX_TOMBSTONES) == s.(order := Ids(MAX_TOMBSTONES + 1, FULL), unbound := s.unbound - {MAX_TOMBSTONES})
  {
    BelowIs(FULL);
    BelowIs(MAX_TOMBSTONES);
    IdsAppend(MAX_TOMBSTONES, FULL);
    hide Ids, Below;
  }

  /** Once the buffer and the tombstones are full, one more session silently drops the oldest one. */
  lemma FullOverruns(start: Hub, s: Hub, op: Op)
    requires s == FilledHub(start, FULL) && op == Arrival(start, FULL, FIRST)
    ensures Loses(s, op) && Step(s, op) == Discarded(s, MAX_TOMBSTONES)
    ensures Discarded(s, MAX_TOMBSTONES) == s.(order := Ids(MAX_TOMBSTONES + 1, FULL), unbound := s.unbound - {MAX_TOMBSTONES})
    ensures LedgerAfter(FilledLedger(FULL), s, op) == FilledLedger(FULL)[FULL := [FIRST]]
  {
    FullDiscards(start, s);
    BelowIs(FULL);
    hide Ids, Below, Discarded, Grown, Opened, Evicted;
    assert [] + [FIRST] == [FIRST];
  }

  /** A later event of the dropped session starts a buffer of its own. */
  lemma SuffixBuffered(s: Hub, id: LiveId)
    requires id !in s.unbound && id !in s.tombstones && |s.order| < MAX_UNBOUND_SESSIONS && s.maxEventBytes > 0
    requires forall x :: x in s.unbound ==> |s.unbound[x].events| <= 1 && s.unbound[x].bytes <= 1
    ensures Stored(s, id, SECOND) == Replaced(Opened(s, id), id, Buffered([SECOND], 1, false))
  {
    OneFits(Opened(s, id), id, SECOND);
  }

  /** Another event of the session that made room for the last one. */
  lemma SuffixStep(start: Hub, s: Hub, op: Op)
    requires Unlinked(start) && s == Discarded(FilledHub(start, FULL), MAX_TOMBSTONES) && op == Arrival(start, MAX_TOMBSTONES, SECOND)
    ensures Step(s, op) == Replaced(Opened(s, MAX_TOMBSTONES), MAX_TOMBSTONES, Buffered([SECOND], 1, false))
    ensures MAX_TOMBSTONES !in s.tombstones && s.routes == map[]
    ensures !Resets(s, op) && Early(s, op)
  {
    FullOverruns(start, FilledHub(start, FULL), Arrival(start, FULL, FIRST));
    BelowIs(MAX_TOMBSTONES);
    hide Ids, Below, Discarded, Overrun;
    SuffixBuffered(s, MAX_TOMBSTONES);
    hide Stored, FilledHub;
  }

  lemma SuffixFlushed(s: Hub, id: LiveId, owner: Owner)
    requires id !in s.tombstones && s.routes == map[]
    ensures var s' := Replaced(Opened(s, id), id, Buffered([SECOND], 1, false));
      var s'' := Step(Step(s', Bind(id, owner)), Attach(owner));
      Deliveries(s'', Flush(id)) == [Delivery(owner, id, SECOND)]
  {
  }

  lemma SuffixLedger(l: Ledger, s: Hub, op: Op)
    requires l == FilledLedger(FULL)[FULL := [FIRST]] && op.Route? && op.id == MAX_TOMBSTONES && op.event == SECOND
    requires !Resets(s, op) && Early(s, op)
    ensures Past(LedgerAfter(l, s, op), MAX_TOMBSTONES) == [FIRST, SECOND]
  {
    BelowIs(FULL);
    hide Below;
    assert [FIRST] + [SECOND] == [FIRST, SECOND];
  }

  function SuffixRun(start: Hub): seq<Op> {
    LossyRun(start, FULL) + [Arrival(start, FULL, FIRST)] + [Arrival(start, MAX_TOMBSTONES, SECOND)]
  }

  lemma SuffixRunLoses(start: Hub, l: Ledger)
    requires Unlinked(start)
    ensures Past(LedgerOf(l, start, SuffixRun(start)), MAX_TOMBSTONES) == [FIRST, SECOND]
    ensures var s := Discarded(FilledHub(start, FULL), MAX_TOMBSTONES);
      && Steps(start, SuffixRun(start)) == Replaced(Opened(s, MAX_TOMBSTONES), MAX_TOMBSTONES, Buffered([SECOND], 1, false))
      && MAX_TOMBSTONES !in s.tombstones && s.routes == map[]
    ensures AllHeard(start, SuffixRun(start))
  {
    var a, b := Arrival(start, FULL, FIRST), Arrival(start, MAX_TOMBSTONES, SECOND);
    LossyRunFills(start, l, FULL);
    FullOverruns(start, FilledHub(start, FULL), a);
    SuffixStep(start, Discarded(FilledHub(start, FULL), MAX_TOMBSTONES), b);
    SuffixLedger(FilledLedger(FULL)[FULL := [FIRST]], Discarded(FilledHub(start, FULL), MAX_TOMBSTONES), b);
    assert Heard(FilledHub(start, FULL), a) && Heard(Discarded(FilledHub(start, FULL), MAX_TOMBSTONES), b);
    hide LossyRun, FilledHub, FilledLedger, Steps, LedgerOf, LedgerAfter, Step, Discarded, Ids, Past, AllHeard, Heard, Arrival;
    StepsAppend(start, l, LossyRun(start, FULL), a);
    StepsAppend(start, l, LossyRun(start, FULL) + [a], b);
  }

  /** Whenever such a reset is requested, there is a run from there that breaks all-or-resync: the flush
      delivers a proper suffix of what was routed. */
  lemma SuffixDelivered(start: Hub, l: Ledger, op: Op, owner: Owner)
    requires ResetsUnlinked(start, op) && start.maxEventBytes > 0
    ensures var ops := SuffixRun(start) + [Bind(MAX_TOMBSTONES, owner)] + [Attach(owner)];
      && ops[0] == op && AllHeard(start, ops)
      && Past(LedgerOf(l, start, ops), MAX_TOMBSTONES) == [FIRST, SECOND]
      && Deliveries(Steps(start, ops), Flush(MAX_TOMBSTONES)) == [Delivery(owner, MAX_TOMBSTONES, SECOND)]
  {
    SuffixRunLoses(start, l);
    SuffixFlushed(Discarded(FilledHub(start, FULL), MAX_TOMBSTONES), MAX_TOMBSTONES, owner);
    LossyRunOpens(start, FULL);
    hide SuffixRun, FilledHub, Steps, LedgerOf, Step, Discarded, Opened, Replaced, Deliveries, Past, AllHeard;
    StepsAppend(start, l, SuffixRun(start), Bind(MAX_TOMBSTONES, owner));
    StepsAppend(start, l, SuffixRun(start) + [Bind(MAX_TOMBSTONES, owner)], Attach(owner));
  }

  lemma {:induction false} LossyRunOpens(start: Hub, n: nat)
    ensures LossyRun(start, n) != [] && LossyRun(start, n)[0] == ResetRequest(start.generation)
  {
    if n > 0 { LossyRunOpens(start, n - 1); }
  }

  // ---- Every loss shows --------------------------------------------------------------------------

  lemma LosingStep(s: Hub, l: Ledger, op: Op)
    requires Within(s) && Faithful(s, l) && Loses(s, op)
    ensures var lost := s.order[0];
      && lost in l && l[lost] != [] && op.id != lost
      && Step(s, op) == Discarded(s, lost) && LedgerAfter(l, s, op) == l[op.id := Past(l, op.id) + [op.event]]
      && lost !in s.tombstones && |s.order| == MAX_UNBOUND_SESSIONS
  {
    WithinIndexed(s);
    OldestBuffered(s);
    hide Within, Sum, Discarded;
    assert s.order[0] in s.tombstones + s.unbound.Keys;
    ResetEmpties(Discarded(s, s.order[0]));
  }

  lemma DiscardedIs(s: Hub, id: LiveId)
    requires Within(s) && id in s.unbound
    ensures var s' := Discarded(s, id);
      && s' == s.(order := s'.order, unbound := s'.unbound) && id !in s'.unbound && |s'.order| == |s.order| - 1
  {
    DiscardedTotals(s, id);
  }

  /** An owner that binds a session of which nothing is held is handed nothing. */
  lemma HandedNothing(s: Hub, l: Ledger, id: LiveId, owner: Owner)
    requires id !in s.unbound && id !in s.tombstones && id in l
    ensures var s1 := Step(s, Bind(id, owner));
      var s2 := Step(s1, Attach(owner));
      var l2 := LedgerAfter(LedgerAfter(l, s, Bind(id, owner)), s1, Attach(owner));
      && l2 == l && id in s2.routes && Deliveries(s2, Flush(id)) == []
      && (l[id] != [] ==> !AllOrNotice(s2, l2, id))
  {
  }

  /** One that binds a session of which one event is held is handed that one. */
  lemma HandedOne(s: Hub, l: Ledger, id: LiveId, owner: Owner, e: Event)
    requires id in s.unbound && s.unbound[id].events == [e] && !s.unbound[id].dropped && id !in s.tombstones && id in l
    ensures var s1 := Step(s, Bind(id, owner));
      var s2 := Step(s1, Attach(owner));
      var l2 := LedgerAfter(LedgerAfter(l, s, Bind(id, owner)), s1, Attach(owner));
      && l2 == l && id in s2.routes && Deliveries(s2, Flush(id)) == [Delivery(owner, id, e)]
      && (|l[id]| > 1 ==> !AllOrNotice(s2, l2, id))
  {
  }

  lemma FurtherEvent(s: Hub, l: Ledger, id: LiveId, e: Event)
    requires id !in s.unbound && id !in s.tombstones && |s.order| < MAX_UNBOUND_SESSIONS && id !in s.routes && !s.stopping
    requires Fits(Opened(s, id), id, e)
    ensures var s' := Step(s, Route(s.generation, id, e));
      && id in s'.unbound && s'.unbound[id].events == [e] && !s'.unbound[id].dropped && id !in s'.tombstones
      && LedgerAfter(l, s, Route(s.generation, id, e)) == l[id := Past(l, id) + [e]]
  {
    assert [] + [e] == [e];
    hide Fits;
    assert Stored(s, id, e) == Grown(Opened(s, id), id, e);
  }

  /** After any losing step the lost session's next owner is handed nothing, though events were routed. */
  lemma LossShows(s: Hub, l: Ledger, op: Op, owner: Owner)
    requires Within(s) && Faithful(s, l) && Loses(s, op)
    ensures var lost, ops := s.order[0], [op] + [Bind(s.order[0], owner)] + [Attach(owner)];
      && Past(LedgerOf(l, s, ops), lost) == Past(l, lost) != [] && lost in Steps(s, ops).routes
      && Deliveries(Steps(s, ops), Flush(lost)) == [] && !AllOrNotice(Steps(s, ops), LedgerOf(l, s, ops), lost)
  {
    var lost := s.order[0];
    LosingStep(s, l, op);
    OldestBuffered(s);
    DiscardedIs(s, lost);
    FirstStep(s, l, op);
    var s', l' := Step(s, op), LedgerAfter(l, s, op);
    hide Step, Steps, LedgerOf, LedgerAfter, Within, Faithful, Loses, Deliveries, AllOrNotice, Discarded;
    HandedNothing(s', l', lost, owner);
    StepsAppend(s, l, [op], Bind(lost, owner));
    StepsAppend(s, l, [op] + [Bind(lost, owner)], Attach(owner));
  }

  lemma FirstStep(s: Hub, l: Ledger, op: Op)
    ensures Steps(s, [op]) == Step(s, op) && LedgerOf(l, s, [op]) == LedgerAfter(l, s, op)
  {
    StepsAppend(s, l, [], op);
    assert [] + [op] == [op];
  }

  /** With a further event in between, it is handed that one alone: a proper suffix, and no notice. */
  lemma LossDeliversSuffix(s: Hub, l: Ledger, op: Op, e: Event, owner: Owner)
    requires Within(s) && Faithful(s, l) && Loses(s, op) && s.order[0] !in s.routes
    requires s.order[0] in Opened(Step(s, op), s.order[0]).unbound && Fits(Opened(Step(s, op), s.order[0]), s.order[0], e)
    ensures var lost, ops := s.order[0], [op] + [Route(s.generation, s.order[0], e)] + [Bind(s.order[0], owner)] + [Attach(owner)];
      && Past(LedgerOf(l, s, ops), lost) == Past(l, lost) + [e] && Past(l, lost) != [] && lost in Steps(s, ops).routes
      && Deliveries(Steps(s, ops), Flush(lost)) == [Delivery(owner, lost, e)]
      && !AllOrNotice(Steps(s, ops), LedgerOf(l, s, ops), lost)
  {
    var lost, further := s.order[0], Route(s.generation, s.order[0], e);
    LosingStep(s, l, op);
    OldestBuffered(s);
    DiscardedIs(s, lost);
    FirstStep(s, l, op);
    assert !s.stopping;
    var s', l' := Step(s, op), LedgerAfter(l, s, op);
    hide Step, Steps, LedgerOf, LedgerAfter, Within, Faithful, Loses, Deliveries, AllOrNotice, Discarded, Fits, Opened;
    FurtherEvent(s', l', lost, e);
    StepsAppend(s, l, [op], further);
    HandedOne(Step(s', further), LedgerAfter(l', s', further), lost, owner, e);
    StepsAppend(s, l, [op] + [further], Bind(lost, owner));
    StepsAppend(s, l, [op] + [further] + [Bind(lost, owner)], Attach(owner));
  }
}
