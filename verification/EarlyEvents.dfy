/**
 The events the shared upstream delivers for a live session nobody has bound yet, as the hub is meant
 to keep them: per session, in insertion order, within fixed limits. Totals are recomputed here; the
 running counters are the business of ChatUpstreamHub.
 */
module EarlyEvents {
  import opened FiniteSequences
  import opened FiniteSets
  import opened Outcomes

  const MAX_UNBOUND_SESSIONS := 64
  const MAX_UNBOUND_EVENTS := 128
  const MAX_EVENTS_PER_SESSION := 32
  const MAX_UNBOUND_BYTES := 256 * 1024
  const MAX_TOMBSTONES := 2 * MAX_UNBOUND_SESSIONS

  type Owner = nat
  type LiveId = nat   // only ever compared

  /** An upstream event, with the length of its JSON text when it has one. */
  datatype Event = Event(body: string, json: Option<nat>)

  datatype Buffered = Buffered(events: seq<Event>, bytes: nat, dropped: bool)

  /** A reset is over, awaits a transport, or was already over when it was recorded as running. */
  datatype Resetting = Idle | Running | Stuck

  datatype Hub = Hub(
    order: seq<LiveId>, unbound: map<LiveId, Buffered>, tombstones: set<LiveId>,
    resetting: Resetting, linked: bool, generation: nat, stopping: bool,
    routes: map<LiveId, Owner>, subscribers: set<Owner>, maxEventBytes: nat)

  datatype Delivery = Delivery(owner: Owner, sessionId: LiveId, event: Event) | Resync(owner: Owner, sessionId: LiveId)

  /** Per live session, every event routed while nobody owned it since it was last taken, discarded or reset. */
  type Ledger = map<LiveId, seq<Event>>

  // ---- Sums over the buffer ----------------------------------------------------------------------

  function Sum(ids: seq<LiveId>, f: LiveId -> nat): nat {
    if ids == [] then 0 else f(ids[0]) + Sum(ids[1..], f)
  }

  function EventsOf(unbound: map<LiveId, Buffered>): LiveId -> nat {
    id => if id in unbound then |unbound[id].events| else 0
  }

  function BytesOf(unbound: map<LiveId, Buffered>): LiveId -> nat {
    id => if id in unbound then unbound[id].bytes else 0
  }

  lemma {:induction false} SumSame(ids: seq<LiveId>, f: LiveId -> nat, g: LiveId -> nat)
    requires forall x :: x in ids ==> f(x) == g(x)
    ensures Sum(ids, f) == Sum(ids, g)
  {
    if ids != [] { SumSame(ids[1..], f, g); }
  }

  lemma {:induction false} SumChange(ids: seq<LiveId>, f: LiveId -> nat, g: LiveId -> nat, id: LiveId)
    requires Distinct(ids) && id in ids
    requires forall x :: x in ids && x != id ==> f(x) == g(x)
    ensures Sum(ids, g) + f(id) == Sum(ids, f) + g(id)
  {
    if ids[0] == id {
      SumSame(ids[1..], f, g);
    } else {
      SumChange(ids[1..], f, g, id);
    }
  }

  lemma {:induction false} SumAppend(ids: seq<LiveId>, f: LiveId -> nat, id: LiveId)
    ensures Sum(ids + [id], f) == Sum(ids, f) + f(id)
  {
    if ids != [] {
      SumAppend(ids[1..], f, id);
      assert (ids + [id])[1..] == ids[1..] + [id];
    }
  }

  lemma SumOpened(ids: seq<LiveId>, f: LiveId -> nat, g: LiveId -> nat, id: LiveId)
    requires (forall x :: x in ids ==> f(x) == g(x)) && g(id) == 0
    ensures Sum(ids + [id], g) == Sum(ids, f)
  {
    SumAppend(ids, g, id);
    SumSame(ids, f, g);
  }

  lemma {:induction false} SumWithout(ids: seq<LiveId>, f: LiveId -> nat, g: LiveId -> nat, id: LiveId)
    requires Distinct(ids) && id in ids
    requires forall x :: x in ids && x != id ==> f(x) == g(x)
    ensures Sum(Without(ids, id), g) + f(id) == Sum(ids, f)
  {
    if ids[0] == id {
      SumSame(ids[1..], f, g);
    } else {
      SumWithout(ids[1..], f, g, id);
      assert ([ids[0]] + Without(ids[1..], id))[1..] == Without(ids[1..], id);
    }
  }

  // ---- The steps ---------------------------------------------------------------------------------

  function Size(max: nat, e: Event): nat {
    if e.json.Some? then e.json.value else max + 1
  }

  function EventSum(order: seq<LiveId>, unbound: map<LiveId, Buffered>): nat { Sum(order, EventsOf(unbound)) }

  function ByteSum(order: seq<LiveId>, unbound: map<LiveId, Buffered>): nat { Sum(order, BytesOf(unbound)) }

  function Count(s: Hub): nat { EventSum(s.order, s.unbound) }

  function Bytes(s: Hub): nat { ByteSum(s.order, s.unbound) }

  function Discarded(s: Hub, id: LiveId): Hub {
    if id in s.unbound then s.(order := Without(s.order, id), unbound := s.unbound - {id}) else s
  }

  function Forgotten(s: Hub, id: LiveId): Hub {
    Discarded(s, id).(tombstones := s.tombstones - {id})
  }

  function Cleared(s: Hub): Hub {
    s.(order := [], unbound := map[], tombstones := {})
  }

  function Unavailable(s: Hub, generation: nat): Hub {
    if s.stopping || generation != s.generation then s
    else Cleared(s).(generation := s.generation + 1, linked := false, routes := map[])
  }

  /** A reset with nothing to close is over before it is recorded, and the record then stays. */
  function Reset(s: Hub, generation: nat): Hub {
    if s.resetting != Idle || s.stopping || generation != s.generation then s
    else Unavailable(s, generation).(resetting := if s.linked then Running else Stuck)
  }

  function Fits(s: Hub, id: LiveId, e: Event): bool
    requires id in s.unbound
  {
    && Size(s.maxEventBytes, e) <= s.maxEventBytes && |s.unbound[id].events| < MAX_EVENTS_PER_SESSION
    && Count(s) < MAX_UNBOUND_EVENTS && Bytes(s) + Size(s.maxEventBytes, e) <= MAX_UNBOUND_BYTES
  }

  function Grown(s: Hub, id: LiveId, e: Event): Hub
    requires id in s.unbound
  {
    var b := s.unbound[id];
    if b.dropped then s
    else if Fits(s, id, e) then
      Replaced(s, id, Buffered(b.events + [e], b.bytes + Size(s.maxEventBytes, e), false))
    else Replaced(s, id, Buffered([], 0, true))
  }

  function Opened(s: Hub, id: LiveId): Hub {
    s.(order := s.order + [id], unbound := s.unbound[id := Buffered([], 0, false)])
  }

  /** The oldest session makes room, leaving a tombstone. */
  function Evicted(s: Hub): Hub
    requires s.order != []
  {
    Discarded(s, s.order[0]).(tombstones := s.tombstones + {s.order[0]})
  }

  /** Room is needed for one more session and one more tombstone, and there is room for neither. */
  predicate Overrun(s: Hub, id: LiveId) {
    && id !in s.tombstones && id !in s.unbound
    && |s.order| >= MAX_UNBOUND_SESSIONS && s.order[0] !in s.tombstones && |s.tombstones| >= MAX_TOMBSTONES
  }

  function Stored(s: Hub, id: LiveId, e: Event): Hub {
    if id in s.tombstones then s
    else if id in s.unbound then Grown(s, id, e)
    else if |s.order| < MAX_UNBOUND_SESSIONS then Grown(Opened(s, id), id, e)
    else if Overrun(s, id) then Reset(Discarded(s, s.order[0]), s.generation)
    else Grown(Opened(Evicted(s), id), id, e)
  }

  datatype Op =
    | Route(generation: nat, id: LiveId, event: Event)
    | Flush(id: LiveId)
    | Discard(id: LiveId)
    | ResetRequest(generation: nat)
    | LinkLost(generation: nat)
    | ResetDone
    | Link(linked: bool, generation: nat)
    | Bind(id: LiveId, owner: Owner)
    | Unbind(id: LiveId)
    | Attach(owner: Owner)
    | Detach(owner: Owner)
    | Close

  predicate Accepted(s: Hub, op: Op) {
    op.Route? && !s.stopping && op.generation == s.generation
  }

  /** The event is for a live session nobody owns, so it has to be kept. */
  predicate Early(s: Hub, op: Op) {
    Accepted(s, op) && op.id !in s.routes
  }

  function Step(s: Hub, op: Op): Hub {
    match op
    case Route(generation, id, event) => if Early(s, op) then Stored(s, id, event) else s
    case Flush(id) => Forgotten(s, id)
    case Discard(id) => Forgotten(s, id)
    case ResetRequest(generation) => Reset(s, generation)
    case LinkLost(generation) => Unavailable(s, generation)
    case ResetDone => s.(resetting := if s.resetting == Running then Idle else s.resetting)
    case Link(linked, generation) => s.(linked := linked, generation := if generation > s.generation then generation else s.generation)
    case Bind(id, owner) => s.(routes := s.routes[id := owner])
    case Unbind(id) => s.(routes := s.routes - {id})
    case Attach(owner) => s.(subscribers := s.subscribers + {owner})
    case Detach(owner) => s.(subscribers := s.subscribers - {owner})
    case Close =>
      if s.stopping then s
      else Cleared(s).(stopping := true, generation := s.generation + 1, linked := false, resetting := Idle,
                       routes := map[], subscribers := {})
  }

  function Steps(s: Hub, ops: seq<Op>): Hub
    decreases |ops|
  {
    if ops == [] then s else Steps(Step(s, ops[0]), ops[1..])
  }

  /** What a step hands to a subscriber. */
  function Deliveries(s: Hub, op: Op): seq<Delivery> {
    if Accepted(s, op) && op.id in s.routes && s.routes[op.id] in s.subscribers then
      [Delivery(s.routes[op.id], op.id, op.event)]
    else if op.Flush? && op.id in s.routes && s.routes[op.id] in s.subscribers then
      var owner := s.routes[op.id];
      if op.id in s.tombstones then [Resync(owner, op.id)]
      else if op.id !in s.unbound then []
      else if s.unbound[op.id].dropped then [Resync(owner, op.id)]
      else Addressed(owner, op.id, s.unbound[op.id].events)
    else []
  }

  function Addressed(owner: Owner, id: LiveId, events: seq<Event>): seq<Delivery> {
    seq(|events|, i requires 0 <= i < |events| => Delivery(owner, id, events[i]))
  }

  // ---- The buffer stays within its limits --------------------------------------------------------

  function Weight(max: nat, events: seq<Event>): nat {
    if events == [] then 0 else Weight(max, events[..|events| - 1]) + Size(max, events[|events| - 1])
  }

  ghost predicate Sized(max: nat, b: Buffered) {
    && |b.events| <= MAX_EVENTS_PER_SESSION && (b.dropped ==> b.events == [])
    && b.bytes == Weight(max, b.events) && (forall e :: e in b.events ==> Size(max, e) <= max)
  }

  ghost predicate AllSized(s: Hub) {
    forall id :: id in s.unbound ==> Sized(s.maxEventBytes, s.unbound[id])
  }

  /** The insertion order lists the buffered sessions. */
  ghost predicate Indexed(s: Hub) {
    Distinct(s.order) && (forall id :: id in s.order <==> id in s.unbound)
  }

  predicate Bounded(s: Hub) {
    && |s.order| <= MAX_UNBOUND_SESSIONS && |s.tombstones| <= MAX_TOMBSTONES
    && Count(s) <= MAX_UNBOUND_EVENTS && Bytes(s) <= MAX_UNBOUND_BYTES
  }

  ghost predicate Within(s: Hub) {
    Indexed(s) && AllSized(s) && Bounded(s) && s.tombstones !! s.unbound.Keys
  }

  lemma WithinIndexed(s: Hub)
    requires Within(s)
    ensures Indexed(s) && |s.order| <= MAX_UNBOUND_SESSIONS
  {
  }

  lemma DiscardedTotals(s: Hub, id: LiveId)
    requires Indexed(s) && id in s.unbound
    ensures Indexed(Discarded(s, id)) && |Discarded(s, id).order| == |s.order| - 1
    ensures Count(s) == Count(Discarded(s, id)) + |s.unbound[id].events|
    ensures Bytes(s) == Bytes(Discarded(s, id)) + s.unbound[id].bytes
  {
    hide Sum, Without, Distinct;
    WithoutIs(s.order, id);
    SumWithout(s.order, EventsOf(s.unbound), EventsOf(s.unbound - {id}), id);
    SumWithout(s.order, BytesOf(s.unbound), BytesOf(s.unbound - {id}), id);
  }

  lemma DiscardedWithin(s: Hub, id: LiveId)
    requires Within(s)
    ensures Within(Discarded(s, id))
  {
    if id in s.unbound { DiscardedTotals(s, id); }
  }

  lemma OpenedTotals(s: Hub, id: LiveId)
    requires Indexed(s) && id !in s.unbound
    ensures Indexed(Opened(s, id)) && Count(Opened(s, id)) == Count(s) && Bytes(Opened(s, id)) == Bytes(s)
  {
    var s' := Opened(s, id);
    hide Sum;
    SumOpened(s.order, EventsOf(s.unbound), EventsOf(s'.unbound), id);
    SumOpened(s.order, BytesOf(s.unbound), BytesOf(s'.unbound), id);
  }

  lemma OpenedWithin(s: Hub, id: LiveId)
    requires Within(s) && |s.order| < MAX_UNBOUND_SESSIONS && id !in s.unbound && id !in s.tombstones
    ensures Within(Opened(s, id))
  {
    OpenedTotals(s, id);
  }

  function Replaced(s: Hub, id: LiveId, b: Buffered): Hub {
    s.(unbound := s.unbound[id := b])
  }

  lemma ReplacedTotals(s: Hub, id: LiveId, b: Buffered)
    requires Indexed(s) && id in s.unbound
    ensures Indexed(Replaced(s, id, b))
    ensures Count(Replaced(s, id, b)) + |s.unbound[id].events| == Count(s) + |b.events|
    ensures Bytes(Replaced(s, id, b)) + s.unbound[id].bytes == Bytes(s) + b.bytes
  {
    var s' := Replaced(s, id, b);
    SumChange(s.order, EventsOf(s.unbound), EventsOf(s'.unbound), id);
    SumChange(s.order, BytesOf(s.unbound), BytesOf(s'.unbound), id);
  }

  lemma ReplacedWithin(s: Hub, id: LiveId, b: Buffered)
    requires Within(s) && id in s.unbound && Sized(s.maxEventBytes, b)
    requires Count(s) + |b.events| <= MAX_UNBOUND_EVENTS + |s.unbound[id].events|
    requires Bytes(s) + b.bytes <= MAX_UNBOUND_BYTES + s.unbound[id].bytes
    ensures Within(Replaced(s, id, b))
  {
    hide Count, Bytes, Sized;
    ReplacedTotals(s, id, b);
  }

  lemma GrownWithin(s: Hub, id: LiveId, e: Event)
    requires Within(s) && id in s.unbound
    ensures Within(Grown(s, id, e))
  {
    hide Count, Bytes, Indexed;
    var b := s.unbound[id];
    assert Sized(s.maxEventBytes, b);
    assert (b.events + [e])[..|b.events|] == b.events;
    if !b.dropped && Fits(s, id, e) {
      ReplacedWithin(s, id, Buffered(b.events + [e], b.bytes + Size(s.maxEventBytes, e), false));
    } else if !b.dropped {
      ReplacedWithin(s, id, Buffered([], 0, true));
    }
  }

  // ---- Every step stays within the limits --------------------------------------------------------

  lemma EvictedWithin(s: Hub)
    requires Within(s) && s.order != [] && |s.tombstones| < MAX_TOMBSTONES
    ensures Within(Evicted(s)) && |Evicted(s).order| == |s.order| - 1
  {
    DiscardedTotals(s, s.order[0]);
  }

  /** A reset leaves the buffer empty, or everything as it was. */
  lemma ResetWithin(s: Hub, generation: nat)
    requires Within(s)
    ensures Within(Unavailable(s, generation)) && Within(Reset(s, generation)) && Within(Cleared(s))
  {
    assert Within(Cleared(s));
  }

  lemma StoredWithin(s: Hub, id: LiveId, e: Event)
    requires Within(s)
    ensures Within(Stored(s, id, e))
  {
    hide Count, Bytes, Sized;
    if id !in s.tombstones && id !in s.unbound {
      if |s.order| < MAX_UNBOUND_SESSIONS {
        OpenedWithin(s, id);
        GrownWithin(Opened(s, id), id, e);
      } else if Overrun(s, id) {
        DiscardedWithin(s, s.order[0]);
        ResetWithin(Discarded(s, s.order[0]), s.generation);
      } else {
        EvictedWithin(s);
        OpenedWithin(Evicted(s), id);
        GrownWithin(Opened(Evicted(s), id), id, e);
      }
    } else if id in s.unbound {
      GrownWithin(s, id, e);
    }
  }

  lemma StepWithin(s: Hub, op: Op)
    requires Within(s)
    ensures Within(Step(s, op))
  {
    hide Indexed, AllSized, Count, Bytes, Stored, Discarded, Reset, Unavailable;
    match op
    case Route(generation, id, event) => StoredWithin(s, id, event);
    case Flush(id) => ForgottenWithin(s, id);
    case Discard(id) => ForgottenWithin(s, id);
    case ResetRequest(generation) => ResetWithin(s, generation);
    case LinkLost(generation) => ResetWithin(s, generation);
    case ResetDone => SameBuffer(s, Step(s, op));
    case Link(linked, generation) => SameBuffer(s, Step(s, op));
    case Bind(id, owner) => SameBuffer(s, Step(s, op));
    case Unbind(id) => SameBuffer(s, Step(s, op));
    case Attach(owner) => SameBuffer(s, Step(s, op));
    case Detach(owner) => SameBuffer(s, Step(s, op));
    case Close =>
      ResetWithin(s, s.generation);
      if !s.stopping { SameBuffer(Cleared(s), Step(s, op)); }
  }

  lemma SameBuffer(s: Hub, s': Hub)
    requires Within(s) && s'.order == s.order && s'.unbound == s.unbound
    requires s'.tombstones == s.tombstones && s'.maxEventBytes == s.maxEventBytes
    ensures Within(s')
  {
  }

  lemma ForgottenWithin(s: Hub, id: LiveId)
    requires Within(s)
    ensures Within(Forgotten(s, id))
  {
    DiscardedWithin(s, id);
    SubsetSize(s.tombstones - {id}, s.tombstones);
  }

  // ---- All or resync -----------------------------------------------------------------------------

  function Past(l: Ledger, id: LiveId): seq<Event> {
    if id in l then l[id] else []
  }

  predicate Resets(s: Hub, op: Op) {
    (op.Route? || op.ResetRequest? || op.LinkLost? || op.Close?) && Step(s, op).generation != s.generation
  }

  function LedgerAfter(l: Ledger, s: Hub, op: Op): Ledger {
    if Resets(s, op) then map[]
    else if Early(s, op) then l[op.id := Past(l, op.id) + [op.event]]
    else if op.Flush? || op.Discard? then l - {op.id}
    else l
  }

  /** A step other than routing hands over nothing but what a flush takes, and leaves this ledger. */
  lemma QuietStep(s: Hub, l: Ledger, op: Op)
    requires !op.Route? && !op.Flush?
    ensures Deliveries(s, op) == []
    ensures LedgerAfter(l, s, op) ==
      if op.Discard? then l - {op.id}
      else if op.ResetRequest? && s.resetting != Idle then l
      else if (op.ResetRequest? || op.LinkLost?) && !s.stopping && op.generation == s.generation then map[]
      else if op.Close? && !s.stopping then map[]
      else l
  {
  }

  /** What is buffered for a session is all that was routed early, unless the session is marked for a resync. */
  ghost predicate Faithful(s: Hub, l: Ledger) {
    && l.Keys == s.tombstones + s.unbound.Keys && (forall id :: id in l ==> l[id] != [])
    && (forall id :: id in s.unbound ==> s.unbound[id].dropped || s.unbound[id].events == l[id])
  }

  /** The one step that loses events: a reset is needed to make room, but one is recorded as running. */
  predicate Loses(s: Hub, op: Op) {
    Early(s, op) && Overrun(s, op.id) && s.resetting != Idle
  }

  lemma GrownFaithful(s: Hub, l: Ledger, id: LiveId, e: Event)
    requires id in s.unbound && l.Keys + {id} == s.tombstones + s.unbound.Keys
    requires forall x :: x in l ==> l[x] != []
    requires forall x :: x in s.unbound ==> s.unbound[x].dropped || s.unbound[x].events == Past(l, x)
    ensures Faithful(Grown(s, id, e), l[id := Past(l, id) + [e]])
    ensures Grown(s, id, e).generation == s.generation
  {
    hide Fits;
    var s' := Grown(s, id, e);
    assert s'.unbound.Keys == s.unbound.Keys;
  }

  lemma OpenedFaithful(s: Hub, l: Ledger, id: LiveId, e: Event)
    requires Faithful(s, l) && id !in s.unbound && id !in s.tombstones
    ensures Faithful(Grown(Opened(s, id), id, e), l[id := Past(l, id) + [e]])
    ensures Grown(Opened(s, id), id, e).generation == s.generation
  {
    hide Grown;
    GrownFaithful(Opened(s, id), l, id, e);
  }

  lemma EvictedFaithful(s: Hub, l: Ledger)
    requires Within(s) && Faithful(s, l) && s.order != []
    ensures Faithful(Evicted(s), l) && Evicted(s).generation == s.generation
    ensures Evicted(s).unbound.Keys <= s.unbound.Keys && Evicted(s).tombstones == s.tombstones + {s.order[0]} && s.order[0] in s.unbound
  {
    hide Bounded, AllSized;
    assert s.order[0] in s.order;
    assert s.tombstones + s.unbound.Keys == Evicted(s).tombstones + Evicted(s).unbound.Keys;
  }

  lemma TombstonedFaithful(s: Hub, l: Ledger, id: LiveId, e: Event)
    requires Faithful(s, l) && id in s.tombstones
    ensures id !in s.unbound ==> Faithful(s, l[id := Past(l, id) + [e]])
  {
    assert l.Keys + {id} == l.Keys;
  }

  /** An overrun drops the oldest prefix without a trace and the new event with it. */
  lemma DroppedUnfaithful(s: Hub, l: Ledger, oldest: LiveId, kept: Ledger)
    requires Faithful(s, l) && oldest in s.unbound && oldest !in s.tombstones && l.Keys <= kept.Keys
    ensures !Faithful(Discarded(s, oldest), kept)
  {
    assert oldest in kept && oldest !in Discarded(s, oldest).unbound;
  }

  lemma OldestBuffered(s: Hub)
    requires Within(s) && s.order != []
    ensures s.order[0] in s.unbound && s.order[0] !in s.tombstones
    ensures var s' := Discarded(s, s.order[0]);
      s'.generation == s.generation && s'.resetting == s.resetting && s'.stopping == s.stopping
  {
    assert s.order[0] in s.order;
  }

  lemma ResetEmpties(s: Hub)
    requires !s.stopping
    ensures if s.resetting != Idle then Reset(s, s.generation) == s
            else Faithful(Reset(s, s.generation), map[]) && Reset(s, s.generation).generation == s.generation + 1
  {
  }

  lemma OverrunFaithful(s: Hub, l: Ledger, id: LiveId, e: Event)
    requires Within(s) && Faithful(s, l) && !s.stopping && s.order != []
    ensures var s' := Reset(Discarded(s, s.order[0]), s.generation);
      if s.resetting == Idle then Faithful(s', map[]) && s'.generation != s.generation
      else !Faithful(s', l[id := Past(l, id) + [e]]) && s'.generation == s.generation
  {
    hide *;
    OldestBuffered(s);
    ResetEmpties(Discarded(s, s.order[0]));
    DroppedUnfaithful(s, l, s.order[0], l[id := Past(l, id) + [e]]);
  }

  lemma BufferedFaithful(s: Hub, l: Ledger, id: LiveId, e: Event)
    requires Faithful(s, l) && id in s.unbound
    ensures Faithful(Grown(s, id, e), l[id := Past(l, id) + [e]]) && Grown(s, id, e).generation == s.generation
  {
    hide Grown;
    GrownFaithful(s, l, id, e);
  }

  lemma ReopenedFaithful(s: Hub, l: Ledger, id: LiveId, e: Event)
    requires Within(s) && Faithful(s, l) && s.order != [] && id !in s.unbound && id !in s.tombstones
    ensures var s' := Grown(Opened(Evicted(s), id), id, e);
      Faithful(s', l[id := Past(l, id) + [e]]) && s'.generation == s.generation
  {
    OldestBuffered(s);
    EvictedFaithful(s, l);
    hide *;
    OpenedFaithful(Evicted(s), l, id, e);
  }

  lemma StoredFaithful(s: Hub, l: Ledger, id: LiveId, e: Event)
    requires Within(s) && Faithful(s, l) && !s.stopping && !Overrun(s, id)
    ensures Faithful(Stored(s, id, e), l[id := Past(l, id) + [e]]) && Stored(s, id, e).generation == s.generation
  {
    assert id in s.tombstones ==> id !in s.unbound;
    hide Faithful, Within, Grown, Evicted, Opened, Reset, Discarded, Overrun, Past;
    if id in s.tombstones {
      TombstonedFaithful(s, l, id, e);
    } else if id in s.unbound {
      BufferedFaithful(s, l, id, e);
    } else if |s.order| < MAX_UNBOUND_SESSIONS {
      OpenedFaithful(s, l, id, e);
    } else {
      ReopenedFaithful(s, l, id, e);
    }
  }

  lemma ForgottenFaithful(s: Hub, l: Ledger, id: LiveId)
    requires Faithful(s, l)
    ensures Faithful(Forgotten(s, id), l - {id})
  {
    assert Forgotten(s, id).unbound.Keys == s.unbound.Keys - {id};
  }

  /** Every step keeps the buffer faithful to what was routed, except exactly the one that loses events. */
  lemma StepFaithful(s: Hub, l: Ledger, op: Op)
    requires Within(s) && Faithful(s, l)
    ensures Faithful(Step(s, op), LedgerAfter(l, s, op)) <==> !Loses(s, op)
  {
    hide Bounded, AllSized, Grown, Evicted, Opened, Discarded;
    if Early(s, op) {
      if Overrun(s, op.id) {
        OverrunFaithful(s, l, op.id, op.event);
      } else {
        hide Overrun, Stored;
        StoredFaithful(s, l, op.id, op.event);
      }
    } else if op.Flush? || op.Discard? {
      ForgottenFaithful(s, l, op.id);
    }
  }

  predicate Lossless(s: Hub, ops: seq<Op>)
    decreases |ops|
  {
    ops == [] || (!Loses(s, ops[0]) && Lossless(Step(s, ops[0]), ops[1..]))
  }

  function LedgerOf(l: Ledger, s: Hub, ops: seq<Op>): Ledger
    decreases |ops|
  {
    if ops == [] then l else LedgerOf(LedgerAfter(l, s, ops[0]), Step(s, ops[0]), ops[1..])
  }

  /** Over any run whose steps lose nothing, the buffer stays within its limits and faithful. */
  lemma {:induction false} RunFaithful(s: Hub, l: Ledger, ops: seq<Op>)
    requires Within(s) && Faithful(s, l) && Lossless(s, ops)
    ensures Within(Steps(s, ops)) && Faithful(Steps(s, ops), LedgerOf(l, s, ops))
    decreases |ops|
  {
    if ops != [] {
      StepWithin(s, ops[0]);
      StepFaithful(s, l, ops[0]);
      RunFaithful(Step(s, ops[0]), LedgerAfter(l, s, ops[0]), ops[1..]);
    }
  }

  lemma {:induction false} RunWithin(s: Hub, ops: seq<Op>)
    requires Within(s)
    ensures Within(Steps(s, ops))
    decreases |ops|
  {
    if ops != [] {
      StepWithin(s, ops[0]);
      RunWithin(Step(s, ops[0]), ops[1..]);
    }
  }

  /** Flushing an owned live id hands its attached owner all that was routed early, in order, or one
      resync notice, and nothing when nothing was routed. */
  ghost predicate AllOrNotice(s: Hub, l: Ledger, id: LiveId)
    requires id in s.routes
  {
    if id !in l then Deliveries(s, Flush(id)) == []
    else || Deliveries(s, Flush(id)) == Addressed(s.routes[id], id, l[id])
         || Deliveries(s, Flush(id)) == [Resync(s.routes[id], id)]
  }

  lemma FlushDelivers(s: Hub, l: Ledger, id: LiveId)
    requires Faithful(s, l) && id in s.routes && s.routes[id] in s.subscribers
    ensures AllOrNotice(s, l, id)
  {
  }

  lemma AllOrResync(s: Hub, l: Ledger, ops: seq<Op>, id: LiveId)
    requires Within(s) && Faithful(s, l) && Lossless(s, ops)
    requires id in Steps(s, ops).routes && Steps(s, ops).routes[id] in Steps(s, ops).subscribers
    ensures AllOrNotice(Steps(s, ops), LedgerOf(l, s, ops), id)
  {
    hide *;
    RunFaithful(s, l, ops);
    FlushDelivers(Steps(s, ops), LedgerOf(l, s, ops), id);
  }

  // ---- Which runs lose nothing -------------------------------------------------------------------

  /** An event comes over a connection, and while a reset is running there is none. */
  predicate Heard(s: Hub, op: Op) {
    Early(s, op) ==> s.linked && s.resetting != Running
  }

  /** A reset that is not ignored is requested while nothing is connected. */
  predicate ResetsUnlinked(s: Hub, op: Op) {
    op.ResetRequest? && s.resetting == Idle && !s.stopping && op.generation == s.generation && !s.linked
  }

  predicate AllHeard(s: Hub, ops: seq<Op>)
    decreases |ops|
  {
    ops == [] || (Heard(s, ops[0]) && AllHeard(Step(s, ops[0]), ops[1..]))
  }

  predicate Served(s: Hub, ops: seq<Op>)
    decreases |ops|
  {
    ops == [] || (Heard(s, ops[0]) && !ResetsUnlinked(s, ops[0]) && Served(Step(s, ops[0]), ops[1..]))
  }

  lemma StoredLinked(s: Hub, id: LiveId, e: Event)
    requires s.linked && !s.stopping
    ensures Stored(s, id, e).resetting == s.resetting || (s.resetting == Idle && Stored(s, id, e).resetting == Running)
  {
    hide Fits, Overrun;
  }

  /** A record that stays comes from such a request alone, only closing the hub clears it, and a step loses
      events only while it is there. */
  lemma StuckStep(s: Hub, op: Op)
    requires Heard(s, op)
    ensures Step(s, op).resetting == Stuck <==> ResetsUnlinked(s, op) || (s.resetting == Stuck && (op.Close? ==> s.stopping))
    ensures Loses(s, op) ==> s.resetting == Stuck
  {
    if Early(s, op) { StoredLinked(s, op.id, op.event); }
    hide Stored;
  }

  /** No step loses anything as long as no reset is requested while nothing is connected. */
  lemma {:induction false} ServedLossless(s: Hub, ops: seq<Op>)
    requires s.resetting != Stuck && Served(s, ops)
    ensures Lossless(s, ops) && Steps(s, ops).resetting != Stuck
    decreases |ops|
  {
    if ops != [] {
      hide Step, Loses, Heard, ResetsUnlinked;
      StuckStep(s, ops[0]);
      ServedLossless(Step(s, ops[0]), ops[1..]);
    }
  }

  /** All or resync, then, over any such run. */
  lemma ServedAllOrResync(s: Hub, l: Ledger, ops: seq<Op>, id: LiveId)
    requires Within(s) && Faithful(s, l) && s.resetting != Stuck && Served(s, ops)
    requires id in Steps(s, ops).routes && Steps(s, ops).routes[id] in Steps(s, ops).subscribers
    ensures AllOrNotice(Steps(s, ops), LedgerOf(l, s, ops), id)
  {
    hide *;
    ServedLossless(s, ops);
    AllOrResync(s, l, ops, id);
  }

  // ---- What an owner is sent ---------------------------------------------------------------------

  /** All that a run hands to anyone. */
  function Sent(s: Hub, ops: seq<Op>): seq<Delivery>
    decreases |ops|
  {
    if ops == [] then [] else Deliveries(s, ops[0]) + Sent(Step(s, ops[0]), ops[1..])
  }

  /** What of it went to one owner about one live id. */
  function SentTo(sent: seq<Delivery>, owner: Owner, id: LiveId): seq<Delivery> {
    if sent == [] then []
    else (if sent[0].owner == owner && sent[0].sessionId == id then [sent[0]] else []) + SentTo(sent[1..], owner, id)
  }

  /** The events that came for a live id in a generation, as the run was given. */
  function Came(ops: seq<Op>, id: LiveId, generation: nat): seq<Event> {
    if ops == [] then [] else CameBy(ops[0], id, generation) + Came(ops[1..], id, generation)
  }

  function CameBy(op: Op, id: LiveId, generation: nat): seq<Event> {
    if op.Route? && op.id == id && op.generation == generation then [op.event] else []
  }

  predicate Current(s: Hub, generation: nat) {
    s.generation == generation && !s.stopping
  }

  /** Throughout the run nobody owns the live id, and what is kept for it is neither taken nor discarded. */
  predicate Waits(s: Hub, ops: seq<Op>, id: LiveId, generation: nat)
    decreases |ops|
  {
    && Current(s, generation) && id !in s.routes
    && (ops == [] || (ops[0] != Flush(id) && ops[0] != Discard(id) && Waits(Step(s, ops[0]), ops[1..], id, generation)))
  }

  /** Throughout the run the owner has the live id and is attached. */
  predicate Owns(s: Hub, ops: seq<Op>, id: LiveId, owner: Owner, generation: nat)
    decreases |ops|
  {
    && Current(s, generation) && id in s.routes && s.routes[id] == owner && owner in s.subscribers
    && (ops == [] || Owns(Step(s, ops[0]), ops[1..], id, owner, generation))
  }

  lemma {:induction false} SentToAdds(a: seq<Delivery>, b: seq<Delivery>, owner: Owner, id: LiveId)
    ensures SentTo(a + b, owner, id) == SentTo(a, owner, id) + SentTo(b, owner, id)
  {
    if a == [] {
      assert a + b == b;
    } else {
      assert (a + b)[1..] == a[1..] + b && (a + b)[0] == a[0];
      var first := if a[0].owner == owner && a[0].sessionId == id then [a[0]] else [];
      assert SentTo(a + b, owner, id) == first + SentTo(a[1..] + b, owner, id);
      assert SentTo(a, owner, id) == first + SentTo(a[1..], owner, id);
      hide SentTo;
      SentToAdds(a[1..], b, owner, id);
    }
  }

  lemma {:induction false} SentToAddressed(to: Owner, about: LiveId, events: seq<Event>, owner: Owner, id: LiveId)
    ensures SentTo(Addressed(to, about, events), owner, id) == if to == owner && about == id then Addressed(to, about, events) else []
  {
    if events != [] {
      SentToAddressed(to, about, events[1..], owner, id);
      assert Addressed(to, about, events)[1..] == Addressed(to, about, events[1..]);
      assert Addressed(to, about, events) == [Delivery(to, about, events[0])] + Addressed(to, about, events[1..]);
    }
  }

  lemma AddressedAdds(owner: Owner, id: LiveId, a: seq<Event>, b: seq<Event>)
    ensures Addressed(owner, id, a + b) == Addressed(owner, id, a) + Addressed(owner, id, b)
  {
  }

  /** What one step hands over about a live id. */
  lemma StepSent(s: Hub, op: Op, id: LiveId, owner: Owner)
    ensures op.Route? && op.id == id && Accepted(s, op) && id in s.routes && s.routes[id] in s.subscribers ==>
      SentTo(Deliveries(s, op), owner, id) == if s.routes[id] == owner then [Delivery(owner, id, op.event)] else []
    ensures !(op.Route? && op.id == id && Accepted(s, op) && id in s.routes && s.routes[id] in s.subscribers) && op != Flush(id) ==>
      SentTo(Deliveries(s, op), owner, id) == []
    ensures op == Flush(id) ==>
      SentTo(Deliveries(s, op), owner, id) == if id in s.routes && s.routes[id] == owner then Deliveries(s, op) else []
  {
    if op.Flush? && op.id in s.routes && op.id in s.unbound {
      SentToAddressed(s.routes[op.id], op.id, s.unbound[op.id].events, owner, id);
    }
    hide Addressed;
    assert forall d: Delivery :: [d][1..] == [];
  }

  /** While nobody owns a live id all that comes for it is owed, and nobody is sent any of it. */
  lemma {:induction false} WaitsOwed(s: Hub, l: Ledger, ops: seq<Op>, id: LiveId, generation: nat, owner: Owner)
    requires Waits(s, ops, id, generation)
    ensures Past(LedgerOf(l, s, ops), id) == Past(l, id) + Came(ops, id, generation)
    ensures SentTo(Sent(s, ops), owner, id) == []
    decreases |ops|
  {
    hide Step, LedgerAfter, Deliveries, Past, CameBy, SentTo;
    NoneSent(owner, id);
    if ops != [] {
      var op, s' := ops[0], Step(s, ops[0]);
      StepSent(s, op, id, owner);
      SentToAdds(Deliveries(s, op), Sent(s', ops[1..]), owner, id);
      WaitsStep(s, l, op, id, generation);
      WaitsOwed(s', LedgerAfter(l, s, op), ops[1..], id, generation, owner);
    }
  }

  lemma NoneSent(owner: Owner, id: LiveId)
    ensures SentTo([], owner, id) == []
  {
  }

  lemma WaitsStep(s: Hub, l: Ledger, op: Op, id: LiveId, generation: nat)
    requires Current(s, generation) && Current(Step(s, op), generation) && id !in s.routes && op != Flush(id) && op != Discard(id)
    ensures Past(LedgerAfter(l, s, op), id)
            == Past(l, id) + CameBy(op, id, generation)
  {
    assert !Resets(s, op);
    hide Stored;
  }

  /** While it is owned by an attached owner, that owner is sent all that comes for it, each once and in order,
      nobody else is sent any of it, and nothing more is owed. */
  lemma {:induction false} OwnsSent(s: Hub, l: Ledger, ops: seq<Op>, id: LiveId, owner: Owner, generation: nat, other: Owner)
    requires Within(s) && Faithful(s, l) && Lossless(s, ops) && Owns(s, ops, id, owner, generation)
    requires id !in l || Flush(id) !in ops
    ensures SentTo(Sent(s, ops), other, id) == if other == owner then Addressed(owner, id, Came(ops, id, generation)) else []
    ensures id !in l ==> id !in LedgerOf(l, s, ops)
    ensures Flush(id) !in ops && Discard(id) !in ops ==> Past(LedgerOf(l, s, ops), id) == Past(l, id)
    decreases |ops|
  {
    hide Step, LedgerAfter, Deliveries, Past, Within, Faithful, Loses, CameBy;
    NoneAddressed(owner, id);
    if ops != [] {
      var op, s', l' := ops[0], Step(s, ops[0]), LedgerAfter(l, s, ops[0]);
      assert ops == [op] + ops[1..];
      StepWithin(s, op);
      StepFaithful(s, l, op);
      OwnsStep(s, l, op, id, owner, generation, other);
      SentToAdds(Deliveries(s, op), Sent(s', ops[1..]), other, id);
      OwnsSent(s', l', ops[1..], id, owner, generation, other);
      AddressedAdds(owner, id, CameBy(op, id, generation), Came(ops[1..], id, generation));
    }
  }

  lemma NoneAddressed(owner: Owner, id: LiveId)
    ensures Addressed(owner, id, []) == []
  {
  }

  lemma OwnsStep(s: Hub, l: Ledger, op: Op, id: LiveId, owner: Owner, generation: nat, other: Owner)
    requires Faithful(s, l) && Current(s, generation) && id in s.routes && s.routes[id] == owner && owner in s.subscribers
    ensures id !in l || op != Flush(id) ==>
      SentTo(Deliveries(s, op), other, id) == if other == owner then Addressed(owner, id, CameBy(op, id, generation)) else []
    ensures id !in l ==> id !in LedgerAfter(l, s, op)
    ensures Current(Step(s, op), generation) && op != Flush(id) && op != Discard(id) ==> Past(LedgerAfter(l, s, op), id) == Past(l, id)
  {
    hide Stored;
    StepSent(s, op, id, other);
    NoneAddressed(owner, id);
    if op == Flush(id) && id !in l { NothingOwed(s, l, id); }
    hide Faithful, Deliveries;
  }

  lemma NothingOwed(s: Hub, l: Ledger, id: LiveId)
    requires Faithful(s, l) && id !in l
    ensures Deliveries(s, Flush(id)) == []
  {
    assert id !in s.tombstones + s.unbound.Keys;
  }

  lemma {:induction false} RunSplits(s: Hub, l: Ledger, a: seq<Op>, b: seq<Op>)
    ensures Steps(s, a + b) == Steps(Steps(s, a), b) && LedgerOf(l, s, a + b) == LedgerOf(LedgerOf(l, s, a), Steps(s, a), b)
    ensures Sent(s, a + b) == Sent(s, a) + Sent(Steps(s, a), b)
    ensures Lossless(s, a + b) <==> Lossless(s, a) && Lossless(Steps(s, a), b)
    decreases |a|
  {
    hide Step, LedgerAfter, Deliveries, Loses;
    if a == [] {
      assert a + b == b;
    } else {
      assert (a + b)[1..] == a[1..] + b;
      RunSplits(Step(s, a[0]), LedgerAfter(l, s, a[0]), a[1..], b);
    }
  }

  lemma {:induction false} OwnsSplits(s: Hub, a: seq<Op>, b: seq<Op>, id: LiveId, owner: Owner, generation: nat)
    requires Owns(s, a + b, id, owner, generation)
    ensures Owns(s, a, id, owner, generation) && Owns(Steps(s, a), b, id, owner, generation)
    decreases |a|
  {
    hide Step;
    if a == [] {
      assert a + b == b;
    } else {
      assert (a + b)[1..] == a[1..] + b;
      OwnsSplits(Step(s, a[0]), a[1..], b, id, owner, generation);
    }
  }

  /** What a flush hands over: all of it, or one notice, or nothing when nothing is owed. */
  ghost predicate HandsOver(sent: seq<Delivery>, owner: Owner, id: LiveId, owed: seq<Event>) {
    if owed == [] then sent == [] else sent == Addressed(owner, id, owed) || sent == [Resync(owner, id)]
  }

  lemma FlushHandsOver(s: Hub, l: Ledger, id: LiveId, owner: Owner, other: Owner)
    requires Faithful(s, l) && id in s.routes && s.routes[id] == owner && owner in s.subscribers
    ensures HandsOver(Deliveries(s, Flush(id)), owner, id, Past(l, id))
    ensures SentTo(Deliveries(s, Flush(id)), other, id) == if other == owner then Deliveries(s, Flush(id)) else []
    ensures id !in LedgerAfter(l, s, Flush(id))
  {
    FlushDelivers(s, l, id);
    NoneAddressed(owner, id);
    StepSent(s, Flush(id), id, other);
    hide Deliveries;
  }

  /** An owned session before and after its first flush. */
  lemma OwnedSent(s: Hub, l: Ledger, before: seq<Op>, after: seq<Op>, id: LiveId, owner: Owner, generation: nat, other: Owner)
    returns (flushed: seq<Delivery>)
    requires Within(s) && Faithful(s, l) && Lossless(s, before + ([Flush(id)] + after))
    requires Owns(s, before + ([Flush(id)] + after), id, owner, generation) && Flush(id) !in before && Discard(id) !in before
    ensures HandsOver(flushed, owner, id, Past(l, id))
    ensures SentTo(Sent(s, before + ([Flush(id)] + after)), other, id) ==
      if other == owner then
        Addressed(owner, id, Came(before, id, generation)) + flushed + Addressed(owner, id, Came(after, id, generation))
      else []
  {
    hide Step, LedgerAfter, Deliveries, Past, Within, Faithful, Loses, HandsOver, Came, Addressed, SentTo;
    var rest := [Flush(id)] + after;
    RunSplits(s, l, before, rest);
    OwnsSplits(s, before, rest, id, owner, generation);
    OwnsSent(s, l, before, id, owner, generation, other);
    RunFaithful(s, l, before);
    var s1, l1 := Steps(s, before), LedgerOf(l, s, before);
    flushed := Deliveries(s1, Flush(id));
    FlushHandsOver(s1, l1, id, owner, other);
    assert rest[0] == Flush(id) && rest[1..] == after;
    StepWithin(s1, Flush(id));
    StepFaithful(s1, l1, Flush(id));
    OwnsSent(Step(s1, Flush(id)), LedgerAfter(l1, s1, Flush(id)), after, id, owner, generation, other);
    SentToAdds(Sent(s, before), Sent(s1, rest), other, id);
    SentToAdds(flushed, Sent(Step(s1, Flush(id)), after), other, id);
  }

  /** A session from its first event on: what comes before anybody owns it, while its attached owner has not
      flushed it, and after that. The owner is sent the second part as it comes, at its flush the first part or
      a notice, and then the third; nobody else is sent anything. */
  lemma SessionSent(s: Hub, l: Ledger, early: seq<Op>, before: seq<Op>, after: seq<Op>, id: LiveId, owner: Owner, generation: nat,
                    other: Owner)
    returns (flushed: seq<Delivery>)
    requires Within(s) && Faithful(s, l) && id !in l
    requires Lossless(s, early + ([Bind(id, owner)] + (before + ([Flush(id)] + after)))) && Waits(s, early, id, generation)
    requires Owns(Step(Steps(s, early), Bind(id, owner)), before + ([Flush(id)] + after), id, owner, generation)
    requires Flush(id) !in before && Discard(id) !in before
    ensures HandsOver(flushed, owner, id, Came(early, id, generation))
    ensures SentTo(Sent(s, early + ([Bind(id, owner)] + (before + ([Flush(id)] + after)))), other, id) ==
      if other == owner then
        Addressed(owner, id, Came(before, id, generation)) + flushed + Addressed(owner, id, Came(after, id, generation))
      else []
  {
    hide Step, Within, Faithful, Loses, HandsOver, Came, Addressed, SentTo, Owns, Waits;
    var bind, owned := Bind(id, owner), before + ([Flush(id)] + after);
    var rest := [bind] + owned;
    var s1, l1 := Steps(s, early), LedgerOf(l, s, early);
    RunSplits(s, l, early, rest);
    WaitsOwed(s, l, early, id, generation, other);
    RunFaithful(s, l, early);
    assert rest[0] == bind && rest[1..] == owned;
    QuietStep(s1, l1, bind);
    hide LedgerAfter, Deliveries;
    StepWithin(s1, bind);
    StepFaithful(s1, l1, bind);
    flushed := OwnedSent(Step(s1, bind), l1, before, after, id, owner, generation, other);
    SentToAdds(Sent(s, early), Sent(s1, rest), other, id);
    assert Sent(s1, rest) == [] + Sent(Step(s1, bind), owned) == Sent(Step(s1, bind), owned);
    assert [] + SentTo(Sent(s1, rest), other, id) == SentTo(Sent(s1, rest), other, id);
    assert Past(l, id) + Came(early, id, generation) == Came(early, id, generation);
  }

  // ---- When all of it is sent --------------------------------------------------------------------

  /** There is room for the event: for its session, for one more event of it and of all, and for its bytes. */
  predicate HasRoom(s: Hub, id: LiveId, e: Event) {
    && (id in s.unbound || |s.order| < MAX_UNBOUND_SESSIONS)
    && (id in s.unbound ==> |s.unbound[id].events| < MAX_EVENTS_PER_SESSION)
    && Count(s) < MAX_UNBOUND_EVENTS && Bytes(s) + Size(s.maxEventBytes, e) <= MAX_UNBOUND_BYTES
    && Size(s.maxEventBytes, e) <= s.maxEventBytes
  }

  predicate AllHaveRoom(s: Hub, ops: seq<Op>)
    decreases |ops|
  {
    ops == [] || ((Early(s, ops[0]) ==> HasRoom(s, ops[0].id, ops[0].event)) && AllHaveRoom(Step(s, ops[0]), ops[1..]))
  }

  /** Nothing has been dropped. */
  predicate Whole(s: Hub) {
    s.tombstones == {} && forall id :: id in s.unbound ==> !s.unbound[id].dropped
  }

  lemma OpenedRoom(s: Hub, id: LiveId, e: Event)
    requires Within(s) && HasRoom(s, id, e) && id !in s.unbound
    ensures Fits(Opened(s, id), id, e)
  {
    WithinIndexed(s);
    OpenedTotals(s, id);
  }

  /** An event with room is kept, and costs no other session anything. */
  lemma RoomyStep(s: Hub, op: Op)
    requires Within(s) && Whole(s) && (Early(s, op) ==> HasRoom(s, op.id, op.event))
    ensures Whole(Step(s, op))
  {
    if Early(s, op) { RoomyStored(s, op.id, op.event); }
    hide Stored, Count, Bytes, Within;
  }

  lemma RoomyStored(s: Hub, id: LiveId, e: Event)
    requires Within(s) && Whole(s) && HasRoom(s, id, e)
    ensures Whole(Stored(s, id, e))
  {
    if id in s.unbound {
      RoomyGrown(s, id, e);
    } else {
      OpenedRoom(s, id, e);
      RoomyGrown(Opened(s, id), id, e);
    }
    hide Count, Bytes, Size, Within, Evicted, Overrun, Grown, Fits;
  }

  lemma RoomyGrown(s: Hub, id: LiveId, e: Event)
    requires Whole(s) && id in s.unbound && Fits(s, id, e)
    ensures Whole(Grown(s, id, e))
  {
    hide Fits;
  }

  lemma {:induction false} RoomyRun(s: Hub, ops: seq<Op>)
    requires Within(s) && Whole(s) && AllHaveRoom(s, ops)
    ensures Whole(Steps(s, ops)) && Lossless(s, ops)
    decreases |ops|
  {
    hide Whole, Step;
    if ops != [] {
      StepWithin(s, ops[0]);
      RoomyStep(s, ops[0]);
      RoomyLossless(s, ops[0]);
      RoomyRun(Step(s, ops[0]), ops[1..]);
    }
  }

  lemma RoomyLossless(s: Hub, op: Op)
    requires Early(s, op) ==> HasRoom(s, op.id, op.event)
    ensures !Loses(s, op)
  {
    hide Count, Bytes, Size;
  }

  /** As long as there was room for every event, a flush hands over all of it, and no notice. */
  lemma AllSent(s: Hub, l: Ledger, ops: seq<Op>, id: LiveId)
    requires Within(s) && Faithful(s, l) && Whole(s) && AllHaveRoom(s, ops)
    requires id in Steps(s, ops).routes && Steps(s, ops).routes[id] in Steps(s, ops).subscribers
    ensures Deliveries(Steps(s, ops), Flush(id)) == Addressed(Steps(s, ops).routes[id], id, Past(LedgerOf(l, s, ops), id))
  {
    hide Within, Step, Steps, LedgerOf, Lossless, AllHaveRoom;
    RoomyRun(s, ops);
    RunFaithful(s, l, ops);
    var s', l' := Steps(s, ops), LedgerOf(l, s, ops);
    assert id in l' <==> id in s'.unbound;
    NoneAddressed(s'.routes[id], id);
  }

  // ---- When a generation is over -----------------------------------------------------------------

  predicate Ends(s: Hub, op: Op) {
    !s.stopping && (op.Close? || (op.LinkLost? && op.generation == s.generation)
                    || (op.ResetRequest? && op.generation == s.generation && s.resetting == Idle))
  }

  predicate Ended(s: Hub, generation: nat) {
    s.generation > generation || s.stopping
  }

  /** Losing the connection, a reset and closing end the generation: nothing is owned or kept any more. */
  lemma EndsGeneration(s: Hub, op: Op)
    requires Ends(s, op)
    ensures var s' := Step(s, op);
      Ended(s', s.generation) && s'.routes == map[] && s'.order == [] && s'.unbound == map[] && s'.tombstones == {} && !s'.linked
  {
  }

  lemma EndedStep(s: Hub, op: Op, generation: nat)
    requires Ended(s, generation)
    ensures Ended(Step(s, op), generation) && (op.Route? && op.generation == generation ==> Step(s, op) == s && Deliveries(s, op) == [])
  {
    if Early(s, op) { StoredForward(s, op.id, op.event); }
    hide Stored;
  }

  lemma StoredForward(s: Hub, id: LiveId, e: Event)
    ensures Stored(s, id, e).generation >= s.generation && (s.stopping ==> Stored(s, id, e).stopping)
  {
    hide Fits, Overrun, Grown;
    if id in s.unbound {
      GrownSame(s, id, e);
    } else {
      GrownSame(Opened(s, id), id, e);
      if s.order != [] { GrownSame(Opened(Evicted(s), id), id, e); }
    }
  }

  lemma GrownSame(s: Hub, id: LiveId, e: Event)
    requires id in s.unbound
    ensures Grown(s, id, e) == s.(unbound := Grown(s, id, e).unbound)
  {
    hide Fits;
  }

  function WithoutLate(ops: seq<Op>, generation: nat): seq<Op> {
    if ops == [] then []
    else (if ops[0].Route? && ops[0].generation == generation then [] else [ops[0]]) + WithoutLate(ops[1..], generation)
  }

  /** After that its late events make no difference, whatever else happens. */
  lemma {:induction false} LateEventsIgnored(s: Hub, ops: seq<Op>, generation: nat)
    requires Ended(s, generation)
    ensures Sent(s, ops) == Sent(s, WithoutLate(ops, generation)) && Steps(s, ops) == Steps(s, WithoutLate(ops, generation))
    decreases |ops|
  {
    hide Step, Deliveries;
    if ops != [] {
      EndedStep(s, ops[0], generation);
      LateEventsIgnored(Step(s, ops[0]), ops[1..], generation);
      var rest := WithoutLate(ops[1..], generation);
      if ops[0].Route? && ops[0].generation == generation {
        assert [] + rest == rest;
        assert [] + Sent(s, rest) == Sent(s, rest);
      } else {
        assert WithoutLate(ops, generation) == [ops[0]] + rest && ([ops[0]] + rest)[1..] == rest;
      }
    }
  }

  // ---- Who is sent nothing -----------------------------------------------------------------------

  /** Of a detached owner nothing is heard until it is attached again. */
  lemma {:induction false} DetachedSentNothing(s: Hub, ops: seq<Op>, owner: Owner, id: LiveId)
    requires owner !in s.subscribers && Attach(owner) !in ops
    ensures SentTo(Sent(s, ops), owner, id) == []
    decreases |ops|
  {
    NoneSent(owner, id);
    if ops != [] {
      var op, s' := ops[0], Step(s, ops[0]);
      assert ops == [op] + ops[1..];
      StepSent(s, op, id, owner);
      SubscribersAfter(s, op);
      hide Step, Deliveries, SentTo;
      SentToAdds(Deliveries(s, op), Sent(s', ops[1..]), owner, id);
      DetachedSentNothing(s', ops[1..], owner, id);
    }
  }

  lemma SubscribersAfter(s: Hub, op: Op)
    ensures !op.Attach? ==> Step(s, op).subscribers <= s.subscribers
    ensures op.Attach? ==> Step(s, op).subscribers <= s.subscribers + {op.owner}
    ensures !op.Bind? ==> Step(s, op).routes.Keys <= s.routes.Keys
    ensures op.Bind? ==> Step(s, op).routes.Keys <= s.routes.Keys + {op.id}
  {
    if Early(s, op) { StoredRoutes(s, op.id, op.event); }
    hide Stored;
  }

  lemma StoredRoutes(s: Hub, id: LiveId, e: Event)
    ensures Stored(s, id, e).subscribers == s.subscribers
    ensures Stored(s, id, e).routes == s.routes || Stored(s, id, e).routes == map[]
  {
    hide Fits, Overrun, Grown;
    if id in s.unbound {
      GrownSame(s, id, e);
    } else {
      GrownSame(Opened(s, id), id, e);
      if s.order != [] { GrownSame(Opened(Evicted(s), id), id, e); }
    }
  }

  /** And of a live id that nobody owns, until somebody does again. */
  lemma {:induction false} UnownedSentNothing(s: Hub, ops: seq<Op>, owner: Owner, id: LiveId)
    requires id !in s.routes && forall to :: Bind(id, to) !in ops
    ensures SentTo(Sent(s, ops), owner, id) == []
    decreases |ops|
  {
    NoneSent(owner, id);
    if ops != [] {
      var op, s' := ops[0], Step(s, ops[0]);
      assert ops == [op] + ops[1..];
      assert op.Bind? ==> op == Bind(op.id, op.owner);
      StepSent(s, op, id, owner);
      SubscribersAfter(s, op);
      hide Step, Deliveries, SentTo;
      SentToAdds(Deliveries(s, op), Sent(s', ops[1..]), owner, id);
      UnownedSentNothing(s', ops[1..], owner, id);
    }
  }

  /** Leaving takes effect at once, and so does coming. */
  lemma TurnsExactly(s: Hub, id: LiveId, owner: Owner)
    ensures owner !in Step(s, Detach(owner)).subscribers && owner in Step(s, Attach(owner)).subscribers
    ensures id !in Step(s, Unbind(id)).routes
    ensures id in Step(s, Bind(id, owner)).routes && Step(s, Bind(id, owner)).routes[id] == owner
    ensures forall o :: o != owner ==> (o in Step(s, Detach(owner)).subscribers <==> o in s.subscribers)
    ensures forall o :: o != owner ==> (o in Step(s, Attach(owner)).subscribers <==> o in s.subscribers)
    ensures Step(s, Unbind(id)).routes == s.routes - {id} && Step(s, Bind(id, owner)).routes - {id} == s.routes - {id}
  {
  }

  /** After a reset of a connected hub has run its course the hub is as good as new, in a new generation. */
  lemma ResetThenNew(s: Hub, generation: nat)
    requires s.resetting == Idle && !s.stopping && s.linked && generation > s.generation + 1
    ensures var s' := Step(Step(Step(s, ResetRequest(s.generation)), ResetDone), Link(true, generation));
      s' == Hub([], map[], {}, Idle, true, generation, false, map[], s.subscribers, s.maxEventBytes)
  {
  }
}
