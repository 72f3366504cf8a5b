/**
 HermesProfileBackendPool: each synchronous stretch between awaits is one method. A caller stands for one
 `resolve` call and later for the lease handle it was given; spawning, readiness and exits of processes
 are steps of their own.
 */
module ProfilePools {
  import opened FiniteSequences
  import opened FiniteSets
  import opened Outcomes

  type Profile = string
  type Id = nat       // a start, and the entry it becomes
  type Caller = nat

  /** Already counted on an entry or a start, then handed a lease that is not yet released. */
  datatype Stage = Counted(id: Id) | Holding(id: Id)

  /** The allocation lock: free, held by a caller about to decide, waiting for capacity, or evicting. */
  datatype Lock = Free | Ready(caller: Caller, profile: Profile) | Waiting(caller: Caller, profile: Profile)
                | Evicting(caller: Caller, profile: Profile)

  /** `slots` are the lease counters of the starts that are pending, `leases` those of the entries there ever
      were, `order` is the insertion order of the entries, `gone` the processes that have exited, `unheard`
      those of them whose exit is still to be announced. */
  datatype Pool = Pool(
    entries: map<Profile, Id>, order: seq<Profile>, starts: map<Profile, Id>,
    slots: map<Id, int>, leases: map<Id, int>, lastUsed: map<Id, int>,
    callers: map<Caller, Stage>, lock: Lock, closed: bool, gone: set<Id>, unheard: set<Id>, next: Id, max: nat)

  datatype Resolution = Leased | Pending | MustAllocate | Refused

  function Owed(callers: map<Caller, Stage>, id: Id): set<Caller> {
    set c | c in callers && callers[c].id == id
  }

  lemma OwedAfterAdd(callers: map<Caller, Stage>, c: Caller, stage: Stage)
    requires c !in callers
    ensures forall id :: |Owed(callers[c := stage], id)| == |Owed(callers, id)| + if id == stage.id then 1 else 0
  {
    forall id ensures |Owed(callers[c := stage], id)| == |Owed(callers, id)| + if id == stage.id then 1 else 0 {
      OwedOneMore(callers, c, stage, id);
    }
  }

  lemma OwedOneMore(callers: map<Caller, Stage>, c: Caller, stage: Stage, id: Id)
    requires c !in callers
    ensures |Owed(callers[c := stage], id)| == |Owed(callers, id)| + if id == stage.id then 1 else 0
  {
    if id == stage.id {
      assert Owed(callers[c := stage], id) == Owed(callers, id) + {c};
    } else {
      assert Owed(callers[c := stage], id) == Owed(callers, id);
    }
  }

  lemma OwedAfterRemove(callers: map<Caller, Stage>, c: Caller)
    requires c in callers
    ensures forall id :: |Owed(callers - {c}, id)| == |Owed(callers, id)| - if id == callers[c].id then 1 else 0
    ensures |Owed(callers, callers[c].id)| >= 1
  {
    var rest := callers - {c};
    OwedAfterAdd(rest, c, callers[c]);
    assert rest[c := callers[c]] == callers;
  }

  lemma OwedAfterHandOver(callers: map<Caller, Stage>, c: Caller, stage: Stage)
    requires c in callers && stage.id == callers[c].id
    ensures forall id :: |Owed(callers[c := stage], id)| == |Owed(callers, id)|
  {
    forall id ensures |Owed(callers[c := stage], id)| == |Owed(callers, id)| {
      assert Owed(callers[c := stage], id) == Owed(callers, id);
    }
  }

  lemma OwedAfterFailure(callers: map<Caller, Stage>, id: Id)
    ensures forall x :: |Owed(callers - Owed(callers, id), x)| == if x == id then 0 else |Owed(callers, x)|
  {
    forall x ensures |Owed(callers - Owed(callers, id), x)| == if x == id then 0 else |Owed(callers, x)| {
      if x == id {
        assert Owed(callers - Owed(callers, id), x) == {};
      } else {
        assert Owed(callers - Owed(callers, id), x) == Owed(callers, x);
      }
    }
  }

  // ---- The invariant -----------------------------------------------------------------------------

  /** Every lease count is the number of handles outstanding and of callers counted but not yet served. No lease
      is handed out before a start succeeds, and who was counted on the start is counted on the entry then. */
  ghost predicate Counts(slots: map<Id, int>, leases: map<Id, int>, callers: map<Caller, Stage>, next: Id) {
    && slots.Keys !! leases.Keys && (forall id :: id in slots || id in leases ==> id < next)
    && (forall id :: id in slots ==> slots[id] == |Owed(callers, id)|)
    && (forall id :: id in leases ==> leases[id] == |Owed(callers, id)|)
    && (forall c :: c in callers ==> callers[c].id in leases || (callers[c].Counted? && callers[c].id in slots))
  }

  /** Starts and entries are of different profiles, and each has its own counter. */
  ghost predicate Separate(entries: map<Profile, Id>, starts: map<Profile, Id>, slots: map<Id, int>, leases: map<Id, int>,
                           lastUsed: map<Id, int>)
  {
    && entries.Keys !! starts.Keys
    && (forall p :: p in entries ==> entries[p] in leases && entries[p] in lastUsed)
    && (forall p :: p in starts ==> starts[p] in slots)
    && (forall p, q :: p in starts && q in starts && p != q ==> starts[p] != starts[q])
  }

  predicate Idle(entries: map<Profile, Id>, leases: map<Id, int>, p: Profile) {
    p in entries && entries[p] in leases && leases[entries[p]] == 0
  }

  ghost predicate NoneIdle(entries: map<Profile, Id>, leases: map<Id, int>) {
    forall p :: p in entries ==> !Idle(entries, leases, p)
  }

  function Size(s: Pool): nat { |s.entries.Keys| + |s.starts.Keys| }

  /** Only the lock holder starts its profile, and it is counted nowhere yet. */
  predicate LockApart(lock: Lock, entries: map<Profile, Id>, starts: map<Profile, Id>, callers: map<Caller, Stage>) {
    lock != Free ==> lock.profile !in entries && lock.profile !in starts && lock.caller !in callers
  }

  /** An allocation waits only while nothing in the pool is idle and it is full, or the exit that will wake
      the allocation is still to be announced. */
  ghost predicate WaitsForCapacity(lock: Lock, size: nat, max: nat, entries: map<Profile, Id>, leases: map<Id, int>, unheard: set<Id>) {
    lock.Waiting? ==> (size == max || unheard != {}) && NoneIdle(entries, leases)
  }

  /** The insertion order lists the entries. */
  ghost predicate Listed(order: seq<Profile>, entries: map<Profile, Id>) {
    Distinct(order) && forall p :: p in order <==> p in entries
  }

  /** An entry whose process is gone stays only until that is announced. */
  predicate Announced(entries: map<Profile, Id>, gone: set<Id>, unheard: set<Id>) {
    forall p :: p in entries && entries[p] in gone ==> entries[p] in unheard
  }

  predicate StartsCounted(starts: map<Profile, Id>, slots: map<Id, int>) {
    forall p :: p in starts ==> starts[p] in slots && slots[starts[p]] >= 1
  }

  /** The pool is never over its size, and nothing waits for room in one that is closed. */
  ghost predicate Capacity(s: Pool) {
    && 1 <= s.max && Size(s) <= s.max && LockApart(s.lock, s.entries, s.starts, s.callers) && (s.lock.Waiting? ==> !s.closed)
    && WaitsForCapacity(s.lock, Size(s), s.max, s.entries, s.leases, s.unheard) && StartsCounted(s.starts, s.slots)
  }

  ghost predicate Safe(s: Pool) {
    && Counts(s.slots, s.leases, s.callers, s.next) && Separate(s.entries, s.starts, s.slots, s.leases, s.lastUsed) && Capacity(s)
    && Listed(s.order, s.entries) && Announced(s.entries, s.gone, s.unheard)
  }

  // ---- The steps ---------------------------------------------------------------------------------

  /** A caller counted on an entry. */
  function Joined(s: Pool, c: Caller, stage: Stage): Pool
    requires stage.id in s.leases
  {
    s.(leases := s.leases[stage.id := s.leases[stage.id] + 1], callers := s.callers[c := stage])
  }

  /** A caller counted on a start. */
  function JoinedStart(s: Pool, c: Caller, id: Id): Pool
    requires id in s.slots
  {
    s.(slots := s.slots[id := s.slots[id] + 1], callers := s.callers[c := Counted(id)])
  }

  function Notified(s: Pool): Pool {
    s.(lock := if s.lock.Waiting? then Ready(s.lock.caller, s.lock.profile) else s.lock)
  }

  function Started(s: Pool): Pool
    requires s.lock.Ready?
  {
    s.(starts := s.starts[s.lock.profile := s.next], slots := s.slots[s.next := 1],
       callers := s.callers[s.lock.caller := Counted(s.next)], lock := Free, next := s.next + 1)
  }

  /** The entry takes over the leases that were counted on its start. */
  function Succeeded(s: Pool, p: Profile, now: int): Pool
    requires p in s.starts && s.starts[p] in s.slots
  {
    var id := s.starts[p];
    s.(starts := s.starts - {p}, slots := s.slots - {id}, leases := s.leases[id := s.slots[id]],
       entries := s.entries[p := id], order := s.order + [p], lastUsed := s.lastUsed[id := now])
  }

  function StartLost(s: Pool, p: Profile): Pool
    requires p in s.starts
  {
    Notified(s.(starts := s.starts - {p}, slots := s.slots - {s.starts[p]},
                callers := s.callers - Owed(s.callers, s.starts[p])))
  }

  function HandedOver(s: Pool, c: Caller): Pool
    requires c in s.callers
  {
    s.(callers := s.callers[c := Holding(s.callers[c].id)])
  }

  /** The count as it is without the clamp at zero. */
  function Released(s: Pool, c: Caller, now: int): Pool
    requires c in s.callers && s.callers[c].id in s.leases
  {
    var id := s.callers[c].id;
    Notified(s.(leases := s.leases[id := s.leases[id] - 1], lastUsed := s.lastUsed[id := now], callers := s.callers - {c}))
  }

  /** An entry goes, whoever still holds a lease on it. */
  function Dropped(s: Pool, p: Profile): Pool {
    if p in s.entries then s.(entries := s.entries - {p}, order := Without(s.order, p)) else s
  }

  predicate Alive(s: Pool, p: Profile) {
    p in s.entries && s.entries[p] !in s.gone
  }

  /** A process exits; this is announced later if it ever became an entry. */
  function Died(s: Pool, id: Id): Pool {
    s.(gone := s.gone + {id}, unheard := if id in s.lastUsed then s.unheard + {id} else s.unheard)
  }

  /** An exit is announced: its entry goes with it, unless another has taken its place. */
  function Heard(s: Pool, p: Profile, id: Id): Pool {
    var rest := if p in s.entries && s.entries[p] == id then Dropped(s, p) else s;
    Notified(rest.(unheard := s.unheard - {id}))
  }

  predicate IdsKnown(s: Pool, p: Profile) {
    (p in s.entries ==> s.entries[p] in s.leases) && (p in s.starts ==> s.starts[p] in s.slots)
  }

  /** The tail of `resolve`. A backend whose process is gone is not leased, and does not stay. */
  function Resolved(s: Pool, c: Caller, p: Profile): Pool
    requires IdsKnown(s, p)
  {
    if Alive(s, p) then Joined(s, c, Holding(s.entries[p]))
    else if p in s.starts then JoinedStart(Dropped(s, p), c, s.starts[p])
    else Dropped(s, p)
  }

  /** The allocation lock is acquired, by a caller that may find the backend there by now. */
  function Acquired(s: Pool, c: Caller, p: Profile): Pool
    requires IdsKnown(s, p)
  {
    if s.closed then s
    else if Alive(s, p) then Joined(s, c, Counted(s.entries[p]))
    else if p in s.starts then JoinedStart(Dropped(s, p), c, s.starts[p])
    else Dropped(s, p).(lock := Ready(c, p))
  }

  /** Among the first n entries in insertion order, the first idle one that none of the others was used before. */
  function OldestOf(s: Pool, n: nat): (r: Option<Profile>)
    requires n <= |s.order|
    ensures r.Some? ==> Idle(s.entries, s.leases, r.value)
  {
    if n == 0 then None
    else
      var r, p := OldestOf(s, n - 1), s.order[n - 1];
      if Idle(s.entries, s.leases, p) && (r.None? || UsedBefore(s, p, r.value)) then Some(p) else r
  }

  predicate UsedBefore(s: Pool, p: Profile, q: Profile) {
    && p in s.entries && q in s.entries && s.entries[p] in s.lastUsed && s.entries[q] in s.lastUsed
    && s.lastUsed[s.entries[p]] < s.lastUsed[s.entries[q]]
  }

  /** One turn of the allocation loop. */
  function Decided(s: Pool): Pool
    requires s.lock.Ready?
  {
    if s.closed then s.(lock := Free)
    else if Size(s) < s.max then Started(s)
    else
      var oldest := OldestOf(s, |s.order|);
      if oldest.Some? then Dropped(s, oldest.value).(lock := Evicting(s.lock.caller, s.lock.profile))
      else s.(lock := Waiting(s.lock.caller, s.lock.profile))
  }

  function Shut(s: Pool): Pool {
    if s.closed then s else Notified(s.(closed := true))
  }

  /** Once nothing is starting or being allocated, closing takes all entries out. */
  function Cleared(s: Pool): Pool {
    s.(entries := map[], order := [])
  }

  // ---- Every step keeps the pool safe ------------------------------------------------------------

  lemma JoinedCounts(s: Pool, c: Caller, stage: Stage)
    requires Counts(s.slots, s.leases, s.callers, s.next) && c !in s.callers && stage.id in s.leases
    ensures Counts(s.slots, Joined(s, c, stage).leases, Joined(s, c, stage).callers, s.next) && s.leases[stage.id] >= 0
  {
    OwedAfterAdd(s.callers, c, stage);
  }

  lemma JoinedCapacity(s: Pool, c: Caller, stage: Stage)
    requires Capacity(s) && stage.id in s.leases && s.leases[stage.id] >= 0 && (s.lock != Free ==> s.lock.caller != c)
    ensures Capacity(Joined(s, c, stage))
  {
  }

  lemma JoinedSafe(s: Pool, c: Caller, stage: Stage)
    requires Safe(s) && c !in s.callers && stage.id in s.leases && (s.lock != Free ==> s.lock.caller != c)
    ensures Safe(Joined(s, c, stage))
  {
    hide Counts, Capacity;
    JoinedCounts(s, c, stage);
    JoinedCapacity(s, c, stage);
  }

  lemma JoinedStartCounts(s: Pool, c: Caller, id: Id)
    requires Counts(s.slots, s.leases, s.callers, s.next) && c !in s.callers && id in s.slots
    ensures Counts(JoinedStart(s, c, id).slots, s.leases, JoinedStart(s, c, id).callers, s.next) && s.slots[id] >= 0
  {
    OwedAfterAdd(s.callers, c, Counted(id));
  }

  lemma JoinedStartCapacity(s: Pool, c: Caller, id: Id)
    requires Capacity(s) && id in s.slots && s.slots[id] >= 0 && (s.lock != Free ==> s.lock.caller != c)
    ensures Capacity(JoinedStart(s, c, id))
  {
    hide NoneIdle;
  }

  lemma JoinedStartSafe(s: Pool, c: Caller, id: Id)
    requires Safe(s) && c !in s.callers && id in s.slots && (s.lock != Free ==> s.lock.caller != c)
    ensures Safe(JoinedStart(s, c, id))
  {
    hide Counts, Capacity;
    JoinedStartCounts(s, c, id);
    JoinedStartCapacity(s, c, id);
  }

  lemma StartedCounts(s: Pool)
    requires Counts(s.slots, s.leases, s.callers, s.next) && s.lock.Ready? && s.lock.caller !in s.callers
    ensures Counts(Started(s).slots, s.leases, Started(s).callers, Started(s).next) && s.next !in s.slots
  {
    OwedAfterAdd(s.callers, s.lock.caller, Counted(s.next));
    assert Owed(s.callers, s.next) == {};
  }

  lemma StartedSeparate(s: Pool)
    requires Separate(s.entries, s.starts, s.slots, s.leases, s.lastUsed) && s.lock.Ready? && s.next !in s.slots
    requires s.lock.profile !in s.entries && s.lock.profile !in s.starts
    ensures Separate(s.entries, Started(s).starts, Started(s).slots, s.leases, s.lastUsed)
  {
  }

  lemma SizeAdded(m: map<Profile, Id>, p: Profile, id: Id)
    requires p !in m
    ensures |m[p := id].Keys| == |m.Keys| + 1
  {
    assert m[p := id].Keys == m.Keys + {p};
  }

  lemma SizeRemoved(m: map<Profile, Id>, p: Profile)
    requires p in m
    ensures |(m - {p}).Keys| == |m.Keys| - 1
  {
    assert (m - {p}).Keys == m.Keys - {p};
  }

  lemma StartedCapacity(s: Pool)
    requires Capacity(s) && s.lock.Ready? && Size(s) < s.max && s.next !in s.slots
    ensures Capacity(Started(s))
  {
    SizeAdded(s.starts, s.lock.profile, s.next);
    hide NoneIdle;
  }

  lemma StartedSafe(s: Pool)
    requires Safe(s) && s.lock.Ready? && Size(s) < s.max
    ensures Safe(Started(s))
  {
    hide Counts, Separate;
    StartedCounts(s);
    StartedSeparate(s);
    StartedCapacity(s);
    hide Capacity;
  }

  lemma SucceededCapacity(s: Pool, p: Profile, now: int)
    requires Capacity(s) && p in s.starts && s.starts[p] in s.slots && p !in s.entries && s.starts[p] !in s.leases
    requires forall q :: q in s.starts && q != p ==> s.starts[q] != s.starts[p]
    ensures Capacity(Succeeded(s, p, now))
  {
    var id := s.starts[p];
    SizeAdded(s.entries, p, id);
    SizeRemoved(s.starts, p);
    assert Size(Succeeded(s, p, now)) == Size(s);
    SucceededNoneIdle(s.entries, s.leases, p, id, s.slots[id]);
    FailedStarts(s.starts, s.slots, p);
    hide NoneIdle, StartsCounted;
  }

  lemma SucceededNoneIdle(entries: map<Profile, Id>, leases: map<Id, int>, p: Profile, id: Id, count: int)
    requires id !in leases && count >= 1
    ensures NoneIdle(entries, leases) && (forall q :: q in entries ==> entries[q] != id) ==> NoneIdle(entries[p := id], leases[id := count])
  {
  }

  lemma SucceededSafe(s: Pool, p: Profile, now: int)
    requires Safe(s) && p in s.starts && s.starts[p] !in s.gone
    ensures s.starts[p] in s.slots && Safe(Succeeded(s, p, now))
  {
    hide Capacity, Announced;
    SucceededSeparate(s, p, now);
    SucceededCounts(s, p, now);
    hide Counts, Separate;
    SucceededCapacity(s, p, now);
    SucceededListed(s, p, now);
  }

  lemma SucceededListed(s: Pool, p: Profile, now: int)
    requires Listed(s.order, s.entries) && Announced(s.entries, s.gone, s.unheard) && p !in s.entries
    requires p in s.starts && s.starts[p] in s.slots && s.starts[p] !in s.gone
    ensures var s' := Succeeded(s, p, now); Listed(s'.order, s'.entries) && Announced(s'.entries, s'.gone, s'.unheard)
  {
    var order := s.order + [p];
    assert forall i :: 0 <= i < |s.order| ==> order[i] in s.order;
  }

  /** The start's counter moves to the entry, which owes exactly what the start owed. */
  lemma SucceededCounts(s: Pool, p: Profile, now: int)
    requires Counts(s.slots, s.leases, s.callers, s.next) && p in s.starts && s.starts[p] in s.slots
    ensures var s' := Succeeded(s, p, now);
      && Counts(s'.slots, s'.leases, s'.callers, s'.next)
      && s'.leases[s.starts[p]] == |Owed(s'.callers, s.starts[p])|
  {
  }

  lemma SucceededSeparate(s: Pool, p: Profile, now: int)
    requires Separate(s.entries, s.starts, s.slots, s.leases, s.lastUsed) && p in s.starts
    ensures s.starts[p] in s.slots && p !in s.entries
    ensures var s' := Succeeded(s, p, now); Separate(s'.entries, s'.starts, s'.slots, s'.leases, s'.lastUsed)
    ensures forall q :: q in s.starts && q != p ==> s.starts[q] != s.starts[p]
  {
  }

  lemma FailedCapacity(s: Pool, p: Profile)
    requires Capacity(s) && p in s.starts
    requires forall q :: q in s.starts && q != p ==> s.starts[q] != s.starts[p]
    ensures Capacity(StartLost(s, p))
  {
    SizeRemoved(s.starts, p);
    FailedStarts(s.starts, s.slots, p);
    hide NoneIdle, StartsCounted;
  }

  lemma FailedStarts(starts: map<Profile, Id>, slots: map<Id, int>, p: Profile)
    requires StartsCounted(starts, slots) && p in starts && forall q :: q in starts && q != p ==> starts[q] != starts[p]
    ensures StartsCounted(starts - {p}, slots - {starts[p]}) && slots[starts[p]] >= 1
  {
  }

  lemma FailedSeparate(s: Pool, p: Profile)
    requires Separate(s.entries, s.starts, s.slots, s.leases, s.lastUsed) && p in s.starts
    ensures Separate(s.entries, StartLost(s, p).starts, StartLost(s, p).slots, s.leases, s.lastUsed)
    ensures s.starts[p] in s.slots && forall q :: q in s.starts && q != p ==> s.starts[q] != s.starts[p]
  {
  }

  lemma FailedSafe(s: Pool, p: Profile)
    requires Safe(s) && p in s.starts
    ensures Safe(StartLost(s, p))
  {
    hide Counts, Separate, Capacity;
    FailedSeparate(s, p);
    FailedCounts(s, p);
    FailedCapacity(s, p);
  }

  lemma FailedCounts(s: Pool, p: Profile)
    requires Counts(s.slots, s.leases, s.callers, s.next) && p in s.starts && s.starts[p] in s.slots
    ensures Counts(StartLost(s, p).slots, s.leases, StartLost(s, p).callers, s.next)
  {
    OwedAfterFailure(s.callers, s.starts[p]);
  }

  lemma HandedOverSafe(s: Pool, c: Caller)
    requires Safe(s) && c in s.callers && s.callers[c].id in s.leases
    ensures Safe(HandedOver(s, c))
  {
    OwedAfterHandOver(s.callers, c, Holding(s.callers[c].id));
  }

  /** A handle is released while its entry still counts it, so the clamp at zero never acts. */
  lemma ReleasedSafe(s: Pool, c: Caller, now: int)
    requires Safe(s) && c in s.callers && s.callers[c].Holding?
    ensures s.callers[c].id in s.leases && s.leases[s.callers[c].id] >= 1 && Safe(Released(s, c, now))
  {
    OwedAfterRemove(s.callers, c);
  }

  /** An entry may go at any time; an allocation that waits then knows of no room unless it is told. */
  lemma DroppedSafe(s: Pool, p: Profile)
    requires Safe(s) && (s.lock.Waiting? && p in s.entries ==> s.unheard != {})
    ensures Safe(Dropped(s, p)) && Dropped(s, p).lock == s.lock
  {
    if p in s.entries {
      hide Counts, Listed, Capacity, Without, Separate, Announced;
      DroppedListed(s.order, s.entries, p);
      DroppedCapacity(s, p);
      DroppedSeparate(s, p);
    }
  }

  lemma DroppedSeparate(s: Pool, p: Profile)
    requires Separate(s.entries, s.starts, s.slots, s.leases, s.lastUsed) && Announced(s.entries, s.gone, s.unheard)
    ensures Separate(s.entries - {p}, s.starts, s.slots, s.leases, s.lastUsed) && Announced(s.entries - {p}, s.gone, s.unheard)
  {
  }

  lemma DroppedListed(order: seq<Profile>, entries: map<Profile, Id>, p: Profile)
    requires Listed(order, entries) && p in entries
    ensures Listed(Without(order, p), entries - {p})
  {
    hide Without, Distinct;
    WithoutIs(order, p);
  }

  lemma DroppedCapacity(s: Pool, p: Profile)
    requires Capacity(s) && p in s.entries && (s.lock.Waiting? ==> s.unheard != {})
    ensures Capacity(Dropped(s, p))
  {
    hide Without;
    SubsetSize((s.entries - {p}).Keys, s.entries.Keys);
  }

  lemma NotifiedSafe(s: Pool)
    requires Safe(s)
    ensures Safe(Notified(s))
  {
    hide Counts, Separate, Listed, NoneIdle;
  }

  lemma NotifiedShut(s: Pool)
    requires Safe(s)
    ensures Safe(Notified(s.(closed := true)))
  {
    hide Counts, Separate, Listed, NoneIdle;
  }

  lemma DiedSafe(s: Pool, id: Id)
    requires Safe(s)
    ensures Safe(Died(s, id))
  {
    hide Counts, Listed, NoneIdle;
    assert id in s.lastUsed ==> s.unheard + {id} != {};
  }

  lemma HeardSafe(s: Pool, p: Profile, id: Id)
    requires Safe(s) && id in s.unheard && forall q :: q in s.entries && s.entries[q] == id ==> q == p
    ensures Safe(Heard(s, p, id))
  {
    hide Counts, Separate, Listed, NoneIdle, Dropped;
    var rest := if p in s.entries && s.entries[p] == id then Dropped(s, p) else s;
    DroppedSafe(s, p);
    DroppedIs(s, p);
  }

  lemma DroppedIs(s: Pool, p: Profile)
    ensures Dropped(s, p) == s.(entries := Dropped(s, p).entries, order := Dropped(s, p).order)
    ensures p !in Dropped(s, p).entries
    ensures forall q :: q in Dropped(s, p).entries ==> q in s.entries && Dropped(s, p).entries[q] == s.entries[q]
  {
  }

  lemma ResolvedSafe(s: Pool, c: Caller, p: Profile)
    requires Safe(s) && c !in s.callers && (s.lock != Free ==> s.lock.caller != c)
    ensures IdsKnown(s, p) && Safe(Resolved(s, c, p))
  {
    KnownIds(s);
    hide Safe, Dropped, Joined, JoinedStart;
    DroppedIs(s, p);
    if Alive(s, p) {
      JoinedSafe(s, c, Holding(s.entries[p]));
    } else {
      if p in s.entries { GoneIsUnheard(s, p); }
      DroppedSafe(s, p);
      if p in s.starts { JoinedStartSafe(Dropped(s, p), c, s.starts[p]); }
    }
  }

  lemma GoneIsUnheard(s: Pool, p: Profile)
    requires Safe(s) && p in s.entries && s.entries[p] in s.gone
    ensures s.unheard != {}
  {
  }

  lemma AcquiredSafe(s: Pool, c: Caller, p: Profile)
    requires Safe(s) && c !in s.callers && s.lock.Free?
    ensures IdsKnown(s, p) && Safe(Acquired(s, c, p))
  {
    KnownIds(s);
    hide Safe, Dropped, Joined, JoinedStart;
    DroppedIs(s, p);
    DroppedSafe(s, p);
    if !s.closed {
      if Alive(s, p) {
        JoinedSafe(s, c, Counted(s.entries[p]));
      } else if p in s.starts {
        JoinedStartSafe(Dropped(s, p), c, s.starts[p]);
      } else {
        RelockedSafe(Dropped(s, p), Ready(c, p));
      }
    }
  }

  /** The lock changes hands or stage; only a wait needs a full pool with nothing idle. */
  lemma RelockedSafe(s: Pool, lock: Lock)
    requires Safe(s)
    requires (lock != Free && s.lock != Free && lock.caller == s.lock.caller && lock.profile == s.lock.profile)
             || LockApart(lock, s.entries, s.starts, s.callers)
    requires lock.Waiting? ==> Size(s) >= s.max && NoneIdle(s.entries, s.leases) && !s.closed
    ensures Safe(s.(lock := lock))
  {
    hide Counts, Separate, NoneIdle, Listed, Announced;
  }

  /** An idle entry none of the other idle entries was used before. */
  ghost predicate Oldest(s: Pool, p: Profile) {
    && Idle(s.entries, s.leases, p)
    && (forall q :: q in s.entries && Idle(s.entries, s.leases, q) ==> !UsedBefore(s, q, p))
  }

  /** What the search finds is an oldest idle entry; it finds none only if there is none. */
  lemma OldestIs(s: Pool)
    requires Safe(s)
    ensures var r := OldestOf(s, |s.order|);
      if r.Some? then Oldest(s, r.value) else NoneIdle(s.entries, s.leases)
  {
    KnownIds(s);
    OldestSoFar(s, |s.order|);
  }

  lemma {:induction false} OldestSoFar(s: Pool, n: nat)
    requires n <= |s.order| && forall p :: p in s.entries ==> s.entries[p] in s.lastUsed
    ensures var r := OldestOf(s, n);
      forall i :: 0 <= i < n && Idle(s.entries, s.leases, s.order[i]) ==> r.Some? && !UsedBefore(s, s.order[i], r.value)
  {
    if n > 0 { OldestSoFar(s, n - 1); }
  }

  lemma DecidedSafe(s: Pool)
    requires Safe(s) && s.lock.Ready?
    ensures Safe(Decided(s))
  {
    OldestIs(s);
    hide Safe, NoneIdle, Oldest, OldestOf, Started, Dropped;
    var oldest := OldestOf(s, |s.order|);
    if s.closed {
      RelockedSafe(s, Free);
    } else if Size(s) < s.max {
      StartedSafe(s);
    } else if oldest.Some? {
      DroppedSafe(s, oldest.value);
      DroppedIs(s, oldest.value);
      RelockedSafe(Dropped(s, oldest.value), Evicting(s.lock.caller, s.lock.profile));
    } else {
      RelockedSafe(s, Waiting(s.lock.caller, s.lock.profile));
    }
  }

  lemma ClearedSafe(s: Pool)
    requires Safe(s) && s.lock.Free?
    ensures Safe(Cleared(s))
  {
    ClearedSeparate(s);
    ClearedCapacity(s);
    hide Counts, Separate, Capacity;
  }

  lemma ClearedSeparate(s: Pool)
    requires Separate(s.entries, s.starts, s.slots, s.leases, s.lastUsed)
    ensures Separate(map[], s.starts, s.slots, s.leases, s.lastUsed)
  {
  }

  lemma ClearedCapacity(s: Pool)
    requires Capacity(s) && s.lock.Free?
    ensures Capacity(Cleared(s))
  {
    hide NoneIdle, StartsCounted;
    SubsetSize({}, s.entries.Keys);
  }

  lemma KnownIds(s: Pool)
    requires Safe(s)
    ensures forall p :: p in s.entries ==> s.entries[p] in s.leases && s.entries[p] in s.lastUsed && p !in s.starts
    ensures forall p :: p in s.starts ==> s.starts[p] in s.slots
    ensures Listed(s.order, s.entries)
  {
  }

  // ---- What each turn decides --------------------------------------------------------------------

  /** Nothing but the lock. */
  predicate OnlyLock(s: Pool, s': Pool) {
    s' == s.(lock := s'.lock)
  }

  /** There is room: the profile is started and its caller counted. The pool is full: the entry that goes is idle
      and no idle one was used before it, and if there is none, the allocation waits. */
  lemma DecidedExactly(s: Pool)
    requires Safe(s) && s.lock.Ready?
    ensures var s' := Decided(s);
      if s.closed then OnlyLock(s, s') && s'.lock == Free
      else if Size(s) < s.max then
        && s'.starts.Keys == s.starts.Keys + {s.lock.profile} && s'.entries == s.entries && s'.lock == Free
        && s.lock.caller in s'.callers && s'.callers[s.lock.caller] == Counted(s.next) && s'.starts[s.lock.profile] == s.next
      else if exists p :: p in s.entries && Idle(s.entries, s.leases, p) then
        && s'.lock == Evicting(s.lock.caller, s.lock.profile) && s'.starts == s.starts && s'.callers == s.callers
        && exists p :: p in s.entries && s'.entries == s.entries - {p} && Oldest(s, p)
      else OnlyLock(s, s') && s'.lock == Waiting(s.lock.caller, s.lock.profile)
  {
    hide Safe, OldestOf, Started, Dropped, Oldest;
    StartedIs(s);
    OldestIs(s);
    var oldest := OldestOf(s, |s.order|);
    if oldest.Some? { OldestGoes(s, oldest.value); }
  }

  lemma StartedIs(s: Pool)
    requires s.lock.Ready?
    ensures var s' := Started(s);
      && s'.starts.Keys == s.starts.Keys + {s.lock.profile} && s'.entries == s.entries && s'.lock == Free
      && s.lock.caller in s'.callers && s'.callers[s.lock.caller] == Counted(s.next) && s'.starts[s.lock.profile] == s.next
  {
  }

  lemma OldestGoes(s: Pool, p: Profile)
    requires Oldest(s, p)
    ensures p in s.entries && Idle(s.entries, s.leases, p)
    ensures var s' := Dropped(s, p); s'.entries == s.entries - {p} && s'.starts == s.starts && s'.callers == s.callers
  {
    hide Without;
  }

  /** A running backend is leased at once; one whose process is gone goes; a starting one is waited for. */
  lemma ResolvedExactly(s: Pool, c: Caller, p: Profile)
    requires Safe(s) && c !in s.callers
    ensures IdsKnown(s, p)
    ensures var s' := Resolved(s, c, p);
      && (p in s.entries && s.entries[p] !in s.gone ==>
            && s'.callers == s.callers[c := Holding(s.entries[p])] && s'.entries == s.entries && s'.lock == s.lock
            && s'.leases == s.leases[s.entries[p] := s.leases[s.entries[p]] + 1])
      && (p in s.entries && s.entries[p] in s.gone ==> s' == Dropped(s, p) && p !in s'.entries && s'.callers == s.callers)
      && (p !in s.entries && p in s.starts ==>
            && s'.callers == s.callers[c := Counted(s.starts[p])] && s'.entries == s.entries && s'.lock == s.lock
            && s'.slots == s.slots[s.starts[p] := s.slots[s.starts[p]] + 1])
      && (p !in s.entries && p !in s.starts ==> s' == s)
  {
    hide Safe, Listed, Without, Distinct;
    KnownIds(s);
  }

  /** Under the lock, the same for a caller that is served later; nothing is given by a pool that is closed. */
  lemma AcquiredExactly(s: Pool, c: Caller, p: Profile)
    requires Safe(s) && c !in s.callers && s.lock.Free?
    ensures IdsKnown(s, p)
    ensures var s' := Acquired(s, c, p);
      && (s.closed ==> s' == s)
      && (!s.closed && p in s.entries && s.entries[p] !in s.gone ==>
            && s'.callers == s.callers[c := Counted(s.entries[p])] && s'.entries == s.entries && s'.lock == Free
            && s'.leases == s.leases[s.entries[p] := s.leases[s.entries[p]] + 1])
      && (!s.closed && p !in s.entries && p in s.starts ==>
            && s'.callers == s.callers[c := Counted(s.starts[p])] && s'.entries == s.entries && s'.lock == Free
            && s'.slots == s.slots[s.starts[p] := s.slots[s.starts[p]] + 1])
      && (!s.closed && p !in s.starts && (p in s.entries ==> s.entries[p] in s.gone) ==>
            p !in s'.entries && s'.lock == Ready(c, p) && s'.callers == s.callers)
  {
    hide Safe, Listed, Without, Distinct;
    KnownIds(s);
  }

  /** When an entry was last used: when it came up, or when a lease on it was last released. */
  lemma UsedExactly(s: Pool, e: Event)
    requires Safe(s)
    ensures Step(s, e).lastUsed ==
      if Due(s, e) && e.Up? then s.lastUsed[s.starts[e.profile] := e.now]
      else if Due(s, e) && e.Releasing? then s.lastUsed[s.callers[e.caller].id := e.now]
      else s.lastUsed
  {
    hide Safe, Due;
    if Due(s, e) {
      hide Step;
      if OfCaller(e) { UsedByCaller(s, e); } else if OfProcess(e) { UsedByProcess(s, e); } else { UsedByLock(s, e); }
    }
  }

  lemma UsedByProcess(s: Pool, e: Event)
    requires Safe(s) && Due(s, e) && OfProcess(e)
    ensures e.Up? ==> e.profile in s.starts
    ensures Step(s, e).lastUsed == if e.Up? then s.lastUsed[s.starts[e.profile] := e.now] else s.lastUsed
  {
    hide Safe, Without;
    KnownIds(s);
  }

  lemma UsedByLock(s: Pool, e: Event)
    requires Safe(s) && Due(s, e) && !OfCaller(e) && !OfProcess(e)
    ensures Step(s, e).lastUsed == s.lastUsed
  {
    hide Safe, Decided;
    if s.lock.Ready? { DecidedUses(s); }
  }

  lemma DecidedUses(s: Pool)
    requires s.lock.Ready?
    ensures Decided(s).lastUsed == s.lastUsed
  {
    hide OldestOf, Without, Size;
  }

  lemma UsedByCaller(s: Pool, e: Event)
    requires Safe(s) && Due(s, e) && OfCaller(e)
    ensures e.Releasing? ==> s.callers[e.caller].id in s.leases
    ensures Step(s, e).lastUsed == if e.Releasing? then s.lastUsed[s.callers[e.caller].id := e.now] else s.lastUsed
  {
    hide Safe, Without, Listed, Distinct;
    KnownIds(s);
    if e.Releasing? { ReleasedSafe(s, e.caller, e.now); }
  }

  // ---- Every run keeps the pool safe -------------------------------------------------------------

  datatype Event =
    | Resolving(caller: Caller, profile: Profile) | Locked(caller: Caller, profile: Profile) | Deciding
    | Stopped | TimedOut | Up(profile: Profile, now: int) | Down(profile: Profile)
    | Served(caller: Caller) | Releasing(caller: Caller, now: int)
    | ProcessGone(id: Id) | ExitHeard(profile: Profile, id: Id) | Closing | Clearing

  /** Whether an event may happen now. */
  ghost predicate Due(s: Pool, e: Event) {
    match e
    case Resolving(c, _) => c !in s.callers && (s.lock != Free ==> s.lock.caller != c)
    case Locked(c, _) => c !in s.callers && s.lock.Free?
    case Deciding => s.lock.Ready?
    case Stopped => s.lock.Evicting?
    case TimedOut => s.lock.Waiting?
    case Up(p, _) => p in s.starts && s.starts[p] !in s.gone
    case Down(p) => p in s.starts
    case Served(c) => c in s.callers && s.callers[c].id in s.leases
    case Releasing(c, _) => c in s.callers && s.callers[c].Holding?
    case ProcessGone(id) => id < s.next && id !in s.gone
    case ExitHeard(p, id) => id in s.unheard && forall q :: q in s.entries && s.entries[q] == id ==> q == p
    case Closing => true
    case Clearing => s.closed && s.lock.Free? && s.starts == map[]
  }

  function Relocked(s: Pool, lock: Lock): Pool {
    s.(lock := lock)
  }

  /** An event whose turn has not come is passed over. */
  ghost function Step(s: Pool, e: Event): Pool
    requires Safe(s)
  {
    KnownIds(s);
    if !Due(s, e) then s
    else
      match e
      case Resolving(c, p) => Resolved(s, c, p)
      case Locked(c, p) => Acquired(s, c, p)
      case Deciding => Decided(s)
      case Stopped => Relocked(s, Ready(s.lock.caller, s.lock.profile))
      case TimedOut => Relocked(s, Free)
      case Up(p, now) => Succeeded(s, p, now)
      case Down(p) => StartLost(s, p)
      case Served(c) => HandedOver(s, c)
      case Releasing(c, now) => ReleasedSafe(s, c, now); Released(s, c, now)
      case ProcessGone(id) => Died(s, id)
      case ExitHeard(p, id) => Heard(s, p, id)
      case Closing => Shut(s)
      case Clearing => Cleared(s)
  }

  predicate OfCaller(e: Event) {
    e.Resolving? || e.Locked? || e.Served? || e.Releasing?
  }

  predicate OfProcess(e: Event) {
    e.Up? || e.Down? || e.ProcessGone? || e.ExitHeard?
  }

  lemma CallerSafe(s: Pool, e: Event)
    requires Safe(s) && Due(s, e) && OfCaller(e)
    ensures Safe(Step(s, e))
  {
    hide Safe, Resolved, Acquired, HandedOver, Released;
    match e
    case Resolving(c, p) => ResolvedSafe(s, c, p);
    case Locked(c, p) => AcquiredSafe(s, c, p);
    case Served(c) => HandedOverSafe(s, c);
    case Releasing(c, now) => ReleasedSafe(s, c, now);
  }

  lemma ProcessSafe(s: Pool, e: Event)
    requires Safe(s) && Due(s, e) && OfProcess(e)
    ensures Safe(Step(s, e))
  {
    hide Safe, Succeeded, StartLost, Died, Heard;
    match e
    case Up(p, now) => SucceededSafe(s, p, now);
    case Down(p) => FailedSafe(s, p);
    case ProcessGone(id) => DiedSafe(s, id);
    case ExitHeard(p, id) => HeardSafe(s, p, id);
  }

  lemma LockSafe(s: Pool, e: Event)
    requires Safe(s) && Due(s, e) && !OfCaller(e) && !OfProcess(e)
    ensures Safe(Step(s, e))
  {
    hide Safe, Decided, Shut, Cleared, LockApart;
    match e
    case Deciding => DecidedSafe(s);
    case Stopped => RelockedSafe(s, Ready(s.lock.caller, s.lock.profile));
    case TimedOut => UnlockedSafe(s);
    case Closing => ClosedSafe(s);
    case Clearing => ClearedSafe(s);
  }

  lemma StepSafe(s: Pool, e: Event)
    requires Safe(s)
    ensures Safe(Step(s, e))
  {
    hide Safe;
    if Due(s, e) {
      hide Step;
      if OfCaller(e) { CallerSafe(s, e); } else if OfProcess(e) { ProcessSafe(s, e); } else { LockSafe(s, e); }
    }
  }

  lemma UnlockedSafe(s: Pool)
    requires Safe(s)
    ensures Safe(Relocked(s, Free))
  {
    RelockedSafe(s, Free);
  }

  lemma ClosedSafe(s: Pool)
    requires Safe(s)
    ensures Safe(Shut(s))
  {
    NotifiedShut(s);
  }

  ghost function Steps(s: Pool, events: seq<Event>): Pool
    requires Safe(s)
    decreases |events|
  {
    if events == [] then s else StepSafe(s, events[0]); Steps(Step(s, events[0]), events[1..])
  }

  /** Any interleaving of the pool's steps keeps it safe. */
  lemma {:induction false} RunSafe(s: Pool, events: seq<Event>)
    requires Safe(s)
    ensures Safe(Steps(s, events))
    decreases |events|
  {
    if events != [] {
      StepSafe(s, events[0]);
      RunSafe(Step(s, events[0]), events[1..]);
    }
  }

  lemma GoneKept(s: Pool, e: Event, id: Id)
    requires Safe(s) && (id in s.gone || (e == ProcessGone(id) && Due(s, e)))
    ensures id in Step(s, e).gone
  {
    hide Safe, Decided, Resolved, Acquired, Released, Succeeded, StartLost, Dropped;
    KnownIds(s);
    if Due(s, e) && e.Releasing? { ReleasedSafe(s, e.caller, e.now); }
    StillGone(s);
    HeardGone(s);
  }

  lemma HeardGone(s: Pool)
    ensures forall p, id :: Heard(s, p, id).gone == s.gone
  {
  }

  lemma StillGone(s: Pool)
    ensures s.lock.Ready? ==> Decided(s).gone == s.gone
    ensures forall c, p :: IdsKnown(s, p) ==> Resolved(s, c, p).gone == s.gone && Acquired(s, c, p).gone == s.gone
    ensures forall c, now :: c in s.callers && s.callers[c].id in s.leases ==> Released(s, c, now).gone == s.gone
    ensures forall p, now :: p in s.starts && s.starts[p] in s.slots ==> Succeeded(s, p, now).gone == s.gone
    ensures forall p :: p in s.starts ==> StartLost(s, p).gone == s.gone
  {
    hide OldestOf, Without, Size, Owed;
  }

  /** A backend whose process has exited is never leased to anybody again. */
  lemma {:induction false} GoneNeverLeased(s: Pool, events: seq<Event>, id: Id, c: Caller, p: Profile)
    requires Safe(s) && id in s.gone && Safe(Steps(s, events)) && Due(Steps(s, events), Resolving(c, p))
    ensures id in Steps(s, events).gone
    ensures var s' := Step(Steps(s, events), Resolving(c, p)); c in s'.callers ==> s'.callers[c] != Holding(id)
    decreases |events|
  {
    if events == [] {
      ResolvedExactly(s, c, p);
      hide Safe;
      KnownIds(s);
    } else {
      hide Step, Due, Safe;
      StepSafe(s, events[0]);
      GoneKept(s, events[0], id);
      GoneNeverLeased(Step(s, events[0]), events[1..], id, c, p);
    }
  }

  /** A caller that was counted on a backend that is up is handed a lease on it, and no count moves. */
  lemma ServedExactly(s: Pool, c: Caller)
    requires Safe(s) && Due(s, Served(c))
    ensures var s' := Step(s, Served(c));
      && s'.callers.Keys == s.callers.Keys && s'.callers[c] == Holding(s.callers[c].id)
      && s' == s.(callers := s'.callers) && forall other :: other in s.callers && other != c ==> s'.callers[other] == s.callers[other]
  {
    hide Safe;
  }

  /** Once its exit is announced a backend is no entry any more, and no other entry has gone. */
  lemma HeardExactly(s: Pool, p: Profile, id: Id)
    requires Safe(s) && Due(s, ExitHeard(p, id))
    ensures var s' := Step(s, ExitHeard(p, id));
      && (forall q :: q in s'.entries <==> q in s.entries && s.entries[q] != id)
      && (forall q :: q in s'.entries ==> s'.entries[q] == s.entries[q]) && id !in s'.unheard
      && (s.lock.Waiting? ==> s'.lock.Ready?)
  {
    hide Safe, Without;
  }

  /** A closed pool stays closed, and nothing is started in it. */
  lemma {:induction false} ClosedStartsNothing(s: Pool, events: seq<Event>)
    requires Safe(s) && s.closed
    ensures var s' := Steps(s, events); s'.closed && s'.next == s.next && s'.starts.Keys <= s.starts.Keys
    decreases |events|
  {
    hide Step, Safe;
    if events != [] {
      StepSafe(s, events[0]);
      ClosedStep(s, events[0]);
      ClosedStartsNothing(Step(s, events[0]), events[1..]);
    }
  }

  lemma ClosedStep(s: Pool, e: Event)
    requires Safe(s) && s.closed
    ensures var s' := Step(s, e); s'.closed && s'.next == s.next && s'.starts.Keys <= s.starts.Keys
  {
    hide Safe, OldestOf, Without, Owed;
    KnownIds(s);
    if Due(s, e) && e.Releasing? { ReleasedSafe(s, e.caller, e.now); }
  }

  /** Closing closes, and the end of it leaves nothing. */
  lemma ClosingCloses(s: Pool)
    requires Safe(s)
    ensures Step(s, Closing).closed && Step(s, Closing).entries == s.entries && Step(s, Closing).starts == s.starts
    ensures Due(s, Clearing) ==> Over(Step(s, Clearing))
  {
    hide Safe;
  }

  predicate Over(s: Pool) {
    s.closed && s.lock.Free? && s.entries == map[] && s.starts == map[]
  }

  /** A pool that was closed and cleared holds nothing ever after. */
  lemma {:induction false} StaysOver(s: Pool, events: seq<Event>)
    requires Safe(s) && Over(s)
    ensures Over(Steps(s, events))
    decreases |events|
  {
    if events != [] {
      StepSafe(s, events[0]);
      OverAfter(s, events[0]);
      StaysOver(Step(s, events[0]), events[1..]);
    }
  }

  lemma OverAfter(s: Pool, e: Event)
    requires Safe(s) && Over(s)
    ensures Over(Step(s, e))
  {
    hide Safe;
  }

  // ---- The pool ----------------------------------------------------------------------------------

  class HermesProfileBackendPool {
    const maxBackends: nat
    var entries: map<Profile, Id>
    var order: seq<Profile>
    var starts: map<Profile, Id>
    var slots: map<Id, int>
    var leases: map<Id, int>
    var lastUsed: map<Id, int>
    var callers: map<Caller, Stage>
    var lock: Lock
    var closed: bool
    var gone: set<Id>
    var unheard: set<Id>            // the exits that are still to be announced
    var next: Id

    ghost function View(): Pool
      reads this
    {
      Pool(entries, order, starts, slots, leases, lastUsed, callers, lock, closed, gone, unheard, next, maxBackends)
    }

    constructor (maxBackends: int)
      ensures Safe(View()) && this.maxBackends == (if maxBackends < 1 then 1 else if maxBackends > 16 then 16 else maxBackends)
      ensures entries == map[] && starts == map[] && callers == map[] && lock == Free && !closed
    {
      this.maxBackends := if maxBackends < 1 then 1 else if maxBackends > 16 then 16 else maxBackends;
      entries, order, starts, slots, leases, lastUsed, callers := map[], [], map[], map[], map[], map[], map[];
      lock, closed, gone, unheard, next := Free, false, {}, {}, 0;
    }

    method NotifyCapacity()
      modifies this`lock
      ensures View() == Notified(old(View()))
    {
      if lock.Waiting? { lock := Ready(lock.caller, lock.profile); }
    }

    /** One more caller counted on an entry. */
    method Join(c: Caller, stage: Stage)
      requires stage.id in leases
      modifies this`leases, this`callers
      ensures View() == Joined(old(View()), c, stage)
    {
      leases, callers := leases[stage.id := leases[stage.id] + 1], callers[c := stage];
    }

    /** One more caller counted on a start. */
    method JoinStart(c: Caller, id: Id)
      requires id in slots
      modifies this`slots, this`callers
      ensures View() == JoinedStart(old(View()), c, id)
    {
      slots, callers := slots[id := slots[id] + 1], callers[c := Counted(id)];
    }

    method Delete(profile: Profile)
      modifies this`entries, this`order
      ensures View() == Dropped(old(View()), profile)
    {
      if profile in entries { entries, order := entries - {profile}, Without(order, profile); }
    }

    /** The tail of `resolve`, once the profile is known: a running backend is leased at once, a starting
        one is waited for. */
    method Resolve(c: Caller, profile: Profile) returns (r: Resolution)
      requires Safe(View()) && c !in callers && (lock != Free ==> lock.caller != c)
      modifies this`entries, this`order, this`slots, this`leases, this`callers
      ensures Safe(View()) && IdsKnown(old(View()), profile) && View() == Resolved(old(View()), c, profile)
      ensures r == if Alive(old(View()), profile) then Leased else if profile in starts then Pending else MustAllocate
    {
      hide Safe;
      ResolvedSafe(View(), c, profile);
      if profile in entries && entries[profile] !in gone {
        Join(c, Holding(entries[profile]));
        return Leased;
      }
      Delete(profile);
      if profile in starts {
        JoinStart(c, starts[profile]);
        return Pending;
      }
      return MustAllocate;
    }

    /** The allocation lock is acquired, by a caller that may find the backend there by now. */
    method BeginAllocate(c: Caller, profile: Profile) returns (r: Resolution)
      requires Safe(View()) && c !in callers && lock.Free?
      modifies this`entries, this`order, this`slots, this`leases, this`callers, this`lock
      ensures Safe(View()) && IdsKnown(old(View()), profile) && View() == Acquired(old(View()), c, profile)
      ensures r == if closed then Refused else if Alive(old(View()), profile) || profile in starts then Pending else MustAllocate
    {
      hide Safe;
      AcquiredSafe(View(), c, profile);
      if closed { return Refused; }
      if profile in entries && entries[profile] !in gone {
        Join(c, Counted(entries[profile]));
        return Pending;
      }
      Delete(profile);
      if profile in starts {
        JoinStart(c, starts[profile]);
        return Pending;
      }
      lock := Ready(c, profile);
      return MustAllocate;
    }

    method OldestIdle() returns (r: Option<Profile>)
      requires forall p :: p in order ==> p in entries && entries[p] in leases && entries[p] in lastUsed
      ensures r == OldestOf(View(), |order|)
    {
      r := None;
      for n := 0 to |order|
        invariant r == OldestOf(View(), n) && (r.Some? ==> r.value in order)
      {
        var p := order[n];
        if leases[entries[p]] == 0 && (r.None? || lastUsed[entries[p]] < lastUsed[entries[r.value]]) { r := Some(p); }
      }
    }

    /** One turn of the allocation loop: refuse, evict the oldest idle backend, wait, or start. */
    method Decide()
      requires Safe(View()) && lock.Ready?
      modifies this
      ensures Safe(View()) && View() == Decided(old(View()))
    {
      hide Safe, OldestOf, Started;
      DecidedSafe(View());
      KnownIds(View());
      if closed {
        lock := Free;
      } else if Full() {
        var oldest := OldestIdle();
        if oldest.Some? {
          Delete(oldest.value);
          lock := Evicting(lock.caller, lock.profile);
        } else {
          lock := Waiting(lock.caller, lock.profile);
        }
      } else {
        Start();
      }
    }

    method Start()
      requires lock.Ready?
      modifies this`starts, this`slots, this`callers, this`lock, this`next
      ensures View() == Started(old(View()))
    {
      starts, slots, callers := starts[lock.profile := next], slots[next := 1], callers[lock.caller := Counted(next)];
      lock, next := Free, next + 1;
    }

    predicate Full()
      reads this
      ensures Full() <==> Size(View()) >= maxBackends
    {
      assert |entries.Keys| == |entries| && |starts.Keys| == |starts|;
      |entries| + |starts| >= maxBackends
    }

    /** The evicted process has stopped, or the wait has timed out. */
    method Resume(timedOut: bool)
      requires Safe(View()) && (if timedOut then lock.Waiting? else lock.Evicting?)
      modifies this`lock
      ensures Safe(View()) && View() == Relocked(old(View()), if timedOut then Free else Ready(old(lock).caller, old(lock).profile))
    {
      hide Safe;
      RelockedSafe(View(), if timedOut then Free else Ready(lock.caller, lock.profile));
      lock := if timedOut then Free else Ready(lock.caller, lock.profile);
    }

    method StartSucceeded(profile: Profile, now: int)
      requires Safe(View()) && profile in starts && starts[profile] !in gone
      modifies this`starts, this`slots, this`entries, this`order, this`leases, this`lastUsed
      ensures Safe(View()) && old(starts)[profile] in old(slots) && View() == Succeeded(old(View()), profile, now)
    {
      hide Safe;
      SucceededSafe(View(), profile, now);
      var id := starts[profile];
      starts := starts - {profile};
      leases, slots := leases[id := slots[id]], slots - {id};
      entries, order, lastUsed := entries[profile := id], order + [profile], lastUsed[id := now];
    }

    /** The process did not become ready, or was gone when it did: its callers are refused. */
    method StartFailed(profile: Profile)
      requires Safe(View()) && profile in starts
      modifies this`starts, this`slots, this`callers, this`lock
      ensures Safe(View()) && View() == StartLost(old(View()), profile)
    {
      hide Safe;
      FailedSafe(View(), profile);
      var id := starts[profile];
      starts, slots, callers := starts - {profile}, slots - {id}, callers - Owed(callers, id);
      NotifyCapacity();
    }

    /** A counted caller whose start has succeeded is handed its lease. */
    method PublicLease(c: Caller)
      requires Safe(View()) && c in callers && callers[c].id in leases
      modifies this`callers
      ensures Safe(View()) && View() == HandedOver(old(View()), c)
    {
      hide Safe;
      HandedOverSafe(View(), c);
      callers := callers[c := Holding(callers[c].id)];
    }

    /** Releasing a handle; a second release of the same handle finds it gone. */
    method Release(c: Caller, now: int)
      requires Safe(View()) && (c in callers ==> callers[c].Holding?)
      modifies this`leases, this`lastUsed, this`callers, this`lock
      ensures Safe(View())
      ensures c in old(callers) ==> old(callers)[c].id in old(leases) && View() == Released(old(View()), c, now)
      ensures c !in old(callers) ==> View() == old(View())
    {
      hide Safe, Notified, Owed;
      if c !in callers { return; }
      ReleasedSafe(View(), c, now);
      var id := callers[c].id;
      leases := leases[id := if leases[id] - 1 > 0 then leases[id] - 1 else 0];
      lastUsed, callers := lastUsed[id := now], callers - {c};
      NotifyCapacity();
    }

    /** A process exits. */
    method ProcessExited(id: Id)
      requires Safe(View())
      modifies this`gone, this`unheard
      ensures Safe(View()) && View() == Died(old(View()), id)
    {
      hide Safe;
      DiedSafe(View(), id);
      gone, unheard := gone + {id}, if id in lastUsed then unheard + {id} else unheard;
    }

    /** The exit of a process is announced; its entry goes with it, unless another has taken its place. */
    method ChildExited(profile: Profile, id: Id)
      requires Safe(View()) && id in unheard && forall q :: q in entries && entries[q] == id ==> q == profile
      modifies this`entries, this`order, this`unheard, this`lock
      ensures Safe(View()) && View() == Heard(old(View()), profile, id)
    {
      hide Safe;
      HeardSafe(View(), profile, id);
      if profile in entries && entries[profile] == id { Delete(profile); }
      unheard := unheard - {id};
      NotifyCapacity();
    }

    method Close()
      requires Safe(View())
      modifies this`closed, this`lock
      ensures Safe(View()) && View() == Shut(old(View()))
    {
      hide Safe;
      ClosedSafe(View());
      if closed { return; }
      closed := true;
      NotifyCapacity();
    }

    /** The end of `close`, once nothing is starting or being allocated: every process in the pool is stopped. */
    method FinishClose() returns (stopped: set<Id>)
      requires Safe(View()) && closed && lock.Free? && starts == map[]
      modifies this`entries, this`order
      ensures Safe(View()) && View() == Cleared(old(View())) && Over(View())
      ensures forall id :: id in stopped <==> exists p :: p in old(entries) && old(entries)[p] == id
    {
      hide Safe;
      ClearedSafe(View());
      stopped := entries.Values;
      entries, order := map[], [];
    }

    /** The events of callers. */
    method DoCaller(e: Event)
      requires Safe(View()) && OfCaller(e)
      modifies this
      ensures Safe(View()) && View() == Step(old(View()), e)
    {
      hide Safe, Resolved, Acquired, HandedOver, Released;
      match e {
        case Resolving(c, p) => if c !in callers && (lock != Free ==> lock.caller != c) { var _ := Resolve(c, p); }
        case Locked(c, p) => if c !in callers && lock.Free? { var _ := BeginAllocate(c, p); }
        case Served(c) => if c in callers && callers[c].id in leases { PublicLease(c); }
        case Releasing(c, now) => if c in callers && callers[c].Holding? { Release(c, now); }
      }
    }

    /** The events of processes. */
    method DoProcess(e: Event)
      requires Safe(View()) && OfProcess(e)
      modifies this
      ensures Safe(View()) && View() == Step(old(View()), e)
    {
      hide Safe, Succeeded, StartLost, Died, Heard;
      match e {
        case Up(p, now) => if p in starts && starts[p] !in gone { StartSucceeded(p, now); }
        case Down(p) => if p in starts { StartFailed(p); }
        case ProcessGone(id) => if id < next && id !in gone { ProcessExited(id); }
        case ExitHeard(p, id) =>
          if id in unheard && forall q :: q in entries && entries[q] == id ==> q == p { ChildExited(p, id); }
      }
    }

    /** The turns of the allocation lock, and closing. */
    method DoLock(e: Event)
      requires Safe(View()) && !OfCaller(e) && !OfProcess(e)
      modifies this
      ensures Safe(View()) && View() == Step(old(View()), e)
    {
      hide Safe, Decided, Shut, Cleared;
      match e {
        case Deciding => if lock.Ready? { Decide(); }
        case Stopped => if lock.Evicting? { Resume(false); }
        case TimedOut => if lock.Waiting? { Resume(true); }
        case Closing => Close();
        case Clearing => if closed && lock.Free? && starts == map[] { var _ := FinishClose(); }
      }
    }

    method Do(e: Event)
      requires Safe(View())
      modifies this
      ensures Safe(View()) && View() == Step(old(View()), e)
    {
      hide Safe, Step;
      if OfCaller(e) {
        DoCaller(e);
      } else if OfProcess(e) {
        DoProcess(e);
      } else {
        DoLock(e);
      }
    }

    /** Any interleaving. */
    method Run(events: seq<Event>)
      requires Safe(View())
      modifies this
      ensures Safe(View()) && View() == Steps(old(View()), events)
      decreases |events|
    {
      if events != [] {
        Do(events[0]);
        Run(events[1..]);
      }
    }
  }
}
