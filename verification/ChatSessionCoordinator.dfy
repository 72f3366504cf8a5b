/**
 ChatSessionCoordinator: five maps over mutable lease records, proved to refine LeaseRegistry.
 `Valid` says that every map is exactly the inverse of what the registered leases hold; each method's
 contract equates the new registry with a function of the old one.
 */
module ChatSessionCoordinators {
  import opened FiniteSets
  import opened Outcomes
  import opened LeaseRegistry

  class Lease {
    const token: Symbol
    const owner: Owner
    const profile: string
    var durableIds: set<string>
    var liveIds: set<string>
    var pending: set<Symbol>
    var bound: bool

    constructor (token: Symbol, owner: Owner, profile: string)
      ensures this.token == token && this.owner == owner && this.profile == profile
      ensures durableIds == {} && liveIds == {} && pending == {} && !bound
    {
      this.token, this.owner, this.profile := token, owner, profile;
      durableIds, liveIds, pending, bound := {}, {}, {}, false;
    }
  }

  ghost predicate Mirrors(lease: Lease, record: Record)
    reads lease
  {
    && lease.durableIds == record.durableIds && lease.liveIds == record.liveIds
    && lease.pending == record.pending && lease.bound == record.bound
  }

  type Durable = map<string, map<string, Lease>>

  function Lookup(durable: Durable, profile: string, id: string): Option<Lease> {
    if profile in durable && id in durable[profile] then Some(durable[profile][id]) else None
  }

  function Normalized(profile: Option<string>): string {
    if profile.Some? then profile.value else DEFAULT_PROFILE
  }

  /** The owner index without one of its tokens, and without owners that have none left. */
  function Dropped(owners: map<Owner, set<Symbol>>, owner: Owner, token: Symbol): map<Owner, set<Symbol>>
    requires owner in owners
  {
    if owners[owner] == {token} then owners - {owner} else owners[owner := owners[owner] - {token}]
  }

  // ---- What the maps must agree on ---------------------------------------------------------------

  predicate Registered(leases: map<Symbol, Lease>, lease: Lease) {
    lease.token in leases && leases[lease.token] == lease
  }

  /** The durable map is the inverse of the leases' durable ids. */
  ghost predicate DurableInverse(durable: Durable, leases: map<Symbol, Lease>, records: map<Symbol, Record>)
    requires leases.Keys == records.Keys
  {
    && (forall p, id :: Lookup(durable, p, id).Some? ==>
          var lease := Lookup(durable, p, id).value;
          Registered(leases, lease) && lease.profile == p && id in records[lease.token].durableIds)
    && (forall t, id :: t in leases && t in records && id in records[t].durableIds ==>
          Lookup(durable, records[t].profile, id) == Some(leases[t]))
  }

  /** The live map is the inverse of the leases' live ids. */
  ghost predicate LiveInverse(live: map<string, Lease>, leases: map<Symbol, Lease>, records: map<Symbol, Record>)
    requires leases.Keys == records.Keys
  {
    && (forall l :: l in live ==> Registered(leases, live[l]) && l in records[live[l].token].liveIds)
    && (forall t, l :: t in leases && t in records && l in records[t].liveIds ==> l in live && live[l] == leases[t])
  }

  /** The owner index lists exactly the leases of each owner, and no owner without one. */
  ghost predicate OwnerIndex(owners: map<Owner, set<Symbol>>, records: map<Symbol, Record>) {
    forall o :: if o in owners then owners[o] != {} && owners[o] == OwnedBy(records, o) else OwnedBy(records, o) == {}
  }

  /** Each token names one lease object, with the owner and profile it was opened for. */
  predicate Identified(leases: map<Symbol, Lease>, records: map<Symbol, Record>) {
    && leases.Keys == records.Keys
    && (forall t :: t in leases ==>
          leases[t].token == t && leases[t].owner == records[t].owner && leases[t].profile == records[t].profile)
  }

  ghost predicate Wired(durable: Durable, live: map<string, Lease>, leases: map<Symbol, Lease>,
                        owners: map<Owner, set<Symbol>>, records: map<Symbol, Record>)
  {
    && Identified(leases, records) && DurableInverse(durable, leases, records)
    && LiveInverse(live, leases, records) && OwnerIndex(owners, records)
  }

  /** The lease records are what the registry says they are. */
  ghost predicate Mirrored(leases: map<Symbol, Lease>, records: map<Symbol, Record>, repr: set<Lease>)
    reads repr
  {
    && Identified(leases, records)
    && (forall t :: t in leases ==> leases[t] in repr && Mirrors(leases[t], records[t]))
  }

  /** The same for all leases but one. */
  ghost predicate MirroredElsewhere(leases: map<Symbol, Lease>, records: map<Symbol, Record>, others: set<Lease>, except: Symbol)
    reads others
  {
    && Identified(leases, records)
    && (forall t :: t in leases && t != except ==> leases[t] in others && Mirrors(leases[t], records[t]))
  }

  lemma MirroredApart(leases: map<Symbol, Lease>, records: map<Symbol, Record>, repr: set<Lease>, lease: Lease)
    requires Mirrored(leases, records, repr) && Registered(leases, lease)
    ensures MirroredElsewhere(leases, records, repr - {lease}, lease.token) && lease in repr && lease.token in records
    ensures var record := records[lease.token];
      Mirrors(lease, record) && record.owner == lease.owner && record.profile == lease.profile
  {
  }

  lemma MirroredTogether(leases: map<Symbol, Lease>, records: map<Symbol, Record>, repr: set<Lease>, lease: Lease, record: Record)
    requires MirroredElsewhere(leases, records, repr - {lease}, lease.token) && Registered(leases, lease) && lease in repr
    requires Mirrors(lease, record) && record.owner == lease.owner && record.profile == lease.profile
    ensures Mirrored(leases, records[lease.token := record], repr)
  {
  }

  lemma MirroredAfterOpen(leases: map<Symbol, Lease>, records: map<Symbol, Record>, repr: set<Lease>, lease: Lease)
    requires Mirrored(leases, records, repr) && lease.token !in records
    ensures Mirrored(leases[lease.token := lease],
      records[lease.token := Record(lease.owner, lease.profile, lease.durableIds, lease.liveIds, lease.pending, lease.bound)],
      repr + {lease})
  {
  }

  lemma MirroredAfterRelease(leases: map<Symbol, Lease>, records: map<Symbol, Record>, repr: set<Lease>, t: Symbol)
    requires Mirrored(leases, records, repr)
    ensures Mirrored(leases - {t}, records - {t}, repr)
  {
  }

  // ---- The steps on the registry -----------------------------------------------------------------

  function Leased(r: Registry, owner: Owner, profile: string): Registry {
    r.(leases := r.leases[r.next := Record(owner, profile, {}, {}, {}, false)], next := r.next + 1)
  }

  predicate Below(records: map<Symbol, Record>, next: Symbol) {
    forall t :: t in records ==> t < next
  }

  /** One lease with more durable aliases. */
  function Aliased(r: Registry, t: Symbol, aliases: set<string>): Registry
    requires t in r.leases
  {
    Rewritten(r, t, r.leases[t].(durableIds := r.leases[t].durableIds + aliases))
  }

  function LiveBound(r: Registry, t: Symbol, liveId: string): Registry
    requires t in r.leases
  {
    Rewritten(r, t, r.leases[t].(liveIds := r.leases[t].liveIds + {liveId}))
  }

  function AttemptDone(r: Registry, t: Symbol, attempt: Symbol, bound: bool): Registry
    requires t in r.leases
  {
    Rewritten(r, t, r.leases[t].(pending := r.leases[t].pending - {attempt}, bound := bound))
  }

  /** No other lease of the profile holds one of the aliases. */
  predicate Free(r: Registry, t: Symbol, aliases: set<string>)
    requires t in r.leases
  {
    forall u :: u in r.leases && u != t && r.leases[u].profile == r.leases[t].profile ==> r.leases[u].durableIds !! aliases
  }

  predicate LiveFree(r: Registry, t: Symbol, liveId: string) {
    forall u :: u in r.leases && u != t ==> liveId !in r.leases[u].liveIds
  }

  // ---- Each step leaves the maps in agreement ----------------------------------------------------

  lemma WiredAfterRelease(durable: Durable, durable': Durable, live: map<string, Lease>, live': map<string, Lease>,
                          leases: map<Symbol, Lease>, owners: map<Owner, set<Symbol>>, records: map<Symbol, Record>, lease: Lease)
    requires Wired(durable, live, leases, owners, records) && Registered(leases, lease)
    requires AliasesRemoved(durable, durable', lease, records[lease.token].durableIds)
    requires live' == map l | l in live && !(l in records[lease.token].liveIds && live[l] == lease) :: live[l]
    ensures lease.owner in owners
    ensures Wired(durable', live', leases - {lease.token}, Dropped(owners, lease.owner, lease.token), records - {lease.token})
  {
    HasOwner(durable, live, leases, owners, records, lease);
    OwnerIndexAfterDrop(records, lease.owner, lease.token);
    hide DurableInverse, LiveInverse;
    DurableAfterRelease(durable, durable', leases, records, lease);
    LiveAfterRelease(live, live', leases, records, lease);
  }

  lemma WiredAfterOpen(durable: Durable, live: map<string, Lease>, leases: map<Symbol, Lease>,
                       owners: map<Owner, set<Symbol>>, records: map<Symbol, Record>, lease: Lease)
    requires Wired(durable, live, leases, owners, records) && lease.token !in records
    ensures Wired(durable, live, leases[lease.token := lease],
      owners[lease.owner := (if lease.owner in owners then owners[lease.owner] else {}) + {lease.token}],
      records[lease.token := Record(lease.owner, lease.profile, {}, {}, {}, false)])
  {
    OwnerIndexAfterOpen(records, lease.token, Record(lease.owner, lease.profile, {}, {}, {}, false));
  }

  lemma HasOwner(durable: Durable, live: map<string, Lease>, leases: map<Symbol, Lease>,
                 owners: map<Owner, set<Symbol>>, records: map<Symbol, Record>, lease: Lease)
    requires Wired(durable, live, leases, owners, records) && Registered(leases, lease)
    ensures lease.owner in owners
  {
    assert lease.token in OwnedBy(records, lease.owner);
  }

  /** The alias merge: between its two steps the aliases name the surviving lease while the released
      one still holds them. */
  lemma WiredAfterMerge(durable: Durable, between: Durable, durable': Durable, live: map<string, Lease>, live': map<string, Lease>,
                        leases: map<Symbol, Lease>, owners: map<Owner, set<Symbol>>, r: Registry,
                        lease: Lease, existing: Lease, aliases: set<string>)
    requires Wired(durable, live, leases, owners, r.leases) && Registered(leases, lease) && Registered(leases, existing)
    requires lease != existing && lease.profile == existing.profile && r.leases[lease.token].durableIds <= aliases
    requires Free(Released(r, {lease.token}), existing.token, aliases)
    requires AliasesAdded(durable, between, existing, aliases)
    requires AliasesRemoved(between, durable', lease, r.leases[lease.token].durableIds)
    requires live' == map l | l in live && !(l in r.leases[lease.token].liveIds && live[l] == lease) :: live[l]
    ensures lease.owner in owners
    ensures Wired(durable', live', leases - {lease.token}, Dropped(owners, lease.owner, lease.token),
      Released(Aliased(r, existing.token, aliases), {lease.token}).leases)
  {
    var records := Aliased(r, existing.token, aliases).leases;
    HasOwner(durable, live, leases, owners, r.leases, lease);
    OwnersAfterMerge(owners, r, lease, existing.token, aliases);
    DurableAfterMerge(durable, between, durable', leases, r, lease, existing, aliases);
    LiveAfterRelease(live, live', leases, records, lease);
  }

  lemma OwnersAfterMerge(owners: map<Owner, set<Symbol>>, r: Registry, lease: Lease, t: Symbol, aliases: set<string>)
    requires OwnerIndex(owners, r.leases) && t in r.leases && t != lease.token && lease.owner in owners
    requires lease.token in r.leases && r.leases[lease.token].owner == lease.owner
    ensures OwnerIndex(Dropped(owners, lease.owner, lease.token), Released(Aliased(r, t, aliases), {lease.token}).leases)
  {
    SameOwners(r.leases, t, Aliased(r, t, aliases).leases[t]);
    OwnerIndexAfterDrop(Aliased(r, t, aliases).leases, lease.owner, lease.token);
  }

  lemma DurableAfterMerge(durable: Durable, between: Durable, durable': Durable, leases: map<Symbol, Lease>, r: Registry,
                          lease: Lease, existing: Lease, aliases: set<string>)
    requires Identified(leases, r.leases) && DurableInverse(durable, leases, r.leases)
    requires Registered(leases, lease) && Registered(leases, existing)
    requires lease != existing && lease.profile == existing.profile && r.leases[lease.token].durableIds <= aliases
    requires Free(Released(r, {lease.token}), existing.token, aliases)
    requires AliasesAdded(durable, between, existing, aliases)
    requires AliasesRemoved(between, durable', lease, r.leases[lease.token].durableIds)
    ensures DurableInverse(durable', leases - {lease.token}, Released(Aliased(r, existing.token, aliases), {lease.token}).leases)
  {
    forall p, id
      ensures Lookup(durable', p, id) ==
        if p == existing.profile && id in aliases then Some(existing) else Lookup(durable, p, id)
    {
    }
  }

  lemma LiveAfterRelease(live: map<string, Lease>, live': map<string, Lease>, leases: map<Symbol, Lease>,
                         records: map<Symbol, Record>, lease: Lease)
    requires Identified(leases, records) && LiveInverse(live, leases, records) && Registered(leases, lease)
    requires live' == map l | l in live && !(l in records[lease.token].liveIds && live[l] == lease) :: live[l]
    ensures LiveInverse(live', leases - {lease.token}, records - {lease.token})
  {
  }

  lemma DurableAfterRelease(durable: Durable, durable': Durable, leases: map<Symbol, Lease>,
                            records: map<Symbol, Record>, lease: Lease)
    requires Identified(leases, records) && DurableInverse(durable, leases, records) && Registered(leases, lease)
    requires AliasesRemoved(durable, durable', lease, records[lease.token].durableIds)
    ensures DurableInverse(durable', leases - {lease.token}, records - {lease.token})
  {
  }

  lemma SameOwners(records: map<Symbol, Record>, t: Symbol, record: Record)
    requires t in records && record.owner == records[t].owner
    ensures forall o :: OwnedBy(records[t := record], o) == OwnedBy(records, o)
  {
  }

  lemma WiredAfterAlias(durable: Durable, durable': Durable, live: map<string, Lease>, leases: map<Symbol, Lease>,
                        owners: map<Owner, set<Symbol>>, r: Registry, lease: Lease, aliases: set<string>)
    requires Wired(durable, live, leases, owners, r.leases) && Registered(leases, lease)
    requires Free(r, lease.token, aliases) && AliasesAdded(durable, durable', lease, aliases)
    ensures Wired(durable', live, leases, owners, Aliased(r, lease.token, aliases).leases)
  {
    SameOwners(r.leases, lease.token, Aliased(r, lease.token, aliases).leases[lease.token]);
  }

  lemma WiredAfterLive(durable: Durable, live: map<string, Lease>, leases: map<Symbol, Lease>,
                       owners: map<Owner, set<Symbol>>, r: Registry, lease: Lease, liveId: string)
    requires Wired(durable, live, leases, owners, r.leases) && Registered(leases, lease)
    requires LiveFree(r, lease.token, liveId)
    ensures Wired(durable, live[liveId := lease], leases, owners, LiveBound(r, lease.token, liveId).leases)
  {
    SameOwners(r.leases, lease.token, LiveBound(r, lease.token, liveId).leases[lease.token]);
  }

  /** Changes to a record other than its owner, profile and ids leave the maps in agreement. */
  lemma WiredAfterChange(durable: Durable, live: map<string, Lease>, leases: map<Symbol, Lease>,
                         owners: map<Owner, set<Symbol>>, records: map<Symbol, Record>, t: Symbol, pending: set<Symbol>, bound: bool)
    requires Wired(durable, live, leases, owners, records) && t in records
    ensures Wired(durable, live, leases, owners, records[t := records[t].(pending := pending, bound := bound)])
  {
    SameOwners(records, t, records[t].(pending := pending, bound := bound));
  }

  lemma OneDurableHolder(durable: Durable, live: map<string, Lease>, leases: map<Symbol, Lease>,
                         owners: map<Owner, set<Symbol>>, r: Registry, profile: string, id: string)
    requires Wired(durable, live, leases, owners, r.leases)
    ensures var holder := Lookup(durable, profile, id);
      && DurableHolders(r, profile, id) == (if holder.Some? then {holder.value.token} else {})
      && (holder.Some? ==> Registered(leases, holder.value) && holder.value.profile == profile
                           && holder.value.owner == r.leases[holder.value.token].owner)
  {
    var holder := Lookup(durable, profile, id);
    forall t | t in DurableHolders(r, profile, id) ensures holder == Some(leases[t]) {
      assert id in r.leases[t].durableIds;
    }
    if holder.Some? {
      assert holder.value.token in DurableHolders(r, profile, id);
    }
  }

  lemma OwnerIndexAfterDrop(leases: map<Symbol, Record>, owner: Owner, token: Symbol)
    requires token in leases && leases[token].owner == owner
    ensures forall o :: OwnedBy(leases - {token}, o) == if o == owner then OwnedBy(leases, o) - {token} else OwnedBy(leases, o)
  {
  }

  lemma OwnerIndexAfterOpen(leases: map<Symbol, Record>, t: Symbol, lease: Record)
    requires t !in leases
    ensures forall o :: OwnedBy(leases[t := lease], o) == OwnedBy(leases, o) + if o == lease.owner then {t} else {}
  {
  }

  function WithAliases(known: map<string, Lease>, lease: Lease, aliases: set<string>): map<string, Lease> {
    map id | id in known.Keys + aliases :: if id in aliases then lease else known[id]
  }

  /** The aliases now name the lease; every other entry is as it was. */
  ghost predicate AliasesAdded(before: Durable, after: Durable, lease: Lease, aliases: set<string>) {
    && (forall id :: id in aliases ==> Lookup(after, lease.profile, id) == Some(lease))
    && (forall p, id :: p != lease.profile || id !in aliases ==> Lookup(after, p, id) == Lookup(before, p, id))
  }

  /** The aliases that named the lease are gone; every other entry is as it was. */
  ghost predicate AliasesRemoved(before: Durable, after: Durable, lease: Lease, aliases: set<string>) {
    forall p, id ::
      && (p == lease.profile && id in aliases && Lookup(before, p, id) == Some(lease) ==> Lookup(after, p, id).None?)
      && (!(p == lease.profile && id in aliases && Lookup(before, p, id) == Some(lease)) ==>
            Lookup(after, p, id) == Lookup(before, p, id))
  }

  lemma AliasesAddedBy(durable: Durable, lease: Lease, aliases: set<string>)
    ensures var known := if lease.profile in durable then durable[lease.profile] else map[];
      AliasesAdded(durable, durable[lease.profile := WithAliases(known, lease, aliases)], lease, aliases)
  {
  }

  lemma AliasesRemovedBy(durable: Durable, lease: Lease, aliases: set<string>, kept: map<string, Lease>)
    requires lease.profile in durable
    requires kept == map id | id in durable[lease.profile]
      && !(id in aliases && durable[lease.profile][id] == lease) :: durable[lease.profile][id]
    ensures AliasesRemoved(durable, if kept == map[] then durable - {lease.profile} else durable[lease.profile := kept], lease, aliases)
  {
    assert forall id :: id in kept ==> Lookup(durable, lease.profile, id) == Some(kept[id]);
  }

  // ---- The operations in the source's steps ------------------------------------------------------

  lemma OpenedInSteps(r: Registry, owner: Owner, profile: string, durableIds: set<string>)
    ensures Leased(r, owner, profile).next == r.next + 1
    ensures Joined(Leased(r, owner, profile), r.next) == Opened(r, owner, profile, {})
    ensures Joined(Aliased(Leased(r, owner, profile), r.next, durableIds), r.next) == Opened(r, owner, profile, durableIds)
  {
    assert {} + durableIds == durableIds;
    assert {} + {r.next + 1} == {r.next + 1};
    assert Joined(Leased(r, owner, profile), r.next).leases == Opened(r, owner, profile, {}).leases;
    var joined := Joined(Aliased(Leased(r, owner, profile), r.next, durableIds), r.next);
    assert joined.leases == Opened(r, owner, profile, durableIds).leases;
  }

  lemma FreeAfterLease(r: Registry, owner: Owner, profile: string, id: string)
    requires DurableHolders(r, profile, id) == {}
    ensures Free(Leased(r, owner, profile), r.next, {id})
  {
    var after := Leased(r, owner, profile);
    forall u | u in after.leases && u != r.next && after.leases[u].profile == profile ensures id !in after.leases[u].durableIds {
      assert u !in DurableHolders(r, profile, id);
    }
  }

  /** Binding, in the source's steps. */
  lemma BoundInSteps(r: Registry, t: Symbol, attempt: Symbol, aliases: set<string>, liveId: string)
    requires t in r.leases && Settled(r.leases[t]) && r.leases[t].durableIds <= aliases
    ensures r.leases[t].bound ==>
      AttemptDone(Aliased(r, t, aliases), t, attempt, true) == Rewritten(r, t, RotatedRecord(r.leases[t], attempt, aliases))
    ensures r.leases[t].bound ==>
      AttemptDone(r, t, attempt, true) == Rewritten(r, t, RotatedRecord(r.leases[t], attempt, r.leases[t].durableIds))
    ensures (r.leases[t].bound ==> liveId in r.leases[t].liveIds) ==>
      AttemptDone(LiveBound(Aliased(r, t, aliases), t, liveId), t, attempt, true)
        == Rewritten(r, t, BoundRecord(r.leases[t], attempt, aliases, liveId))
  {
    assert r.leases[t].durableIds + aliases == aliases;
    assert (r.leases[t].bound ==> liveId in r.leases[t].liveIds) ==> r.leases[t].liveIds + {liveId} == {liveId};
  }

  lemma ForgottenInSteps(r: Registry, c: Claim)
    ensures !Live(r, c) ==> ForgetAttempt(r, c) == r
    ensures Live(r, c) ==>
      var done := AttemptDone(r, c.token, c.attempt, r.leases[c.token].bound);
      ForgetAttempt(r, c) == if !done.leases[c.token].bound && done.leases[c.token].pending == {} then Released(done, {c.token}) else done
  {
  }

  lemma ReleasedTwice(r: Registry, a: set<Symbol>, b: set<Symbol>)
    ensures Released(Released(r, a), b) == Released(r, a + b)
  {
    assert r.leases - a - b == r.leases - (a + b);
  }

  predicate Collected(leases: map<Symbol, Lease>, conflicts: set<Lease>) {
    forall lease :: lease in conflicts ==> Registered(leases, lease)
  }

  /** No collision: the aliases are free, and the answer is a bind, a rotation or a forgotten attempt. */
  lemma AnsweredAlone(r: Registry, c: Claim, aliases: set<string>, liveId: string)
    requires Sound(r) && Live(r, c) && r.leases[c.token].durableIds <= aliases
    requires Conflicts(r, c.token, aliases, liveId) == {}
    ensures Free(r, c.token, aliases) && LiveFree(Aliased(r, c.token, aliases), c.token, liveId)
    ensures var me := r.leases[c.token];
      !(me.bound && |me.liveIds| > 0 && liveId !in me.liveIds) ==> me.liveIds == {} || liveId in me.liveIds
    ensures var me := r.leases[c.token];
      Answered(r, c, aliases, liveId, Conflicts(r, c.token, aliases, liveId)) ==
        if liveId !in r.closing && !(me.bound && |me.liveIds| > 0 && liveId !in me.liveIds) then
          (AttemptDone(LiveBound(Aliased(r, c.token, aliases), c.token, liveId), c.token, c.attempt, true), Bound)
        else if me.bound then (AttemptDone(Aliased(r, c.token, aliases), c.token, c.attempt, true), Binding.Conflict)
        else (ForgetAttempt(r, c), Binding.Conflict)
  {
    BoundInSteps(r, c.token, c.attempt, aliases, liveId);
    forall u | u in r.leases && u != c.token
      ensures liveId !in r.leases[u].liveIds
      ensures r.leases[u].profile == r.leases[c.token].profile ==> r.leases[u].durableIds !! aliases
    {
      assert u !in Conflicts(r, c.token, aliases, liveId);
    }
  }

  /** A bound lease that collides keeps its ids. */
  lemma AnsweredCollided(r: Registry, c: Claim, aliases: set<string>, liveId: string)
    requires Sound(r) && Live(r, c) && r.leases[c.token].durableIds <= aliases && r.leases[c.token].bound
    requires Conflicts(r, c.token, aliases, liveId) != {}
    ensures Answered(r, c, aliases, liveId, Conflicts(r, c.token, aliases, liveId))
      == (AttemptDone(r, c.token, c.attempt, true), Binding.Conflict)
  {
    BoundInSteps(r, c.token, c.attempt, aliases, liveId);
  }

  lemma AnsweredForget(r: Registry, c: Claim, aliases: set<string>, liveId: string)
    requires Live(r, c) && !r.leases[c.token].bound
    requires var conflicts := Conflicts(r, c.token, aliases, liveId);
      |conflicts| != 1 && (conflicts != {} || liveId in r.closing)
    ensures Answered(r, c, aliases, liveId, Conflicts(r, c.token, aliases, liveId)) == (ForgetAttempt(r, c), Binding.Conflict)
  {
  }

  lemma AnsweredMerge(r: Registry, c: Claim, aliases: set<string>, liveId: string, t: Symbol)
    requires Sound(r) && Live(r, c) && r.leases[c.token].durableIds <= aliases && !r.leases[c.token].bound
    requires Conflicts(r, c.token, aliases, liveId) == {t}
    ensures t in r.leases && t != c.token
    ensures r.leases[t].profile == r.leases[c.token].profile ==> Free(Released(r, {c.token}), t, aliases)
    ensures Answered(r, c, aliases, liveId, {t}) ==
      (Released(if r.leases[t].profile == r.leases[c.token].profile then Aliased(r, t, aliases) else r, {c.token}), Binding.Conflict)
  {
    assert t in Conflicts(r, c.token, aliases, liveId);
    forall u | u in r.leases && u != t && u != c.token && r.leases[u].profile == r.leases[c.token].profile
      ensures r.leases[u].durableIds !! aliases
    {
      assert u !in Conflicts(r, c.token, aliases, liveId);
    }
    assert Rewritten(r, t, r.leases[t]) == r;
  }

  lemma SameSize(leases: map<Symbol, Lease>, records: map<Symbol, Record>, conflicts: set<Lease>, tokens: set<Symbol>)
    requires Identified(leases, records) && Collected(leases, conflicts) && tokens <= records.Keys
    requires forall t :: t in records ==> (leases[t] in conflicts <==> t in tokens)
    ensures |conflicts| == |tokens|
    ensures forall lease :: conflicts == {lease} ==> tokens == {lease.token}
    decreases |conflicts|
  {
    if conflicts == {} {
      assert forall t :: t in records ==> leases[t] !in conflicts;
      assert tokens == {};
    } else {
      var lease :| lease in conflicts;
      assert Registered(leases, lease) && leases[lease.token] in conflicts;
      SameSize(leases, records, conflicts - {lease}, tokens - {lease.token});
      if conflicts == {lease} { assert tokens - {lease.token} == {}; }
    }
  }

  class ChatSessionCoordinator {
    var durable: Durable
    var live: map<string, Lease>
    var leases: map<Symbol, Lease>
    var owners: map<Owner, set<Symbol>>
    var closing: map<string, Symbol>
    var next: Symbol

    ghost var view: Registry   // the same leases as one plain record
    ghost var repr: set<Lease>

    /** The five maps agree with one another and with the view. */
    ghost predicate Agree()
      reads this, repr
    {
      closing == view.closing && Linked() && Wired(durable, live, leases, owners, view.leases)
    }

    /** The leases, reservations and symbols are those of the view, whatever the other maps hold. */
    ghost predicate Linked()
      reads this, repr
    {
      closing == view.closing && next == view.next && Below(view.leases, next) && Mirrored(leases, view.leases, repr)
    }

    constructor ()
      ensures Agree() && Sound(view) && view == Registry(map[], map[], 0) && fresh(repr)
    {
      durable, live, leases, owners, closing, next := map[], map[], map[], map[], map[], 0;
      view, repr := Registry(map[], map[], 0), {};
    }

    // ---- Private steps ---------------------------------------------------------------------------

    method AddAliases(lease: Lease, aliases: set<string>, known: map<string, Lease>) returns (after: map<string, Lease>)
      modifies lease`durableIds
      ensures lease.durableIds == old(lease.durableIds) + aliases
      ensures after == WithAliases(known, lease, aliases)
    {
      after := known;
      var todo := aliases;
      while todo != {}
        invariant todo <= aliases
        invariant lease.durableIds == old(lease.durableIds) + (aliases - todo)
        invariant after == WithAliases(known, lease, aliases - todo)
        decreases todo
      {
        var alias :| alias in todo;
        lease.durableIds := lease.durableIds + {alias};
        after := after[alias := lease];
        todo := todo - {alias};
      }
    }

    method BindDurableAliases(lease: Lease, aliases: set<string>)
      requires Linked() && Registered(leases, lease)
      modifies this`durable, this`view, lease`durableIds
      ensures Linked() && view == Aliased(old(view), lease.token, aliases)
      ensures AliasesAdded(old(durable), durable, lease, aliases)
      ensures old(Agree() && Free(view, lease.token, aliases)) ==> Agree()
    {
      hide Wired, Mirrored, MirroredElsewhere, Free, AliasesAdded, WithAliases;
      MirroredApart(leases, view.leases, repr, lease);
      var known: map<string, Lease> := if lease.profile in durable then durable[lease.profile] else map[];
      var profileAliases := AddAliases(lease, aliases, known);
      AliasesAddedBy(durable, lease, aliases);
      durable := durable[lease.profile := profileAliases];
      if old(Agree()) && Free(view, lease.token, aliases) {
        WiredAfterAlias(old(durable), durable, live, leases, owners, view, lease, aliases);
      }
      MirroredTogether(leases, view.leases, repr, lease, Aliased(view, lease.token, aliases).leases[lease.token]);
      view := Aliased(view, lease.token, aliases);
    }

    /** The source throws when the lease already carries another live id; no caller lets that happen. */
    method BindLiveAlias(lease: Lease, liveId: string)
      requires lease.liveIds == {} || liveId in lease.liveIds
      requires Agree() && Registered(leases, lease) && LiveFree(view, lease.token, liveId)
      modifies this`live, this`view, lease`liveIds
      ensures Agree() && view == LiveBound(old(view), lease.token, liveId)
    {
      hide Wired, Mirrored, MirroredElsewhere, LiveFree;
      MirroredApart(leases, view.leases, repr, lease);
      lease.liveIds := lease.liveIds + {liveId};
      live := live[liveId := lease];
      WiredAfterLive(durable, old(live), leases, owners, view, lease, liveId);
      MirroredTogether(leases, view.leases, repr, lease, LiveBound(view, lease.token, liveId).leases[lease.token]);
      view := LiveBound(view, lease.token, liveId);
    }

    /** The attempt is answered; the lease is bound from now on when `bound` says so. */
    method FinishAttempt(lease: Lease, attempt: Symbol, bound: bool)
      requires Agree() && Registered(leases, lease)
      modifies this`view, lease`pending, lease`bound
      ensures Agree() && view == AttemptDone(old(view), lease.token, attempt, bound)
      ensures lease.pending == old(lease.pending) - {attempt} && lease.bound == bound
    {
      hide Wired, Mirrored, MirroredElsewhere;
      MirroredApart(leases, view.leases, repr, lease);
      lease.pending, lease.bound := lease.pending - {attempt}, bound;
      WiredAfterChange(durable, live, leases, owners, view.leases, lease.token, lease.pending, bound);
      MirroredTogether(leases, view.leases, repr, lease, AttemptDone(view, lease.token, attempt, bound).leases[lease.token]);
      view := AttemptDone(view, lease.token, attempt, bound);
    }

    method NewClaim(lease: Lease) returns (c: Claim)
      requires Agree() && Registered(leases, lease)
      modifies this`next, this`view, lease`pending
      ensures Agree() && view == Joined(old(view), lease.token)
      ensures c == Claim(lease.token, old(view).next, lease.owner)
    {
      hide Wired, Mirrored, MirroredElsewhere;
      MirroredApart(leases, view.leases, repr, lease);
      lease.pending := lease.pending + {next};
      c := Claim(lease.token, next, lease.owner);
      WiredAfterChange(durable, live, leases, owners, view.leases, lease.token, lease.pending, lease.bound);
      MirroredTogether(leases, view.leases, repr, lease, Joined(view, lease.token).leases[lease.token]);
      view := Joined(view, lease.token);
      next := next + 1;
    }

    method NewLease(owner: Owner, profile: string) returns (lease: Lease)
      requires Agree()
      modifies this`leases, this`owners, this`next, this`repr, this`view
      ensures Agree() && fresh(lease) && repr == old(repr) + {lease}
      ensures view == Leased(old(view), owner, profile)
      ensures lease.token == old(view).next && lease.owner == owner && lease.profile == profile
      ensures Registered(leases, lease)
    {
      hide Wired, Mirrored;
      lease := new Lease(next, owner, profile);
      MirroredAfterOpen(leases, view.leases, repr, lease);
      WiredAfterOpen(durable, live, leases, owners, view.leases, lease);
      leases, repr := leases[next := lease], repr + {lease};
      owners := owners[owner := (if owner in owners then owners[owner] else {}) + {next}];
      view := Leased(view, owner, profile);
      next := next + 1;
    }

    method DropAliases(lease: Lease)
      modifies this`durable
      ensures AliasesRemoved(old(durable), durable, lease, lease.durableIds)
    {
      if lease.profile in durable {
        var kept := map id | id in durable[lease.profile]
          && !(id in lease.durableIds && durable[lease.profile][id] == lease) :: durable[lease.profile][id];
        AliasesRemovedBy(durable, lease, lease.durableIds, kept);
        durable := if kept == map[] then durable - {lease.profile} else durable[lease.profile := kept];
      }
    }

    /** Unregisters a lease and drops the entries of the other maps that still name it. */
    method ReleaseRegistered(lease: Lease)
      requires Linked() && Registered(leases, lease) && lease.owner in owners
      modifies this`durable, this`live, this`leases, this`owners, this`view
      ensures Linked() && view == Released(old(view), {lease.token}) && leases == old(leases) - {lease.token}
      ensures AliasesRemoved(old(durable), durable, lease, old(view).leases[lease.token].durableIds)
      ensures live == map l | l in old(live) && !(l in old(view).leases[lease.token].liveIds && old(live)[l] == lease) :: old(live)[l]
      ensures owners == Dropped(old(owners), lease.owner, lease.token)
    {
      hide Mirrored, MirroredElsewhere, AliasesRemoved, Dropped;
      MirroredApart(leases, view.leases, repr, lease);
      MirroredAfterRelease(leases, view.leases, repr, lease.token);
      leases := leases - {lease.token};
      DropAliases(lease);
      live := map l | l in live && !(l in lease.liveIds && live[l] == lease) :: live[l];
      owners := Dropped(owners, lease.owner, lease.token);
      view := Released(view, {lease.token});
    }

    method ReleaseLeaseObject(lease: Lease)
      requires Agree() && Registered(leases, lease)
      modifies this`durable, this`live, this`leases, this`owners, this`view
      ensures Agree() && view == Released(old(view), {lease.token}) && leases == old(leases) - {lease.token}
    {
      hide Wired, Mirrored, AliasesRemoved, Dropped;
      HasOwner(durable, live, leases, owners, view.leases, lease);
      ReleaseRegistered(lease);
      WiredAfterRelease(old(durable), durable, old(live), live, old(leases), old(owners), old(view).leases, lease);
    }

    /** Folds a claim's lease into the one it collided with. */
    method MergeInto(existing: Lease, lease: Lease, aliases: set<string>)
      requires Agree() && Registered(leases, lease) && Registered(leases, existing) && lease != existing
      requires view.leases[lease.token].durableIds <= aliases
      requires existing.profile == lease.profile ==> Free(Released(view, {lease.token}), existing.token, aliases)
      modifies this`durable, this`live, this`leases, this`owners, this`view, existing`durableIds
      ensures Agree()
      ensures view == Released(if existing.profile == lease.profile then Aliased(old(view), existing.token, aliases) else old(view),
                               {lease.token})
    {
      hide Wired, Mirrored, AliasesRemoved, AliasesAdded, Dropped;
      if existing.profile != lease.profile {
        ReleaseLeaseObject(lease);
        return;
      }
      HasOwner(durable, live, leases, owners, view.leases, lease);
      BindDurableAliases(existing, aliases);
      ghost var between := durable;
      ReleaseRegistered(lease);
      WiredAfterMerge(old(durable), between, durable, old(live), live, old(leases), old(owners), old(view), lease, existing, aliases);
    }

    // ---- Lookups ---------------------------------------------------------------------------------

    function DurableLease(profile: string, id: string): (r: Option<Lease>)
      requires Agree()
      reads this, repr
      ensures DurableHolders(view, profile, id) == if r.Some? then {r.value.token} else {}
      ensures r.Some? ==> Registered(leases, r.value) && r.value in repr
                          && r.value.profile == profile && r.value.owner == view.leases[r.value.token].owner
    {
      OneDurableHolder(durable, live, leases, owners, view, profile, id);
      Lookup(durable, profile, id)
    }

    function LiveLease(liveId: string): (r: Option<Lease>)
      requires Agree()
      reads this, repr
      ensures r.Some? ==> Registered(leases, r.value) && r.value in repr && r.value.owner == view.leases[r.value.token].owner
      ensures forall t :: Routes(view, t, liveId) <==> r.Some? && r.value.token == t
    {
      if liveId in live then Some(live[liveId]) else None
    }

    function LeaseFor(c: Claim): (r: Option<Lease>)
      requires Agree()
      reads this, repr
      ensures r.Some? <==> Live(view, c)
      ensures r.Some? ==> r.value.token == c.token && Registered(leases, r.value) && r.value in repr
                          && Mirrors(r.value, view.leases[c.token]) && r.value.profile == view.leases[c.token].profile
    {
      if c.token in leases && leases[c.token].owner == c.owner && c.attempt in leases[c.token].pending then Some(leases[c.token]) else None
    }

    function OwnerLeaseCount(owner: Owner): nat
      requires Agree()
      reads this, repr
      ensures OwnerLeaseCount(owner) == |OwnedBy(view.leases, owner)|
    {
      if owner in owners then |owners[owner]| else 0
    }

    predicate CanCreateLease(owner: Owner)
      requires Agree()
      reads this, repr
      ensures CanCreateLease(owner) <==> CanCreate(view, owner)
    {
      assert |leases.Keys| == |view.leases.Keys|;
      OwnerLeaseCount(owner) < MAX_LEASES_PER_OWNER && |leases| < MAX_LEASES_TOTAL
    }

    /** Identifies the event route even while commands are fenced for close. */
    function RoutingLeaseToken(owner: Owner, liveId: string): (r: Option<Symbol>)
      requires Agree()
      reads this, repr
      ensures forall t :: r == Some(t) <==> Routes(view, t, liveId) && view.leases[t].owner == owner
    {
      var lease := LiveLease(liveId);
      if lease.Some? && lease.value.owner == owner then Some(lease.value.token) else None
    }

    /** Authorizes commands: absent while the live id is being closed. */
    function LiveLeaseToken(owner: Owner, liveId: string): (r: Option<Symbol>)
      requires Agree()
      reads this, repr
      ensures forall t :: r == Some(t) <==>
        Routes(view, t, liveId) && view.leases[t].owner == owner && liveId !in view.closing
    {
      if liveId in closing then None else RoutingLeaseToken(owner, liveId)
    }

    // ---- Claims ----------------------------------------------------------------------------------

    /** A refused claim is the thrown limit error. */
    method CreateClaim(owner: Owner, profile: Option<string>) returns (c: Option<Claim>)
      requires Agree()
      modifies this
      ensures Agree() && fresh(repr - old(repr))
      ensures (view, c) == ClaimCreate(old(view), owner, Normalized(profile))
    {
      hide Agree, CanCreate, Opened, Leased, Joined;
      if !CanCreateLease(owner) { return None; }
      var lease := NewLease(owner, Normalized(profile));
      var claim := NewClaim(lease);
      OpenedInSteps(old(view), owner, Normalized(profile), {});
      return Some(claim);
    }

    method ResumeClaim(owner: Owner, profile: Option<string>, requestedId: string) returns (c: Option<Claim>)
      requires Agree()
      modifies this, repr
      ensures Agree() && fresh(repr - old(repr))
      ensures (view, c) == ClaimResume(old(view), owner, Normalized(profile), requestedId)
    {
      hide Linked, Wired, CanCreate, Opened, Joined, DurableHolders, DurableLease;
      var normalized := Normalized(profile);
      var existing := DurableLease(normalized, requestedId);
      if existing.Some? {
        var lease := existing.value;
        if lease.owner != owner || lease.profile != normalized { return None; }
        var claim := NewClaim(lease);
        return Some(claim);
      }
      if !CanCreateLease(owner) { return None; }
      var lease := NewLease(owner, normalized);
      FreeAfterLease(old(view), owner, normalized, requestedId);
      BindDurableAliases(lease, {requestedId});
      var claim := NewClaim(lease);
      OpenedInSteps(old(view), owner, normalized, {requestedId});
      return Some(claim);
    }

    method ReleaseFailedClaim(c: Claim)
      requires Agree() && Sound(view)
      modifies this, repr
      ensures Agree() && repr == old(repr) && view == ForgetAttempt(old(view), c)
    {
      hide Linked, Wired, ForgetAttempt;
      ForgottenInSteps(view, c);
      var lease := LeaseFor(c);
      if lease.None? { return; }
      FinishAttempt(lease.value, c.attempt, lease.value.bound);
      if !lease.value.bound && lease.value.pending == {} {
        ReleaseLeaseObject(lease.value);
      }
    }

    /** The leases other than `lease` that hold one of the aliases, or the live id. */
    method CollectConflicts(lease: Lease, aliases: set<string>, liveId: string) returns (conflicts: set<Lease>)
      requires Agree() && Registered(leases, lease)
      ensures Collected(leases, conflicts) && conflicts <= repr
      ensures forall other :: other in conflicts ==> other.token in view.leases && view.leases[other.token].profile == other.profile
      ensures |conflicts| == |Conflicts(view, lease.token, aliases, liveId)|
      ensures forall other :: conflicts == {other} ==> Conflicts(view, lease.token, aliases, liveId) == {other.token}
    {
      conflicts := {};
      var todo := aliases;
      while todo != {}
        invariant todo <= aliases && Collected(leases, conflicts) && conflicts <= repr
        invariant forall t :: t in view.leases ==> (leases[t] in conflicts <==>
          t != lease.token && view.leases[t].profile == lease.profile && !(view.leases[t].durableIds !! (aliases - todo)))
        decreases todo
      {
        var alias :| alias in todo;
        var current := DurableLease(lease.profile, alias);
        if current.Some? && current.value != lease { conflicts := conflicts + {current.value}; }
        todo := todo - {alias};
      }
      var liveLease := LiveLease(liveId);
      if liveLease.Some? && liveLease.value != lease { conflicts := conflicts + {liveLease.value}; }
      SameSize(leases, view.leases, conflicts, Conflicts(view, lease.token, aliases, liveId));
    }

    method BindClaim(c: Claim, storedId: Option<string>, liveId: Option<string>, requireStored: bool) returns (result: Binding)
      requires Agree() && Sound(view)
      modifies this, repr
      ensures Agree() && repr == old(repr)
      ensures (view, result) == LeaseRegistry.BindClaim(old(view), c, storedId, liveId, requireStored)
    {
      hide Linked, Wired, Sound, Conflicts, Answered;
      var found := LeaseFor(c);
      if found.None? || liveId.None? || (requireStored && storedId.None?) { return Invalid; }
      var lease := found.value;
      var aliases := Aliases(view.leases[c.token], storedId);
      result := Answer(c, lease, lease.durableIds + (if storedId.Some? then {storedId.value} else {}), liveId.value);
    }

    method Answer(c: Claim, lease: Lease, aliases: set<string>, liveId: string) returns (result: Binding)
      requires Agree() && Sound(view) && Live(view, c) && lease.token == c.token && Registered(leases, lease)
      requires Mirrors(lease, view.leases[c.token]) && lease.profile == view.leases[c.token].profile
      requires lease in repr && lease.durableIds <= aliases
      modifies this, repr
      ensures Agree() && repr == old(repr)
      ensures (view, result) == Answered(old(view), c, aliases, liveId, Conflicts(old(view), c.token, aliases, liveId))
    {
      hide Linked, Wired, Sound, Conflicts, Answered, Aliased, LiveBound, Free, LiveFree;
      var conflicts := CollectConflicts(lease, aliases, liveId);
      var liveClosing := liveId in closing;
      var changesBoundLive := lease.bound && |lease.liveIds| > 0 && liveId !in lease.liveIds;
      if |conflicts| == 0 { AnsweredAlone(view, c, aliases, liveId); }

      if |conflicts| == 0 && !liveClosing && !changesBoundLive {
        BindDurableAliases(lease, aliases);
        BindLiveAlias(lease, liveId);
        FinishAttempt(lease, c.attempt, true);
        return Bound;
      }
      if lease.bound {
        if |conflicts| == 0 {
          BindDurableAliases(lease, aliases);
        } else {
          AnsweredCollided(view, c, aliases, liveId);
        }
        FinishAttempt(lease, c.attempt, true);
        return Binding.Conflict;
      }
      if |conflicts| == 1 {
        var existing :| existing in conflicts;
        assert conflicts == {existing} by { SingletonIs(conflicts, existing); }
        AnsweredMerge(view, c, aliases, liveId, existing.token);
        MergeInto(existing, lease, aliases);
        return Binding.Conflict;
      }
      AnsweredForget(view, c, aliases, liveId);
      ReleaseFailedClaim(c);
      return Binding.Conflict;
    }

    // ---- Releasing -------------------------------------------------------------------------------

    method ReleaseLease(owner: Owner, token: Symbol) returns (released: bool)
      requires Agree()
      modifies this, repr
      ensures Agree() && repr == old(repr) && view == LeaseRegistry.ReleaseLease(old(view), owner, token)
      ensures released == (view != old(view))
    {
      var lease := LeaseOf(token);
      hide Agree;
      if lease.None? || lease.value.owner != owner { return false; }
      ReleaseLeaseObject(lease.value);
      assert token in old(view).leases && token !in view.leases;
      return true;
    }

    function LeaseOf(token: Symbol): (r: Option<Lease>)
      requires Agree()
      reads this, repr
      ensures r.Some? <==> token in view.leases
      ensures r.Some? ==> r.value.token == token && Registered(leases, r.value) && r.value in repr
                          && r.value.owner == view.leases[token].owner && r.value.liveIds == view.leases[token].liveIds
    {
      if token in leases then Some(leases[token]) else None
    }

    /** Releases the listed leases one by one; a token that is no longer registered is passed over. */
    method ReleaseTokens(tokens: set<Symbol>)
      requires Agree()
      modifies this, repr
      ensures Agree() && repr == old(repr) && view == Released(old(view), tokens)
    {
      hide Agree;
      var todo := tokens;
      while todo != {}
        invariant todo <= tokens && Agree() && repr == old(repr)
        invariant view == Released(old(view), tokens - todo)
        decreases todo
      {
        var token :| token in todo;
        var lease := LeaseOf(token);
        ReleasedTwice(old(view), tokens - todo, {token});
        if lease.Some? { ReleaseLeaseObject(lease.value); }
        assert tokens - todo + {token} == tokens - (todo - {token});
        todo := todo - {token};
      }
    }

    method ReleaseOwner(owner: Owner)
      requires Agree()
      modifies this, repr
      ensures Agree() && repr == old(repr) && view == Released(old(view), OwnedBy(old(view).leases, owner))
    {
      assert (if owner in owners then owners[owner] else {}) == OwnedBy(view.leases, owner);
      ReleaseTokens(if owner in owners then owners[owner] else {});
    }

    method ReleaseUnboundTokens(tokens: set<Symbol>, ghost unbound: set<Symbol>)
      requires Agree() && tokens <= view.leases.Keys
      requires unbound <= tokens && forall t :: t in tokens ==> (t in unbound <==> view.leases[t].liveIds == {})
      modifies this, repr
      ensures Agree() && repr == old(repr) && view == Released(old(view), unbound)
    {
      hide Agree;
      var todo := tokens;
      ghost var done := {};
      while todo != {}
        invariant Agree() && repr == old(repr) && view == Released(old(view), done)
        invariant done <= unbound && unbound <= done + todo && done !! todo && todo <= tokens
        decreases todo
      {
        var token :| token in todo;
        var lease := LeaseOf(token);
        if lease.Some? && |lease.value.liveIds| == 0 {
          ReleasedTwice(old(view), done, {token});
          ReleaseLeaseObject(lease.value);
          done := done + {token};
        }
        todo := todo - {token};
      }
      assert done == unbound;
    }

    method ReleaseUnboundOwnerLeases(owner: Owner)
      requires Agree()
      modifies this, repr
      ensures Agree() && repr == old(repr) && view == ReleaseUnboundLeases(old(view), owner)
    {
      var tokens := if owner in owners then owners[owner] else {};
      assert tokens == OwnedBy(view.leases, owner);
      ReleaseUnboundTokens(tokens, set t | t in OwnedBy(view.leases, owner) && view.leases[t].liveIds == {});
    }

    method ReleaseAll()
      requires Agree()
      modifies this, repr
      ensures Agree() && repr == old(repr) && view == Step(old(view), Op.ReleaseAll)
    {
      assert leases.Keys == view.leases.Keys;
      ReleaseTokens(leases.Keys);
      closing, view := map[], view.(closing := map[]);
    }

    // ---- Close reservations ----------------------------------------------------------------------

    method ReserveIds(ids: set<string>) returns (token: Symbol)
      requires Agree()
      modifies this`closing, this`next, this`view
      ensures Agree() && token == old(view).next && view == Reserved(old(view), ids)
    {
      hide Wired, Mirrored;
      token := next;
      closing := map l | l in closing.Keys + ids :: if l in ids then token else closing[l];
      next := next + 1;
      view := Reserved(view, ids);
    }

    method ClaimOwnedLeaseClose(owner: Owner, snapshot: Snapshot) returns (token: Option<Symbol>)
      requires Agree()
      modifies this
      ensures Agree() && repr == old(repr)
      ensures token == if CanReserveOwned(old(view), owner, snapshot) then Some(old(view).next) else None
      ensures view == if token.Some? then Reserved(old(view), snapshot.liveIds) else old(view)
    {
      var lease := LeaseOf(snapshot.token);
      if lease.None? || lease.value.owner != owner || |lease.value.liveIds| != |snapshot.liveIds| || |snapshot.liveIds| == 0 {
        return None;
      }
      var todo := snapshot.liveIds;
      while todo != {}
        invariant todo <= snapshot.liveIds
        invariant snapshot.liveIds - todo <= lease.value.liveIds && (snapshot.liveIds - todo) !! closing.Keys
        decreases todo
      {
        var liveId :| liveId in todo;
        var holder := LiveLease(liveId);
        assert holder == Some(lease.value) <==> Routes(view, snapshot.token, liveId);
        if holder != lease || liveId in closing { return None; }
        todo := todo - {liveId};
      }
      SubsetSize(snapshot.liveIds, lease.value.liveIds);
      var symbol := ReserveIds(snapshot.liveIds);
      return Some(symbol);
    }

    method ClaimUnownedLiveClose(liveId: string) returns (token: Option<Symbol>)
      requires Agree()
      modifies this
      ensures Agree() && repr == old(repr)
      ensures token == if CanReserveUnowned(old(view), liveId) then Some(old(view).next) else None
      ensures view == if token.Some? then Reserved(old(view), {liveId}) else old(view)
    {
      if LiveLease(liveId).Some? {
        assert Routes(view, LiveLease(liveId).value.token, liveId);
        return None;
      }
      assert forall t :: !Routes(view, t, liveId);
      if liveId in closing { return None; }
      var symbol := ReserveIds({liveId});
      return Some(symbol);
    }

    /** Ends the reservations that still carry this symbol: both finishers of the source. */
    method FinishClose(ids: set<string>, token: Symbol)
      requires Agree()
      modifies this`closing, this`view
      ensures Agree() && view == Finished(old(view), ids, token)
    {
      hide Wired, Mirrored;
      var todo := ids;
      while todo != {}
        invariant todo <= ids
        invariant view == old(view)
        invariant closing == map l | l in old(closing) && !(l in ids - todo && old(closing)[l] == token) :: old(closing)[l]
        decreases todo
      {
        var liveId :| liveId in todo;
        if liveId in closing && closing[liveId] == token { closing := closing - {liveId}; }
        todo := todo - {liveId};
      }
      assert ids - todo == ids;
      view := Finished(view, ids, token);
    }

    // ---- Runs ------------------------------------------------------------------------------------

    method Do(op: Op)
      requires Agree() && Sound(view)
      modifies this, repr
      ensures Agree() && fresh(repr - old(repr))
      ensures view == Step(old(view), op) && Sound(view)
    {
      StepSound(view, op);
      hide Agree, Sound, ClaimResume, LeaseRegistry.BindClaim, CanReserveOwned, CanReserveUnowned, OwnedBy;
      match op {
        case Create(owner, profile) => var _ := CreateClaim(owner, Some(profile));
        case Resume(owner, profile, id) => var _ := ResumeClaim(owner, Some(profile), id);
        case Bind(claim, storedId, liveId, requireStored) => var _ := BindClaim(claim, storedId, liveId, requireStored);
        case Forget(claim) => ReleaseFailedClaim(claim);
        case Release(owner, token) => var _ := ReleaseLease(owner, token);
        case ReleaseOwner(owner) => ReleaseOwner(owner);
        case ReleaseUnbound(owner) => ReleaseUnboundOwnerLeases(owner);
        case ReleaseAll => ReleaseAll();
        case ReserveOwned(owner, snapshot) => var _ := ClaimOwnedLeaseClose(owner, snapshot);
        case ReserveUnowned(id) => var _ := ClaimUnownedLiveClose(id);
        case Finish(ids, token) => FinishClose(ids, token);
      }
    }

    /** Every run of the coordinator is a run of the plain registry, so its leases stay sound. */
    method Run(ops: seq<Op>)
      requires Agree() && Sound(view)
      modifies this, repr
      ensures Agree() && fresh(repr - old(repr))
      ensures view == Steps(old(view), ops) && Sound(view)
      decreases |ops|
    {
      hide Agree, Sound, Step;
      if ops != [] {
        Do(ops[0]);
        Run(ops[1..]);
      }
    }
  }
}
