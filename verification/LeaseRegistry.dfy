/**
 The chat leases as one set of records, with no lookup maps: what the five maps of
 ChatSessionCoordinator must agree on. Symbols are numbers handed out once.
 */
module LeaseRegistry {
  import opened FiniteSets
  import opened Outcomes

  const DEFAULT_PROFILE := "default"
  const MAX_LEASES_PER_OWNER := 4
  const MAX_LEASES_TOTAL := 256

  type Owner = nat
  type Symbol = nat

  datatype Record = Record(
    owner: Owner, profile: string, durableIds: set<string>, liveIds: set<string>, pending: set<Symbol>, bound: bool)

  datatype Registry = Registry(leases: map<Symbol, Record>, closing: map<string, Symbol>, next: Symbol)

  datatype Claim = Claim(token: Symbol, attempt: Symbol, owner: Owner)
  datatype Snapshot = Snapshot(token: Symbol, owner: Owner, liveIds: set<string>)
  datatype Binding = Bound | Conflict | Invalid

  // ---- The invariant -----------------------------------------------------------------------------

  function OwnedBy(leases: map<Symbol, Record>, owner: Owner): set<Symbol> {
    set t | t in leases && leases[t].owner == owner
  }

  predicate Apart(a: Record, b: Record) {
    a.liveIds !! b.liveIds && (a.profile == b.profile ==> a.durableIds !! b.durableIds)
  }

  /** Bound exactly when it has its one live id; kept without one only while an attempt is pending. */
  ghost predicate Settled(lease: Record) {
    && (lease.bound ==> exists l :: lease.liveIds == {l})
    && (!lease.bound ==> lease.liveIds == {} && lease.pending != {})
  }

  ghost predicate EachSettled(leases: map<Symbol, Record>) {
    forall t :: t in leases ==> Settled(leases[t])
  }

  ghost predicate AllApart(leases: map<Symbol, Record>) {
    forall t, u :: t in leases && u in leases && t != u ==> Apart(leases[t], leases[u])
  }

  ghost predicate Limited(leases: map<Symbol, Record>) {
    && |leases| <= MAX_LEASES_TOTAL
    && (forall owner :: |OwnedBy(leases, owner)| <= MAX_LEASES_PER_OWNER)
  }

  ghost predicate Numbered(r: Registry) {
    && (forall t :: t in r.leases ==> t < r.next && forall a :: a in r.leases[t].pending ==> a < r.next)
    && (forall l :: l in r.closing ==> r.closing[l] < r.next)
  }

  ghost predicate Sound(r: Registry) {
    EachSettled(r.leases) && AllApart(r.leases) && Limited(r.leases) && Numbered(r)
  }

  /** Event routing: a lease hears a live id exactly when it carries it. */
  predicate Routes(r: Registry, t: Symbol, liveId: string) {
    t in r.leases && liveId in r.leases[t].liveIds
  }

  predicate CanCreate(r: Registry, owner: Owner) {
    |OwnedBy(r.leases, owner)| < MAX_LEASES_PER_OWNER && |r.leases| < MAX_LEASES_TOTAL
  }

  // ---- Operations --------------------------------------------------------------------------------

  function Opened(r: Registry, owner: Owner, profile: string, durableIds: set<string>): Registry {
    r.(leases := r.leases[r.next := Record(owner, profile, durableIds, {}, {r.next + 1}, false)], next := r.next + 2)
  }

  function ClaimCreate(r: Registry, owner: Owner, profile: string): (Registry, Option<Claim>) {
    if CanCreate(r, owner) then (Opened(r, owner, profile, {}), Some(Claim(r.next, r.next + 1, owner))) else (r, None)
  }

  function DurableHolders(r: Registry, profile: string, id: string): set<Symbol> {
    set t | t in r.leases && r.leases[t].profile == profile && id in r.leases[t].durableIds
  }

  /** One more attempt on a lease that is already there. */
  function Joined(r: Registry, t: Symbol): Registry
    requires t in r.leases
  {
    r.(leases := r.leases[t := r.leases[t].(pending := r.leases[t].pending + {r.next})], next := r.next + 1)
  }

  ghost function ClaimResume(r: Registry, owner: Owner, profile: string, id: string): (Registry, Option<Claim>) {
    var holders := DurableHolders(r, profile, id);
    if holders != {} then
      var t :| t in holders;
      if r.leases[t].owner != owner then (r, None)
      else (Joined(r, t), Some(Claim(t, r.next, owner)))
    else if CanCreate(r, owner) then (Opened(r, owner, profile, {id}), Some(Claim(r.next, r.next + 1, owner)))
    else (r, None)
  }

  predicate Live(r: Registry, c: Claim) {
    c.token in r.leases && r.leases[c.token].owner == c.owner && c.attempt in r.leases[c.token].pending
  }

  function Released(r: Registry, tokens: set<Symbol>): Registry {
    r.(leases := r.leases - tokens)
  }

  /** Forgets one attempt; a lease left without a live id or an attempt goes with it. */
  function ForgetAttempt(r: Registry, c: Claim): Registry {
    if !Live(r, c) then r
    else
      var lease := r.leases[c.token].(pending := r.leases[c.token].pending - {c.attempt});
      if !lease.bound && lease.pending == {} then Released(r, {c.token})
      else r.(leases := r.leases[c.token := lease])
  }

  /** The other leases that hold one of the aliases in the same profile, or the live id. */
  function Conflicts(r: Registry, token: Symbol, aliases: set<string>, liveId: string): set<Symbol>
    requires token in r.leases
  {
    set t | t in r.leases && t != token
      && ((r.leases[t].profile == r.leases[token].profile && !(r.leases[t].durableIds !! aliases))
          || liveId in r.leases[t].liveIds)
  }

  function MergedRecord(me: Record, other: Record, aliases: set<string>): Record {
    if other.profile == me.profile then other.(durableIds := other.durableIds + aliases) else other
  }

  function Merged(r: Registry, c: Claim, t: Symbol, aliases: set<string>): Registry
    requires c.token in r.leases && t in r.leases
  {
    Released(r.(leases := r.leases[t := MergedRecord(r.leases[c.token], r.leases[t], aliases)]), {c.token})
  }

  function Rewritten(r: Registry, t: Symbol, lease: Record): Registry {
    r.(leases := r.leases[t := lease])
  }

  function BoundRecord(me: Record, attempt: Symbol, aliases: set<string>, liveId: string): Record {
    me.(durableIds := aliases, liveIds := {liveId}, pending := me.pending - {attempt}, bound := true)
  }

  function RotatedRecord(me: Record, attempt: Symbol, aliases: set<string>): Record {
    me.(durableIds := aliases, pending := me.pending - {attempt})
  }

  function Aliases(me: Record, storedId: Option<string>): set<string> {
    me.durableIds + if storedId.Some? then {storedId.value} else {}
  }

  /** An authoritative answer for a live claim, given the other leases it collides with. */
  ghost function Answered(r: Registry, c: Claim, aliases: set<string>, liveId: string, conflicts: set<Symbol>)
    : (Registry, Binding)
    requires Live(r, c) && conflicts <= r.leases.Keys
  {
    var me := r.leases[c.token];
    if conflicts == {} && liveId !in r.closing && (me.bound ==> liveId in me.liveIds) then
      (Rewritten(r, c.token, BoundRecord(me, c.attempt, aliases, liveId)), Bound)
    else if me.bound then
      (Rewritten(r, c.token, RotatedRecord(me, c.attempt, if conflicts == {} then aliases else me.durableIds)),
       Binding.Conflict)
    else if |conflicts| == 1 then
      var t :| t in conflicts;
      (Merged(r, c, t, aliases), Binding.Conflict)
    else (ForgetAttempt(r, c), Binding.Conflict)
  }

  ghost function BindClaim(r: Registry, c: Claim, storedId: Option<string>, liveId: Option<string>, requireStored: bool)
    : (Registry, Binding)
  {
    if !Live(r, c) || liveId.None? || (requireStored && storedId.None?) then (r, Invalid)
    else
      var aliases := Aliases(r.leases[c.token], storedId);
      Answered(r, c, aliases, liveId.value, Conflicts(r, c.token, aliases, liveId.value))
  }

  function ReleaseLease(r: Registry, owner: Owner, token: Symbol): Registry {
    if token in r.leases && r.leases[token].owner == owner then Released(r, {token}) else r
  }

  function ReleaseUnboundLeases(r: Registry, owner: Owner): Registry {
    Released(r, set t | t in OwnedBy(r.leases, owner) && r.leases[t].liveIds == {})
  }

  function Reserved(r: Registry, ids: set<string>): Registry {
    r.(closing := map l | l in r.closing.Keys + ids :: if l in ids then r.next else r.closing[l], next := r.next + 1)
  }

  predicate CanReserveOwned(r: Registry, owner: Owner, s: Snapshot) {
    && s.token in r.leases && r.leases[s.token].owner == owner
    && s.liveIds != {} && s.liveIds == r.leases[s.token].liveIds && s.liveIds !! r.closing.Keys
  }

  predicate CanReserveUnowned(r: Registry, liveId: string) {
    liveId !in r.closing && forall t :: t in r.leases ==> liveId !in r.leases[t].liveIds
  }

  function Finished(r: Registry, ids: set<string>, token: Symbol): Registry {
    r.(closing := map l | l in r.closing && !(l in ids && r.closing[l] == token) :: r.closing[l])
  }

  datatype Op =
    | Create(owner: Owner, profile: string)
    | Resume(owner: Owner, profile: string, id: string)
    | Bind(claim: Claim, storedId: Option<string>, liveId: Option<string>, requireStored: bool)
    | Forget(claim: Claim)
    | Release(owner: Owner, token: Symbol)
    | ReleaseOwner(owner: Owner)
    | ReleaseUnbound(owner: Owner)
    | ReleaseAll
    | ReserveOwned(owner: Owner, snapshot: Snapshot)
    | ReserveUnowned(id: string)
    | Finish(ids: set<string>, token: Symbol)

  ghost function Step(r: Registry, op: Op): Registry {
    match op
    case Create(owner, profile) => ClaimCreate(r, owner, profile).0
    case Resume(owner, profile, id) => ClaimResume(r, owner, profile, id).0
    case Bind(claim, storedId, liveId, requireStored) => BindClaim(r, claim, storedId, liveId, requireStored).0
    case Forget(claim) => ForgetAttempt(r, claim)
    case Release(owner, token) => ReleaseLease(r, owner, token)
    case ReleaseOwner(owner) => Released(r, OwnedBy(r.leases, owner))
    case ReleaseUnbound(owner) => ReleaseUnboundLeases(r, owner)
    case ReleaseAll => Released(r, r.leases.Keys).(closing := map[])
    case ReserveOwned(owner, snapshot) => if CanReserveOwned(r, owner, snapshot) then Reserved(r, snapshot.liveIds) else r
    case ReserveUnowned(id) => if CanReserveUnowned(r, id) then Reserved(r, {id}) else r
    case Finish(ids, token) => Finished(r, ids, token)
  }

  ghost function Steps(r: Registry, ops: seq<Op>): Registry
    decreases |ops|
  {
    if ops == [] then r else Steps(Step(r, ops[0]), ops[1..])
  }

  // ---- Every operation keeps the leases sound ----------------------------------------------------

  lemma FewerLimited(leases: map<Symbol, Record>, fewer: map<Symbol, Record>)
    requires Limited(leases) && fewer.Keys <= leases.Keys
    requires forall t :: t in fewer ==> fewer[t].owner == leases[t].owner
    ensures Limited(fewer)
  {
    SubsetSize(fewer.Keys, leases.Keys);
    forall owner ensures |OwnedBy(fewer, owner)| <= MAX_LEASES_PER_OWNER {
      SubsetSize(OwnedBy(fewer, owner), OwnedBy(leases, owner));
    }
  }

  lemma ReleasedSound(r: Registry, tokens: set<Symbol>)
    requires Sound(r)
    ensures Sound(Released(r, tokens))
  {
    FewerLimited(r.leases, r.leases - tokens);
  }

  /** Rewriting one registered lease, keeping its owner. */
  lemma RewrittenSound(r: Registry, t: Symbol, lease: Record, next: Symbol)
    requires Sound(r) && t in r.leases && lease.owner == r.leases[t].owner && Settled(lease) && next >= r.next
    requires forall u :: u in r.leases && u != t ==> Apart(lease, r.leases[u])
    requires forall a :: a in lease.pending ==> a < next
    ensures Sound(r.(leases := r.leases[t := lease], next := next))
  {
    FewerLimited(r.leases, r.leases[t := lease]);
    RewrittenApart(r.leases, t, lease);
  }

  lemma RewrittenApart(leases: map<Symbol, Record>, t: Symbol, lease: Record)
    requires AllApart(leases)
    requires forall u :: u in leases && u != t ==> Apart(lease, leases[u])
    ensures AllApart(leases[t := lease])
  {
    var after := leases[t := lease];
    forall u, w | u in after && w in after && u != w ensures Apart(after[u], after[w]) {
      if w == t { assert Apart(lease, leases[u]); }
    }
  }

  lemma OpenedSound(r: Registry, owner: Owner, profile: string, durableIds: set<string>)
    requires Sound(r) && CanCreate(r, owner)
    requires forall id :: id in durableIds ==> DurableHolders(r, profile, id) == {}
    ensures Sound(Opened(r, owner, profile, durableIds))
  {
    var lease := Record(owner, profile, durableIds, {}, {r.next + 1}, false);
    OpenedLimited(r.leases, r.next, lease);
    forall t | t in r.leases ensures Apart(lease, r.leases[t]) {
      forall id | id in durableIds && r.leases[t].profile == profile ensures id !in r.leases[t].durableIds {
        assert t !in DurableHolders(r, profile, id);
      }
    }
    RewrittenApart(r.leases, r.next, lease);
  }

  lemma OpenedLimited(leases: map<Symbol, Record>, t: Symbol, lease: Record)
    requires Limited(leases) && t !in leases
    requires |OwnedBy(leases, lease.owner)| < MAX_LEASES_PER_OWNER && |leases| < MAX_LEASES_TOTAL
    ensures Limited(leases[t := lease])
  {
    var after := leases[t := lease];
    assert after.Keys == leases.Keys + {t};
    forall o ensures |OwnedBy(after, o)| <= MAX_LEASES_PER_OWNER {
      OwnedByAfterOpen(leases, t, lease, o);
    }
  }

  lemma OwnedByAfterOpen(leases: map<Symbol, Record>, t: Symbol, lease: Record, o: Owner)
    requires t !in leases
    ensures |OwnedBy(leases[t := lease], o)| == |OwnedBy(leases, o)| + if o == lease.owner then 1 else 0
  {
    if o == lease.owner {
      assert OwnedBy(leases[t := lease], o) == OwnedBy(leases, o) + {t};
    } else {
      assert OwnedBy(leases[t := lease], o) == OwnedBy(leases, o);
    }
  }

  lemma ForgetSound(r: Registry, c: Claim)
    requires Sound(r)
    ensures Sound(ForgetAttempt(r, c))
  {
    if Live(r, c) {
      var lease := r.leases[c.token].(pending := r.leases[c.token].pending - {c.attempt});
      if !lease.bound && lease.pending == {} {
        ReleasedSound(r, {c.token});
      } else {
        RewrittenSound(r, c.token, lease, r.next);
      }
    }
  }

  lemma ApartFromAliases(r: Registry, c: Claim, aliases: set<string>, liveId: string, u: Symbol)
    requires Sound(r) && c.token in r.leases && u in r.leases && u != c.token
    requires u !in Conflicts(r, c.token, aliases, liveId)
    ensures liveId !in r.leases[u].liveIds
    ensures r.leases[u].profile == r.leases[c.token].profile ==> r.leases[u].durableIds !! aliases
  {
  }

  lemma BindSound(r: Registry, c: Claim, storedId: Option<string>, liveId: Option<string>, requireStored: bool)
    requires Sound(r)
    ensures var r' := BindClaim(r, c, storedId, liveId, requireStored).0;
      && Sound(r') && r'.closing == r.closing && r'.next == r.next
      && forall t, l :: l in r.closing && Routes(r', t, l) ==> Routes(r, t, l)
  {
    if Live(r, c) && liveId.Some? && (requireStored ==> storedId.Some?) {
      var aliases := Aliases(r.leases[c.token], storedId);
      AnsweredSound(r, c, aliases, liveId.value, Conflicts(r, c.token, aliases, liveId.value));
    }
  }

  lemma AnsweredSound(r: Registry, c: Claim, aliases: set<string>, liveId: string, conflicts: set<Symbol>)
    requires Sound(r) && Live(r, c) && r.leases[c.token].durableIds <= aliases
    requires conflicts == Conflicts(r, c.token, aliases, liveId)
    ensures var r' := Answered(r, c, aliases, liveId, conflicts).0;
      && Sound(r') && r'.closing == r.closing && r'.next == r.next
      && forall t, l :: l in r.closing && Routes(r', t, l) ==> Routes(r, t, l)
  {
    AnsweredFrame(r, c, aliases, liveId, conflicts);
    if r.leases[c.token].bound || (conflicts == {} && liveId !in r.closing) {
      BindInPlaceSound(r, c, aliases, liveId);
    } else if |conflicts| == 1 {
      MergeSound(r, c, aliases, liveId);
    } else {
      ForgetSound(r, c);
    }
  }

  /** Binding touches neither the reservations nor the symbols, and never routes a reserved id anew. */
  lemma AnsweredFrame(r: Registry, c: Claim, aliases: set<string>, liveId: string, conflicts: set<Symbol>)
    requires Live(r, c) && Settled(r.leases[c.token]) && conflicts <= r.leases.Keys
    ensures var r' := Answered(r, c, aliases, liveId, conflicts).0;
      && r'.closing == r.closing && r'.next == r.next
      && forall t, l :: l in r.closing && Routes(r', t, l) ==> Routes(r, t, l)
  {
  }

  lemma BindInPlaceSound(r: Registry, c: Claim, aliases: set<string>, liveId: string)
    requires Sound(r) && Live(r, c) && r.leases[c.token].durableIds <= aliases
    ensures var me := r.leases[c.token];
      var conflicts := Conflicts(r, c.token, aliases, liveId);
      && (conflicts == {} && (me.bound ==> liveId in me.liveIds) ==>
            Sound(Rewritten(r, c.token, BoundRecord(me, c.attempt, aliases, liveId))))
      && (me.bound ==>
            Sound(Rewritten(r, c.token, RotatedRecord(me, c.attempt, if conflicts == {} then aliases else me.durableIds))))
  {
    var me := r.leases[c.token];
    var conflicts := Conflicts(r, c.token, aliases, liveId);
    if conflicts == {} {
      forall u | u in r.leases && u != c.token
        ensures liveId !in r.leases[u].liveIds
        ensures r.leases[u].profile == me.profile ==> r.leases[u].durableIds !! aliases
      {
        ApartFromAliases(r, c, aliases, liveId, u);
      }
    }
    if conflicts == {} && (me.bound ==> liveId in me.liveIds) {
      RewrittenSound(r, c.token, BoundRecord(me, c.attempt, aliases, liveId), r.next);
    }
    if me.bound {
      RewrittenSound(r, c.token, RotatedRecord(me, c.attempt, if conflicts == {} then aliases else me.durableIds), r.next);
    }
  }

  lemma SingletonIs<T>(s: set<T>, t: T)
    requires |s| == 1 && t in s
    ensures s == {t}
  {
    assert |s - {t}| == 0;
  }

  /** The alias merge: the surviving lease takes the aliases the released one held or brought. */
  lemma MergeSound(r: Registry, c: Claim, aliases: set<string>, liveId: string)
    requires Sound(r) && c.token in r.leases && |Conflicts(r, c.token, aliases, liveId)| == 1
    ensures forall t :: t in Conflicts(r, c.token, aliases, liveId) ==> Sound(Merged(r, c, t, aliases))
  {
    forall t | t in Conflicts(r, c.token, aliases, liveId) ensures Sound(Merged(r, c, t, aliases)) {
      SingletonIs(Conflicts(r, c.token, aliases, liveId), t);
      MergeOneSound(r, c, t, aliases, liveId);
    }
  }

  lemma MergeOneSound(r: Registry, c: Claim, t: Symbol, aliases: set<string>, liveId: string)
    requires Sound(r) && c.token in r.leases && Conflicts(r, c.token, aliases, liveId) == {t}
    ensures t in r.leases && Sound(Merged(r, c, t, aliases))
  {
    assert t in Conflicts(r, c.token, aliases, liveId);
    var merged := MergedRecord(r.leases[c.token], r.leases[t], aliases);
    var rest := Released(r, {c.token});
    ReleasedSound(r, {c.token});
    forall u | u in r.leases && u != t && u != c.token ensures Apart(merged, r.leases[u]) {
      ApartFromAliases(r, c, aliases, liveId, u);
      assert Apart(r.leases[t], r.leases[u]);
    }
    RewrittenSound(rest, t, merged, r.next);
    assert Merged(r, c, t, aliases).leases == rest.leases[t := merged];
  }

  lemma JoinedSound(r: Registry, t: Symbol)
    requires Sound(r) && t in r.leases
    ensures Sound(Joined(r, t))
  {
    RewrittenSound(r, t, r.leases[t].(pending := r.leases[t].pending + {r.next}), r.next + 1);
  }

  lemma ResumeSound(r: Registry, owner: Owner, profile: string, id: string)
    requires Sound(r)
    ensures var r' := ClaimResume(r, owner, profile, id).0;
      && Sound(r') && r'.closing == r.closing && r'.next >= r.next
      && forall t, l :: Routes(r', t, l) ==> Routes(r, t, l)
  {
    hide Sound, CanCreate, OwnedBy;
    var holders := DurableHolders(r, profile, id);
    if holders == {} {
      if CanCreate(r, owner) { OpenedSound(r, owner, profile, {id}); }
    } else {
      forall t | t in holders ensures Sound(Joined(r, t)) {
        JoinedSound(r, t);
      }
    }
  }

  lemma ReservedSound(r: Registry, ids: set<string>)
    requires Sound(r)
    ensures Sound(Reserved(r, ids))
  {
  }

  lemma FinishedSound(r: Registry, ids: set<string>, token: Symbol)
    requires Sound(r)
    ensures Sound(Finished(r, ids, token)) && Sound(r.(closing := map[]))
  {
  }

  lemma UnboundReleasedSound(r: Registry, owner: Owner)
    requires Sound(r)
    ensures Sound(ReleaseUnboundLeases(r, owner))
  {
    ReleasedSound(r, set t | t in OwnedBy(r.leases, owner) && r.leases[t].liveIds == {});
  }

  lemma ReleaseLeaseSound(r: Registry, owner: Owner, token: Symbol)
    requires Sound(r)
    ensures Sound(ReleaseLease(r, owner, token))
  {
    ReleasedSound(r, {token});
  }

  lemma StepSound(r: Registry, op: Op)
    requires Sound(r)
    ensures Sound(Step(r, op))
  {
    hide Sound, OwnedBy, CanCreate, BindClaim, ClaimResume, CanReserveOwned, CanReserveUnowned;
    hide Opened, Reserved, Finished, Released, ForgetAttempt, ReleaseLease, ReleaseUnboundLeases;
    match op
    case Create(owner, profile) => if CanCreate(r, owner) { OpenedSound(r, owner, profile, {}); }
    case Resume(owner, profile, id) => ResumeSound(r, owner, profile, id);
    case Bind(claim, storedId, liveId, requireStored) => BindSound(r, claim, storedId, liveId, requireStored);
    case Forget(claim) => ForgetSound(r, claim);
    case Release(owner, token) => ReleaseLeaseSound(r, owner, token);
    case ReleaseOwner(owner) => ReleasedSound(r, OwnedBy(r.leases, owner));
    case ReleaseUnbound(owner) => UnboundReleasedSound(r, owner);
    case ReleaseAll =>
      ReleasedSound(r, r.leases.Keys);
      FinishedSound(Released(r, r.leases.Keys), {}, 0);
    case ReserveOwned(owner, snapshot) => ReservedSound(r, snapshot.liveIds);
    case ReserveUnowned(id) => ReservedSound(r, {id});
    case Finish(ids, token) => FinishedSound(r, ids, token);
  }

  // ---- Close reservations ------------------------------------------------------------------------

  /** The two operations that may end a reservation: its own finish, and the release of everything. */
  predicate Ends(op: Op, liveId: string, token: Symbol) {
    op.ReleaseAll? || (op.Finish? && liveId in op.ids && op.token == token)
  }

  lemma ReservationKept(r: Registry, op: Op, liveId: string)
    requires Sound(r) && liveId in r.closing && !Ends(op, liveId, r.closing[liveId])
    ensures var r' := Step(r, op);
      && liveId in r'.closing && r'.closing[liveId] == r.closing[liveId]
      && forall t :: Routes(r', t, liveId) ==> Routes(r, t, liveId)
  {
    match op
    case Bind(claim, storedId, id, requireStored) => BindSound(r, claim, storedId, id, requireStored);
    case Resume(owner, profile, id) => ResumeSound(r, owner, profile, id);
    case _ =>
  }

  /** While a live id is reserved for closing it is routed to the lease that had it or to nobody, over
      any run that neither finishes that reservation nor releases everything. */
  lemma {:induction false} NoReplacementWhileClosing(r: Registry, ops: seq<Op>, liveId: string)
    requires Sound(r) && liveId in r.closing
    requires forall op :: op in ops ==> !Ends(op, liveId, r.closing[liveId])
    ensures var r' := Steps(r, ops);
      && Sound(r')
      && liveId in r'.closing && r'.closing[liveId] == r.closing[liveId]
      && forall t :: Routes(r', t, liveId) ==> Routes(r, t, liveId)
    decreases |ops|
  {
    if ops != [] {
      assert ops[0] in ops;
      StepSound(r, ops[0]);
      ReservationKept(r, ops[0], liveId);
      NoReplacementWhileClosing(Step(r, ops[0]), ops[1..], liveId);
    }
  }

  predicate Stale(r: Registry, token: Symbol) {
    token < r.next && forall l :: l in r.closing ==> r.closing[l] != token
  }

  lemma StaleKept(r: Registry, op: Op, token: Symbol)
    requires Sound(r) && Stale(r, token)
    ensures Stale(Step(r, op), token)
  {
    hide Sound, OwnedBy, CanCreate, BindClaim, ClaimResume, CanReserveOwned, CanReserveUnowned;
    match op
    case Bind(claim, storedId, id, requireStored) => BindSound(r, claim, storedId, id, requireStored);
    case Resume(owner, profile, id) => ResumeSound(r, owner, profile, id);
    case _ =>
  }

  /** A reservation that is gone never comes back, so a late finish with its token clears nothing,
      whoever holds the live ids by then. */
  lemma {:induction false} StaleFinishClearsNothing(r: Registry, ops: seq<Op>, ids: set<string>, token: Symbol)
    requires Sound(r) && Stale(r, token)
    ensures Stale(Steps(r, ops), token) && Finished(Steps(r, ops), ids, token) == Steps(r, ops)
    decreases |ops|
  {
    if ops == [] {
      assert Finished(r, ids, token).closing == r.closing;
    } else {
      StepSound(r, ops[0]);
      StaleKept(r, ops[0], token);
      StaleFinishClearsNothing(Step(r, ops[0]), ops[1..], ids, token);
    }
  }

  /** Every run of the operations keeps the leases sound. */
  lemma {:induction false} RunSound(r: Registry, ops: seq<Op>)
    requires Sound(r)
    ensures Sound(Steps(r, ops))
    decreases |ops|
  {
    if ops != [] {
      StepSound(r, ops[0]);
      RunSound(Step(r, ops[0]), ops[1..]);
    }
  }

  // ---- Whose lease a claim gives -----------------------------------------------------------------

  predicate Carries(r: Registry, t: Symbol, profile: string, id: string) {
    t in r.leases && r.leases[t].profile == profile && id in r.leases[t].durableIds
  }

  predicate Same(r: Registry, r': Registry, t: Symbol) {
    (t in r.leases <==> t in r'.leases) && (t in r.leases && t in r'.leases ==> r.leases[t] == r'.leases[t])
  }

  /** A new attempt for this owner, on a lease of this owner and Profile, and nothing else changed. */
  ghost predicate Granted(r: Registry, r': Registry, c: Claim, owner: Owner, profile: string) {
    && c.owner == owner && c.token in r'.leases && r.next <= c.attempt < r'.next
    && var lease := r'.leases[c.token];
    && lease.owner == owner && lease.profile == profile
    && lease.pending == (if c.token in r.leases then r.leases[c.token].pending else {}) + {c.attempt}
    && r'.closing == r.closing && forall t :: t != c.token ==> Same(r, r', t)
  }

  ghost predicate Full(r: Registry, owner: Owner) {
    |OwnedBy(r.leases, owner)| >= MAX_LEASES_PER_OWNER || |r.leases| >= MAX_LEASES_TOTAL
  }

  lemma CreateExactly(r: Registry, owner: Owner, profile: string)
    requires Sound(r)
    ensures var (r', c) := ClaimCreate(r, owner, profile);
      && (c.None? <==> Full(r, owner)) && (c.None? ==> r' == r)
      && (c.Some? ==> Granted(r, r', c.value, owner, profile) && c.value.token !in r.leases)
      && (c.Some? ==> r'.leases[c.value.token].durableIds == r'.leases[c.value.token].liveIds == {})
  {
  }

  /** A resume joins the lease that has the id, if it is the owner's own, and opens one if nobody has it. */
  lemma ResumeExactly(r: Registry, owner: Owner, profile: string, id: string)
    requires Sound(r)
    ensures var (r', c) := ClaimResume(r, owner, profile, id);
      && (c.None? <==> (exists t :: Carries(r, t, profile, id) && r.leases[t].owner != owner)
                       || ((forall t :: !Carries(r, t, profile, id)) && Full(r, owner)))
      && (c.None? ==> r' == r)
      && (c.Some? ==> Granted(r, r', c.value, owner, profile) && Carries(r', c.value.token, profile, id))
      && (c.Some? ==> (c.value.token in r.leases <==> Carries(r, c.value.token, profile, id)))
      && (c.Some? ==> forall t :: Carries(r, t, profile, id) ==> t == c.value.token && Kept(r, r', t))
  {
    hide Sound, OwnedBy, DurableHolders, Opened, Joined, Granted;
    OneHolder(r, profile, id);
    NextIsNew(r);
    OpenedIs(r, owner, profile, {id});
    forall t | t in r.leases ensures JoinedFor(r, t) { JoinedIs(r, t); }
  }

  /** What a new attempt on a lease gives its owner. */
  ghost predicate JoinedFor(r: Registry, t: Symbol)
    requires t in r.leases
  {
    && Granted(r, Joined(r, t), Claim(t, r.next, r.leases[t].owner), r.leases[t].owner, r.leases[t].profile)
    && Kept(r, Joined(r, t), t)
  }

  lemma JoinedIs(r: Registry, t: Symbol)
    requires t in r.leases
    ensures JoinedFor(r, t)
  {
  }

  lemma OpenedIs(r: Registry, owner: Owner, profile: string, durableIds: set<string>)
    requires r.next !in r.leases
    ensures var r' := Opened(r, owner, profile, durableIds);
      Granted(r, r', Claim(r.next, r.next + 1, owner), owner, profile) && r'.leases[r.next].durableIds == durableIds
  {
  }

  /** A resume takes nothing from a lease, and whatever it adds is new. */
  lemma ResumeKeeps(r: Registry, owner: Owner, profile: string, id: string, t: Symbol)
    requires Sound(r)
    ensures var r' := ClaimResume(r, owner, profile, id).0;
      && r'.next >= r.next
      && (t in r.leases ==> Kept(r, r', t) && forall a :: a in r'.leases[t].pending ==> a in r.leases[t].pending || a >= r.next)
      && (t !in r.leases && t in r'.leases ==> t >= r.next)
  {
    ResumeExactly(r, owner, profile, id);
    var (r', c) := ClaimResume(r, owner, profile, id);
    hide ClaimResume;
    NextIsNew(r);
    assert c.Some? && t != c.value.token ==> Same(r, r', t);
  }

  lemma NextIsNew(r: Registry)
    requires Sound(r)
    ensures r.next !in r.leases
  {
  }

  lemma OneHolder(r: Registry, profile: string, id: string)
    requires Sound(r)
    ensures var holders := DurableHolders(r, profile, id);
      && (forall t :: t in holders <==> Carries(r, t, profile, id)) && (forall t, u :: t in holders && u in holders ==> t == u)
  {
    var holders := DurableHolders(r, profile, id);
    forall t, u | t in holders && u in holders ensures t == u {
      assert t != u ==> Apart(r.leases[t], r.leases[u]);
    }
  }

  /** The lease has gained attempts at most, or aliases. */
  predicate Kept(r: Registry, r': Registry, t: Symbol) {
    && t in r.leases && t in r'.leases
    && var a, b := r.leases[t], r'.leases[t];
    && b.owner == a.owner && b.profile == a.profile && b.liveIds == a.liveIds && b.bound == a.bound
    && a.durableIds <= b.durableIds && a.pending <= b.pending
  }

  // ---- What an answer does -----------------------------------------------------------------------

  /** Another lease has one of the aliases in the same Profile, or the live id. */
  predicate Collides(r: Registry, token: Symbol, t: Symbol, aliases: set<string>, liveId: string) {
    && token in r.leases && t in r.leases && t != token
    && (liveId in r.leases[t].liveIds
        || (r.leases[t].profile == r.leases[token].profile && exists a :: a in aliases && a in r.leases[t].durableIds))
  }

  ghost predicate CollidesOnlyWith(r: Registry, token: Symbol, t: Symbol, aliases: set<string>, liveId: string) {
    forall u :: Collides(r, token, u, aliases, liveId) <==> u == t
  }

  predicate Answerable(r: Registry, c: Claim, storedId: Option<string>, liveId: Option<string>, requireStored: bool) {
    && c.token in r.leases && r.leases[c.token].owner == c.owner && c.attempt in r.leases[c.token].pending
    && liveId.Some? && (requireStored ==> storedId.Some?)
  }

  function Known(r: Registry, c: Claim, storedId: Option<string>): set<string>
    requires c.token in r.leases
  {
    r.leases[c.token].durableIds + (if storedId.Some? then {storedId.value} else {})
  }

  ghost predicate Unclaimed(r: Registry, c: Claim, storedId: Option<string>, liveId: string)
    requires c.token in r.leases
  {
    && (forall t :: !Collides(r, c.token, t, Known(r, c, storedId), liveId)) && liveId !in r.closing
    && (r.leases[c.token].bound ==> liveId in r.leases[c.token].liveIds)
  }

  lemma ConflictsCollide(r: Registry, token: Symbol, aliases: set<string>, liveId: string)
    requires token in r.leases
    ensures forall t :: t in Conflicts(r, token, aliases, liveId) <==> Collides(r, token, t, aliases, liveId)
  {
  }

  /** An answer binds exactly when it is complete, nobody else has one of its ids, its live id is not being
      closed, and the lease has no other live id. Bound, the lease has the ids; otherwise no live id moves. */
  lemma BindExactly(r: Registry, c: Claim, storedId: Option<string>, liveId: Option<string>, requireStored: bool)
    requires Sound(r)
    ensures var (r', b) := BindClaim(r, c, storedId, liveId, requireStored);
      && (b == Invalid <==> !Answerable(r, c, storedId, liveId, requireStored)) && (b == Invalid ==> r' == r)
      && (b == Bound <==> Answerable(r, c, storedId, liveId, requireStored) && Unclaimed(r, c, storedId, liveId.value))
      && (b == Bound ==> (
            && c.token in r'.leases && r'.leases[c.token].bound && r'.leases[c.token].liveIds == {liveId.value}
            && r'.leases[c.token].durableIds == Known(r, c, storedId)
            && forall t :: t != c.token ==> Same(r, r', t)))
      && (b == Binding.Conflict && r.leases[c.token].bound ==> (
            && c.token in r'.leases && r'.leases[c.token].durableIds ==
                 if forall t :: !Collides(r, c.token, t, Known(r, c, storedId), liveId.value) then Known(r, c, storedId)
                 else r.leases[c.token].durableIds))
      && (b != Bound ==> forall t :: t in r'.leases ==> t in r.leases && r'.leases[t].liveIds == r.leases[t].liveIds)
  {
    if Answerable(r, c, storedId, liveId, requireStored) {
      var aliases := Known(r, c, storedId);
      assert aliases == Aliases(r.leases[c.token], storedId);
      assert Settled(r.leases[c.token]);
      hide Sound, Answered, Conflicts, Collides;
      ConflictsCollide(r, c.token, aliases, liveId.value);
      AnsweredExactly(r, c, aliases, liveId.value);
      var conflicts := Conflicts(r, c.token, aliases, liveId.value);
      assert conflicts == {} <==> forall t :: t !in conflicts;
    }
    hide Sound, Answered, Unclaimed;
  }

  lemma AnsweredExactly(r: Registry, c: Claim, aliases: set<string>, liveId: string)
    requires Live(r, c) && Settled(r.leases[c.token])
    ensures var me := r.leases[c.token];
      var conflicts := Conflicts(r, c.token, aliases, liveId);
      var (r', b) := Answered(r, c, aliases, liveId, conflicts);
      && b != Invalid && (b == Bound <==> conflicts == {} && liveId !in r.closing && (me.bound ==> liveId in me.liveIds))
      && (b == Bound ==> (
            && c.token in r'.leases && r'.leases[c.token].bound && r'.leases[c.token].liveIds == {liveId}
            && r'.leases[c.token].durableIds == aliases && forall t :: t != c.token ==> Same(r, r', t)))
      && (b == Binding.Conflict && me.bound ==>
            c.token in r'.leases && r'.leases[c.token].durableIds == if conflicts == {} then aliases else me.durableIds)
      && (b != Bound ==> forall t :: t in r'.leases ==> t in r.leases && r'.leases[t].liveIds == r.leases[t].liveIds)
  {
    hide Apart;
  }

  // ---- What becomes of a lease -------------------------------------------------------------------

  /** On whose behalf an operation is. The release of everything, and what concerns reservations alone, is nobody's. */
  function Actor(op: Op): Option<Owner> {
    match op
    case Create(owner, _) => Some(owner)
    case Resume(owner, _, _) => Some(owner)
    case Bind(claim, _, _, _) => Some(claim.owner)
    case Forget(claim) => Some(claim.owner)
    case Release(owner, _) => Some(owner)
    case ReleaseOwner(owner) => Some(owner)
    case ReleaseUnbound(owner) => Some(owner)
    case ReserveOwned(owner, _) => Some(owner)
    case _ => None
  }

  /** An answer for an unbound lease that collides with this one alone, in the same Profile. */
  ghost predicate MergesInto(r: Registry, op: Op, t: Symbol) {
    && op.Bind? && Answerable(r, op.claim, op.storedId, op.liveId, op.requireStored)
    && t in r.leases && !r.leases[op.claim.token].bound && r.leases[t].profile == r.leases[op.claim.token].profile
    && CollidesOnlyWith(r, op.claim.token, t, Known(r, op.claim, op.storedId), op.liveId.value)
  }

  function AlsoKnown(lease: Record, aliases: set<string>): Record {
    lease.(durableIds := lease.durableIds + aliases)
  }

  /** What Answered does to the leases of others. */
  lemma AnsweredElsewhere(r: Registry, c: Claim, aliases: set<string>, liveId: string, t: Symbol)
    requires Live(r, c) && t in r.leases && t != c.token
    ensures var conflicts := Conflicts(r, c.token, aliases, liveId);
      var r' := Answered(r, c, aliases, liveId, conflicts).0;
      && t in r'.leases
      && r'.leases[t] == if !r.leases[c.token].bound && conflicts == {t} && r.leases[t].profile == r.leases[c.token].profile
                         then AlsoKnown(r.leases[t], aliases) else r.leases[t]
  {
    var conflicts := Conflicts(r, c.token, aliases, liveId);
    if |conflicts| == 1 {
      forall u | u in conflicts ensures conflicts == {u} { SingletonIs(conflicts, u); }
    }
    hide Conflicts;
  }

  /** The leases of others stay as they are, except that one takes the aliases of an unbound lease whose answer
      collides with it alone. */
  lemma ForeignKept(r: Registry, op: Op, t: Symbol)
    requires Sound(r) && t in r.leases && Actor(op) != Some(r.leases[t].owner) && !op.ReleaseAll?
    ensures t in Step(r, op).leases
    ensures MergesInto(r, op, t) ==> Step(r, op).leases[t] == AlsoKnown(r.leases[t], Known(r, op.claim, op.storedId))
    ensures !MergesInto(r, op, t) ==> Step(r, op).leases[t] == r.leases[t]
  {
    hide EachSettled, AllApart, Limited, Answered, Conflicts, Collides;
    match op
    case Resume(owner, profile, id) =>
      ResumeElsewhere(r, owner, profile, id, t);
    case Bind(claim, storedId, liveId, requireStored) =>
      if Answerable(r, claim, storedId, liveId, requireStored) {
        var aliases := Known(r, claim, storedId);
        assert aliases == Aliases(r.leases[claim.token], storedId);
        AnsweredElsewhere(r, claim, aliases, liveId.value, t);
        OneConflict(r, claim.token, aliases, liveId.value);
      }
    case _ =>
  }

  lemma ResumeElsewhere(r: Registry, owner: Owner, profile: string, id: string, t: Symbol)
    requires Sound(r) && t in r.leases && r.leases[t].owner != owner
    ensures Same(r, ClaimResume(r, owner, profile, id).0, t)
  {
    ResumeExactly(r, owner, profile, id);
  }

  /** So it can happen: owner 2, who resumed "b", is answered with the id of a session that owner 1 holds, and
      from then on owner 1's lease has "b" as well. */
  lemma ForeignTouched()
    ensures var mine := Record(1, DEFAULT_PROFILE, {"a"}, {"live"}, {}, true);
      var theirs := Record(2, DEFAULT_PROFILE, {"b"}, {}, {4}, false);
      var r := Registry(map[0 := mine, 3 := theirs], map[], 5);
      var op := Bind(Claim(3, 4, 2), Some("a"), Some("other"), true);
      && Sound(r) && MergesInto(r, op, 0) && Step(r, op).leases == map[0 := mine.(durableIds := {"a", "b"})]
  {
    var mine := Record(1, DEFAULT_PROFILE, {"a"}, {"live"}, {}, true);
    var theirs := Record(2, DEFAULT_PROFILE, {"b"}, {}, {4}, false);
    var r := Registry(map[0 := mine, 3 := theirs], map[], 5);
    var op := Bind(Claim(3, 4, 2), Some("a"), Some("other"), true);
    TwoLeasesSound(r, mine, theirs);
    var known := Known(r, op.claim, op.storedId);
    assert known == {"a", "b"};
    assert Collides(r, 3, 0, known, "other") by { assert "a" in known && "a" in mine.durableIds; }
    assert MergesInto(r, op, 0);
    OneConflict(r, 3, known, "other");
    assert Step(r, op) == Merged(r, op.claim, 0, known);
    assert mine.durableIds + known == {"a", "b"};
    assert Merged(r, op.claim, 0, known).leases == map[0 := mine.(durableIds := {"a", "b"})];
  }

  lemma TwoLeasesSound(r: Registry, mine: Record, theirs: Record)
    requires mine == Record(1, DEFAULT_PROFILE, {"a"}, {"live"}, {}, true)
    requires theirs == Record(2, DEFAULT_PROFILE, {"b"}, {}, {4}, false)
    requires r == Registry(map[0 := mine, 3 := theirs], map[], 5)
    ensures Sound(r)
  {
    assert r.leases.Keys == {0, 3};
    forall owner ensures |OwnedBy(r.leases, owner)| <= MAX_LEASES_PER_OWNER { SubsetSize(OwnedBy(r.leases, owner), {0, 3}); }
  }

  /** Over any run in which nothing is done on an owner's behalf, and not everything is released, its leases stay,
      with the ids they have. */
  lemma {:induction false} ForeignRunKeeps(r: Registry, ops: seq<Op>, t: Symbol)
    requires Sound(r) && t in r.leases
    requires forall op :: op in ops ==> !op.ReleaseAll? && Actor(op) != Some(r.leases[t].owner)
    ensures Kept(r, Steps(r, ops), t) && Steps(r, ops).leases[t].pending == r.leases[t].pending
    decreases |ops|
  {
    if ops != [] {
      assert ops[0] in ops;
      StepSound(r, ops[0]);
      ForeignKept(r, ops[0], t);
      hide Step, Sound, MergesInto;
      assert Kept(r, Step(r, ops[0]), t);
      ForeignRunKeeps(Step(r, ops[0]), ops[1..], t);
    }
  }

  // ---- How long a lease stays --------------------------------------------------------------------

  /** Its owner, or everything, is released. */
  predicate Releases(op: Op, owner: Owner, t: Symbol) {
    op.ReleaseAll? || (op.ReleaseOwner? && op.owner == owner) || (op.Release? && op.owner == owner && op.token == t)
  }

  /** The only attempt left on an unbound lease. */
  predicate LastAttempt(r: Registry, c: Claim, t: Symbol) {
    && c.token == t && t in r.leases && r.leases[t].owner == c.owner && !r.leases[t].bound && r.leases[t].pending == {c.attempt}
  }

  /** An answer that is not bound, on a lease that has no live id: the attempt fails, and if the answer collides
      with just one other lease, the whole lease gives way to that one. */
  ghost predicate GivesWay(r: Registry, op: Op, t: Symbol) {
    && op.Bind? && op.claim.token == t && Answerable(r, op.claim, op.storedId, op.liveId, op.requireStored) && !r.leases[t].bound
    && !Unclaimed(r, op.claim, op.storedId, op.liveId.value)
    && (LastAttempt(r, op.claim, t)
        || exists u :: CollidesOnlyWith(r, t, u, Known(r, op.claim, op.storedId), op.liveId.value))
  }

  lemma FreshAndSettled(r: Registry, t: Symbol)
    requires Sound(r) && t in r.leases
    ensures t < r.next && Settled(r.leases[t])
  {
  }

  /** A lease goes exactly if it is released, has no live id and its last attempt fails, or gives way. */
  lemma GoesExactly(r: Registry, op: Op, t: Symbol)
    requires Sound(r) && t in r.leases
    ensures t !in Step(r, op).leases <==>
      || Releases(op, r.leases[t].owner, t)
      || (op.ReleaseUnbound? && op.owner == r.leases[t].owner && !r.leases[t].bound)
      || (op.Forget? && LastAttempt(r, op.claim, t))
      || GivesWay(r, op, t)
  {
    hide Sound, Full, ClaimResume, BindClaim, CanCreate, Answered, Conflicts, Unclaimed, CollidesOnlyWith, Known;
    FreshAndSettled(r, t);
    if op.Bind? { BindGoes(r, op, t); } else if op.Resume? { ResumeKeeps(r, op.owner, op.profile, op.id, t); }
  }

  lemma BindGoes(r: Registry, op: Op, t: Symbol)
    requires Sound(r) && t in r.leases && op.Bind?
    ensures t !in Step(r, op).leases <==> GivesWay(r, op, t)
  {
    assert Settled(r.leases[t]);
    hide Sound, Answered, Conflicts, Unclaimed, CollidesOnlyWith;
    if Answerable(r, op.claim, op.storedId, op.liveId, op.requireStored) {
      var aliases := Known(r, op.claim, op.storedId);
      assert aliases == Aliases(r.leases[op.claim.token], op.storedId);
      if t == op.claim.token {
        AnsweredGoes(r, op.claim, op.storedId, op.liveId.value);
      } else {
        AnsweredElsewhere(r, op.claim, aliases, op.liveId.value, t);
      }
    }
  }

  lemma AnsweredGoes(r: Registry, c: Claim, storedId: Option<string>, liveId: string)
    requires Live(r, c) && Settled(r.leases[c.token])
    ensures var aliases := Known(r, c, storedId);
      var r' := Answered(r, c, aliases, liveId, Conflicts(r, c.token, aliases, liveId)).0;
      c.token !in r'.leases <==>
        && !r.leases[c.token].bound && !Unclaimed(r, c, storedId, liveId)
        && (LastAttempt(r, c, c.token) || exists u :: CollidesOnlyWith(r, c.token, u, aliases, liveId))
  {
    var aliases := Known(r, c, storedId);
    var conflicts := Conflicts(r, c.token, aliases, liveId);
    ConflictsCollide(r, c.token, aliases, liveId);
    OneConflict(r, c.token, aliases, liveId);
    hide Conflicts, Collides, CollidesOnlyWith;
    assert conflicts == {} <==> forall w :: w !in conflicts;
    assert |conflicts| == 1 ==> conflicts != {};
  }

  lemma OnlyMember(s: set<Symbol>, t: Symbol)
    ensures s == {t} <==> forall u: Symbol :: u in s <==> u == t
  {
    if forall u: Symbol :: u in s <==> u == t { assert forall u :: u in s <==> u in {t}; }
  }

  lemma OneConflict(r: Registry, token: Symbol, aliases: set<string>, liveId: string)
    requires token in r.leases
    ensures |Conflicts(r, token, aliases, liveId)| == 1 <==> exists u :: CollidesOnlyWith(r, token, u, aliases, liveId)
    ensures forall u: Symbol :: CollidesOnlyWith(r, token, u, aliases, liveId) <==> Conflicts(r, token, aliases, liveId) == {u}
  {
    ConflictsCollide(r, token, aliases, liveId);
    hide Conflicts, Collides;
    var conflicts := Conflicts(r, token, aliases, liveId);
    forall u: Symbol ensures CollidesOnlyWith(r, token, u, aliases, liveId) <==> conflicts == {u} {
      OnlyMember(conflicts, u);
    }
    if |conflicts| == 1 {
      var u :| u in conflicts;
      SingletonIs(conflicts, u);
      assert CollidesOnlyWith(r, token, u, aliases, liveId);
    }
  }

  predicate StillBound(r: Registry, r': Registry, t: Symbol) {
    && t in r.leases && t in r'.leases
    && var a, b := r.leases[t], r'.leases[t];
    && b.bound && b.owner == a.owner && b.profile == a.profile && b.liveIds == a.liveIds && a.durableIds <= b.durableIds
  }

  /** A bound lease keeps its owner, its Profile and its live id, and loses no alias, until it is released. */
  lemma BoundKept(r: Registry, op: Op, t: Symbol)
    requires Sound(r) && t in r.leases && r.leases[t].bound && !Releases(op, r.leases[t].owner, t)
    ensures StillBound(r, Step(r, op), t)
  {
    hide Sound, Full, ClaimResume, CanCreate, Answered, Conflicts, BindClaim;
    FreshAndSettled(r, t);
    if op.Bind? { BindKeepsBound(r, op, t); } else if op.Resume? { ResumeKeeps(r, op.owner, op.profile, op.id, t); }
  }

  lemma BindKeepsBound(r: Registry, op: Op, t: Symbol)
    requires Sound(r) && t in r.leases && r.leases[t].bound && op.Bind?
    ensures StillBound(r, Step(r, op), t)
  {
    assert Settled(r.leases[t]);
    hide Sound, Answered, Conflicts, Settled;
    if Answerable(r, op.claim, op.storedId, op.liveId, op.requireStored) {
      var aliases := Aliases(r.leases[op.claim.token], op.storedId);
      if t == op.claim.token {
        AnsweredBound(r, op.claim, aliases, op.liveId.value);
      } else {
        AnsweredElsewhere(r, op.claim, aliases, op.liveId.value, t);
      }
    }
  }

  lemma AnsweredBound(r: Registry, c: Claim, aliases: set<string>, liveId: string)
    requires Live(r, c) && Settled(r.leases[c.token]) && r.leases[c.token].bound && r.leases[c.token].durableIds <= aliases
    ensures StillBound(r, Answered(r, c, aliases, liveId, Conflicts(r, c.token, aliases, liveId)).0, c.token)
  {
    hide Conflicts;
  }

  lemma {:induction false} BoundStays(r: Registry, ops: seq<Op>, t: Symbol)
    requires Sound(r) && t in r.leases && r.leases[t].bound
    requires forall op :: op in ops ==> !Releases(op, r.leases[t].owner, t)
    ensures StillBound(r, Steps(r, ops), t)
    decreases |ops|
  {
    if ops != [] {
      assert ops[0] in ops;
      StepSound(r, ops[0]);
      BoundKept(r, ops[0], t);
      hide Step, Sound;
      BoundStays(Step(r, ops[0]), ops[1..], t);
    }
  }

  // ---- Every claim is answered once --------------------------------------------------------------

  /** The claim was given out, and its attempt is over. */
  predicate Spent(r: Registry, c: Claim) {
    c.token < r.next && c.attempt < r.next && (c.token in r.leases ==> c.attempt !in r.leases[c.token].pending)
  }

  /** A complete answer, or giving up, ends the attempt. */
  lemma AnswerSpends(r: Registry, op: Op, c: Claim)
    requires Sound(r) && Live(r, c)
    requires op == Forget(c) || (op.Bind? && op.claim == c && Answerable(r, c, op.storedId, op.liveId, op.requireStored))
    ensures Spent(Step(r, op), c)
  {
    if op.Bind? {
      BindSound(r, c, op.storedId, op.liveId, op.requireStored);
      AnsweredSpends(r, c, Aliases(r.leases[c.token], op.storedId), op.liveId.value);
    }
    hide Conflicts, Answered;
  }

  lemma AnsweredSpends(r: Registry, c: Claim, aliases: set<string>, liveId: string)
    requires Live(r, c)
    ensures var r' := Answered(r, c, aliases, liveId, Conflicts(r, c.token, aliases, liveId)).0;
      c.token in r'.leases ==> c.attempt !in r'.leases[c.token].pending
  {
    hide Apart;
  }

  lemma SpentKept(r: Registry, op: Op, c: Claim)
    requires Sound(r) && Spent(r, c)
    ensures Spent(Step(r, op), c)
  {
    hide Sound, Full, ClaimResume, CanCreate, Answered, Conflicts, BindClaim;
    if op.Bind? { BindKeepsSpent(r, op, c); } else if op.Resume? { ResumeKeeps(r, op.owner, op.profile, op.id, c.token); }
  }

  lemma BindKeepsSpent(r: Registry, op: Op, c: Claim)
    requires Sound(r) && Spent(r, c) && op.Bind?
    ensures Spent(Step(r, op), c)
  {
    hide Sound, Answered, Conflicts;
    BindSound(r, op.claim, op.storedId, op.liveId, op.requireStored);
    if Answerable(r, op.claim, op.storedId, op.liveId, op.requireStored) {
      AnsweredFewer(r, op.claim, Aliases(r.leases[op.claim.token], op.storedId), op.liveId.value);
    }
  }

  lemma AnsweredFewer(r: Registry, c: Claim, aliases: set<string>, liveId: string)
    requires Live(r, c)
    ensures var r' := Answered(r, c, aliases, liveId, Conflicts(r, c.token, aliases, liveId)).0;
      forall t :: t in r'.leases ==> t in r.leases && r'.leases[t].pending <= r.leases[t].pending
  {
    hide Apart;
  }

  /** Every other attempt stays as long as its lease does. */
  lemma AttemptsKept(r: Registry, op: Op, c: Claim)
    requires Sound(r) && Live(r, c) && !(op.Bind? && op.claim == c) && op != Forget(c) && c.token in Step(r, op).leases
    ensures Live(Step(r, op), c)
  {
    hide Sound, Full, ClaimResume, CanCreate, Answered, Conflicts, BindClaim;
    FreshAndSettled(r, c.token);
    if op.Bind? { BindKeepsAttempts(r, op, c); } else if op.Resume? { ResumeKeeps(r, op.owner, op.profile, op.id, c.token); }
  }

  lemma BindKeepsAttempts(r: Registry, op: Op, c: Claim)
    requires Sound(r) && Live(r, c) && op.Bind? && op.claim != c && c.token in Step(r, op).leases
    ensures Live(Step(r, op), c)
  {
    hide Sound, Answered, Conflicts;
    if Answerable(r, op.claim, op.storedId, op.liveId, op.requireStored) {
      AnsweredKeepsAttempts(r, op.claim, Aliases(r.leases[op.claim.token], op.storedId), op.liveId.value, c);
    }
  }

  lemma AnsweredKeepsAttempts(r: Registry, c: Claim, aliases: set<string>, liveId: string, other: Claim)
    requires Live(r, c) && Live(r, other) && other != c
    ensures var r' := Answered(r, c, aliases, liveId, Conflicts(r, c.token, aliases, liveId)).0;
      other.token in r'.leases ==> Live(r', other)
  {
    hide Apart;
  }

  /** So it is never live again. */
  lemma {:induction false} SpentForGood(r: Registry, ops: seq<Op>, c: Claim)
    requires Sound(r) && Spent(r, c)
    ensures Spent(Steps(r, ops), c) && !Live(Steps(r, ops), c)
    decreases |ops|
  {
    if ops != [] {
      StepSound(r, ops[0]);
      SpentKept(r, ops[0], c);
      SpentForGood(Step(r, ops[0]), ops[1..], c);
    }
  }

  // ---- Reserving and finishing -------------------------------------------------------------------

  /** The owner of a bound lease can reserve it as it is, unless its live id is being closed already; the
      reservation is under a new token, and its finish leaves no trace but the token. */
  lemma ReserveThenFinish(r: Registry, t: Symbol)
    requires Sound(r) && t in r.leases && r.leases[t].bound
    ensures var lease := r.leases[t];
      var r' := Step(r, ReserveOwned(lease.owner, Snapshot(t, lease.owner, lease.liveIds)));
      if lease.liveIds !! r.closing.Keys then
        && (forall l :: l in r'.closing <==> l in r.closing || l in lease.liveIds)
        && (forall l :: l in lease.liveIds ==> r'.closing[l] == r.next) && r'.leases == r.leases && r'.next == r.next + 1
        && Step(r', Finish(lease.liveIds, r.next)) == r.(next := r.next + 1)
      else r' == r
  {
    assert Settled(r.leases[t]);
    hide Sound, Reserved, Finished;
    if r.leases[t].liveIds !! r.closing.Keys { ReservedThenFinished(r, r.leases[t].liveIds); }
  }

  lemma ReservedThenFinished(r: Registry, ids: set<string>)
    requires ids !! r.closing.Keys
    ensures var r' := Reserved(r, ids);
      && (forall l :: l in r'.closing <==> l in r.closing || l in ids)
      && (forall l :: l in ids ==> r'.closing[l] == r.next) && r'.leases == r.leases && r'.next == r.next + 1
      && Finished(r', ids, r.next) == r.(next := r.next + 1)
  {
    assert Finished(Reserved(r, ids), ids, r.next).closing == r.closing;
  }

  /** The same for a live id that no lease has. */
  lemma ReserveUnownedThenFinish(r: Registry, liveId: string)
    requires Sound(r) && liveId !in r.closing && forall t :: !Routes(r, t, liveId)
    ensures var r' := Step(r, ReserveUnowned(liveId));
      && (forall l :: l in r'.closing <==> l in r.closing || l == liveId) && r'.closing[liveId] == r.next
      && r'.leases == r.leases && Step(r', Finish({liveId}, r.next)) == r.(next := r.next + 1)
  {
    hide Sound, Reserved, Finished, BindClaim, ClaimResume, ForgetAttempt, ReleaseUnboundLeases, ReleaseLease, ClaimCreate;
    assert forall t :: t in r.leases ==> !Routes(r, t, liveId);
    assert CanReserveUnowned(r, liveId);
    ReservedThenFinished(r, {liveId});
  }

  predicate Reserves(r: Registry, op: Op, liveId: string) {
    || (op.ReserveUnowned? && op.id == liveId && CanReserveUnowned(r, liveId))
    || (op.ReserveOwned? && liveId in op.snapshot.liveIds && CanReserveOwned(r, op.owner, op.snapshot))
  }

  /** A live id is being closed from its reservation until that is finished or everything is released. */
  lemma ClosingExactly(r: Registry, op: Op, liveId: string)
    requires Sound(r)
    ensures liveId in Step(r, op).closing <==>
      (liveId in r.closing && !Ends(op, liveId, r.closing[liveId])) || Reserves(r, op, liveId)
  {
    hide Sound, Full, ClaimResume, CanCreate, Answered, Conflicts, BindClaim, CanReserveUnowned, CanReserveOwned;
    match op
    case Bind(claim, storedId, id, requireStored) => BindSound(r, claim, storedId, id, requireStored);
    case Resume(owner, profile, id) => ResumeSound(r, owner, profile, id);
    case _ =>
  }
}
