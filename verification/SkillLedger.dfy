/**
 The persisted record of OfficeGlobalSettingsStore and what each store operation makes of it.

 `managed` and `overrides` are the arrays managedSkills and skillOverrides. The code only ever adds an
 absent key and no code path reads the order, so they are sets; the two journals stay sequences.
 */
module SkillLedger {
  const MAX_PROVENANCE := 10_000
  const MAX_PENDING_MUTATIONS := 10_000
  const MAX_PENDING_OVERRIDES := 1_000

  datatype Key = Key(profile: string, skill: string)

  /** Which journal an intent belongs to; a global mutation carries the revision it was made for. */
  datatype Kind = Override | Mutation(revision: nat)

  datatype Intent = Intent(id: nat, kind: Kind, key: Key, desired: bool, expected: bool)

  datatype Ledger = Ledger(
    revision: nat,
    sharedEnabled: bool,
    skills: seq<string>,
    synced: bool,
    failures: set<Failure>,
    managed: set<Key>,
    overrides: set<Key>,
    pendingOverrides: seq<Intent>,
    pendingMutations: seq<Intent>)

  type Flags = map<Key, bool>

  /** A pair the last synchronization could not bring in line, and whether it meant to enable it. */
  datatype Failure = Failure(key: Key, enable: bool)

  // ---- Next states -------------------------------------------------------------------------------

  function WithoutId(journal: seq<Intent>, id: nat): (r: seq<Intent>) {
    if journal == [] then []
    else (if journal[0].id == id then [] else [journal[0]]) + WithoutId(journal[1..], id)
  }

  function Journal(l: Ledger, kind: Kind): seq<Intent> {
    if kind.Override? then l.pendingOverrides else l.pendingMutations
  }

  function WithJournal(l: Ledger, kind: Kind, journal: seq<Intent>): Ledger {
    if kind.Override? then l.(pendingOverrides := journal) else l.(pendingMutations := journal)
  }

  function Recorded(l: Ledger, i: Intent): Ledger {
    WithJournal(l, i.kind, Journal(l, i.kind) + [i])
  }

  function Aborted(l: Ledger, i: Intent): Ledger {
    WithJournal(l, i.kind, WithoutId(Journal(l, i.kind), i.id))
  }

  /** Committing an intent moves ownership of its key and clears it from its journal. */
  function Settled(l: Ledger, i: Intent): Ledger {
    Aborted(l.(
        managed := if i.kind.Mutation? && i.desired then l.managed + {i.key} else l.managed - {i.key},
        overrides := if i.kind.Override? then l.overrides + {i.key} else l.overrides), i)
  }

  // ---- The invariant -----------------------------------------------------------------------------

  predicate DistinctIntents(journal: seq<Intent>) {
    forall a, b | 0 <= a < b < |journal| :: journal[a].id != journal[b].id && journal[a].key != journal[b].key
  }

  /** A pending global change was made for this revision, for a key no user has taken over, and asks
      Office to take on a key it does not own or to give up one it does. */
  predicate Justified(l: Ledger, i: Intent) {
    && i.kind == Mutation(l.revision)
    && i.expected == !i.desired
    && i.key !in l.overrides
    && (i.desired <==> i.key !in l.managed)
  }

  ghost predicate Consistent(l: Ledger) {
    && l.managed !! l.overrides
    && (l.pendingOverrides == [] || l.pendingMutations == [])
    && DistinctIntents(l.pendingOverrides)
    && DistinctIntents(l.pendingMutations)
    && (forall i :: i in l.pendingOverrides ==> i.kind == Override && i.key !in l.overrides)
    && (forall i :: i in l.pendingMutations ==> Justified(l, i))
  }

  ghost predicate IdsBelow(l: Ledger, bound: nat) {
    && (forall i :: i in l.pendingOverrides ==> i.id < bound)
    && (forall i :: i in l.pendingMutations ==> i.id < bound)
  }

  lemma OldestIntent(l: Ledger, kind: Kind)
    requires Consistent(l) && Journal(l, kind) != []
    ensures var i := Journal(l, kind)[0];
      && i in Journal(l, i.kind) && i.kind.Override? == kind.Override?
      && Settled(l, i) == WithJournal(Settled(l, i), kind, Journal(l, kind)[1..])
      && Settled(l, i).revision == l.revision
  {
    assert Journal(l, kind)[0] in Journal(l, kind);
    WithoutHead(Journal(l, kind));
  }

  lemma {:induction false} WithoutMembers(journal: seq<Intent>, id: nat)
    ensures forall i :: i in WithoutId(journal, id) <==> i in journal && i.id != id
  {
    if journal != [] {
      WithoutMembers(journal[1..], id);
      assert journal == [journal[0]] + journal[1..];
    }
  }

  lemma {:induction false} WithoutDistinct(journal: seq<Intent>, id: nat)
    requires DistinctIntents(journal)
    ensures DistinctIntents(WithoutId(journal, id))
  {
    if journal != [] {
      WithoutDistinct(journal[1..], id);
      WithoutMembers(journal[1..], id);
      forall i | i in journal[1..] ensures i.id != journal[0].id && i.key != journal[0].key {
        var n :| 0 <= n < |journal[1..]| && journal[1..][n] == i;
        assert journal[n + 1] == i;
      }
    }
  }

  lemma {:induction false} WithoutAbsent(journal: seq<Intent>, id: nat)
    requires forall i :: i in journal ==> i.id != id
    ensures WithoutId(journal, id) == journal
  {
    if journal != [] {
      assert journal[0] in journal;
      WithoutAbsent(journal[1..], id);
      assert journal == [journal[0]] + journal[1..];
    }
  }

  lemma {:induction false} WithoutAppend(a: seq<Intent>, b: seq<Intent>, id: nat)
    ensures WithoutId(a + b, id) == WithoutId(a, id) + WithoutId(b, id)
  {
    if a == [] {
      assert a + b == b;
    } else {
      var head := if a[0].id == id then [] else [a[0]];
      assert (a + b)[0] == a[0] && (a + b)[1..] == a[1..] + b;
      assert WithoutId(a + b, id) == head + WithoutId(a[1..] + b, id);
      assert WithoutId(a, id) == head + WithoutId(a[1..], id);
      hide WithoutId;
      WithoutAppend(a[1..], b, id);
      assert head + (WithoutId(a[1..], id) + WithoutId(b, id)) == (head + WithoutId(a[1..], id)) + WithoutId(b, id);
    }
  }

  lemma WithoutLast(journal: seq<Intent>, i: Intent)
    requires forall j :: j in journal ==> j.id != i.id
    ensures WithoutId(journal + [i], i.id) == journal
  {
    WithoutAbsent(journal, i.id);
    WithoutAppend(journal, [i], i.id);
    assert WithoutId([i], i.id) == [];
  }

  lemma WithoutHead(journal: seq<Intent>)
    requires journal != [] && DistinctIntents(journal)
    ensures WithoutId(journal, journal[0].id) == journal[1..]
  {
    forall i | i in journal[1..] ensures i.id != journal[0].id {
      var n :| 0 <= n < |journal[1..]| && journal[1..][n] == i;
      assert journal[n + 1] == i;
    }
    WithoutAbsent(journal[1..], journal[0].id);
  }

  lemma SameIdSameIntent(journal: seq<Intent>, i: Intent, j: Intent)
    requires DistinctIntents(journal) && i in journal && j in journal && (i.id == j.id || i.key == j.key)
    ensures i == j
  {
    var a :| 0 <= a < |journal| && journal[a] == i;
    var b :| 0 <= b < |journal| && journal[b] == j;
    assert !(a < b) && !(b < a);
  }

  /** Recording a justified intent keeps the invariant. */
  lemma RecordedConsistent(l: Ledger, i: Intent)
    requires Consistent(l) && forall j :: j in Journal(l, i.kind) ==> j.id != i.id && j.key != i.key
    requires if i.kind.Override? then l.pendingMutations == [] && i.key !in l.overrides else l.pendingOverrides == [] && Justified(l, i)
    ensures Consistent(Recorded(l, i))
    ensures forall bound :: IdsBelow(l, bound) && i.id < bound ==> IdsBelow(Recorded(l, i), bound)
  {
    assert forall n | 0 <= n < |Journal(l, i.kind)| :: Journal(l, i.kind)[n] in Journal(l, i.kind);
  }

  /** Dropping an intent keeps the invariant. */
  lemma AbortedConsistent(l: Ledger, i: Intent)
    requires Consistent(l)
    ensures Consistent(Aborted(l, i)) && forall bound :: IdsBelow(l, bound) ==> IdsBelow(Aborted(l, i), bound)
  {
    WithoutMembers(Journal(l, i.kind), i.id);
    WithoutDistinct(Journal(l, i.kind), i.id);
  }

  /** Committing an intent of either journal keeps the invariant. */
  lemma SettledConsistent(l: Ledger, i: Intent)
    requires Consistent(l) && i in Journal(l, i.kind)
    ensures Consistent(Settled(l, i)) && forall bound :: IdsBelow(l, bound) ==> IdsBelow(Settled(l, i), bound)
  {
    var journal := Journal(l, i.kind);
    WithoutMembers(journal, i.id);
    WithoutDistinct(journal, i.id);
    forall j | j in journal && j.id != i.id ensures j.key != i.key {
      if j.key == i.key { SameIdSameIntent(journal, i, j); }
    }
  }

  /** Recording an intent and then committing it leaves only its effect on ownership. */
  lemma RecordedThenSettled(l: Ledger, i: Intent)
    requires forall j :: j in Journal(l, i.kind) ==> j.id != i.id
    ensures Journal(Settled(Recorded(l, i), i), i.kind) == Journal(l, i.kind)
    ensures Aborted(Recorded(l, i), i) == l
  {
    WithoutLast(Journal(l, i.kind), i);
  }

  // ---- Recovery ----------------------------------------------------------------------------------

  /** Everything recovery can see: the persisted record and Hermes' own flags. */
  datatype World = World(ledger: Ledger, flags: Flags)

  function Settle(w: World, i: Intent): World {
    World(Settled(w.ledger, i), w.flags[i.key := i.desired])
  }

  function SettleAll(w: World, todo: seq<Intent>): World
    decreases |todo|
  {
    if todo == [] then w else SettleAll(Settle(w, todo[0]), todo[1..])
  }

  lemma SettleNone(w: World)
    ensures SettleAll(w, []) == w
  {
  }

  /** What reconciling makes of the record does not depend on Hermes. */
  lemma {:induction false} SettleAllLedger(l: Ledger, f: Flags, g: Flags, todo: seq<Intent>)
    ensures SettleAll(World(l, f), todo).ledger == SettleAll(World(l, g), todo).ledger
    decreases |todo|
  {
    if todo != [] {
      SettleAllLedger(Settled(l, todo[0]), f[todo[0].key := todo[0].desired], g[todo[0].key := todo[0].desired], todo[1..]);
    }
  }

  /** What reconciling a whole journal reaches. */
  function Recover(w: World, kind: Kind): World {
    SettleAll(w, Journal(w.ledger, kind))
  }

  /** The uninterrupted run of an intent: record it, let Hermes apply it, commit it. */
  function Completion(w: World, i: Intent): World {
    World(Settled(Recorded(w.ledger, i), i), w.flags[i.key := i.desired])
  }

  /** Where that run can be cut once the intent is durable. */
  predicate CutAfterIntent(w: World, i: Intent, cut: World) {
    || cut == World(Recorded(w.ledger, i), w.flags)
    || cut == World(Recorded(w.ledger, i), w.flags[i.key := i.desired])
    || cut == Completion(w, i)
  }

  /** Two changes to different keys commute, whatever journals they come from. */
  lemma SettleCommutes(w: World, i: Intent, j: Intent)
    requires i.key != j.key
    ensures Settle(Settle(w, i), j) == Settle(Settle(w, j), i)
  {
    if i.kind.Override? == j.kind.Override? {
      WithoutCommutes(Journal(w.ledger, i.kind), i.id, j.id);
    }
    var a, b := Settle(Settle(w, i), j), Settle(Settle(w, j), i);
    assert a.ledger.managed == b.ledger.managed;
    assert a.ledger.overrides == b.ledger.overrides;
    assert a.flags == b.flags;
  }

  lemma {:induction false} WithoutCommutes(journal: seq<Intent>, a: nat, b: nat)
    ensures WithoutId(WithoutId(journal, a), b) == WithoutId(WithoutId(journal, b), a)
  {
    if journal != [] {
      WithoutCommutes(journal[1..], a, b);
      WithoutAppend(if journal[0].id == a then [] else [journal[0]], WithoutId(journal[1..], a), b);
      WithoutAppend(if journal[0].id == b then [] else [journal[0]], WithoutId(journal[1..], b), a);
    }
  }

  lemma {:induction false} SettleAllAppend(w: World, a: seq<Intent>, b: seq<Intent>)
    ensures SettleAll(w, a + b) == SettleAll(SettleAll(w, a), b)
    decreases |a|
  {
    if a == [] {
      assert a + b == b;
    } else {
      SettleAllAppend(Settle(w, a[0]), a[1..], b);
      assert (a + b)[1..] == a[1..] + b;
    }
  }

  lemma {:induction false} SettleLastFirst(w: World, todo: seq<Intent>, i: Intent)
    requires forall j :: j in todo ==> j.key != i.key
    ensures SettleAll(w, todo + [i]) == SettleAll(Settle(w, i), todo)
    decreases |todo|
  {
    if todo == [] {
      assert todo + [i] == [i];
    } else {
      assert (todo + [i])[1..] == todo[1..] + [i];
      assert todo[0] in todo;
      SettleLastFirst(Settle(w, todo[0]), todo[1..], i);
      SettleCommutes(w, i, todo[0]);
    }
  }

  /** Recovery does not care whether Hermes had already applied the change when the run was cut. */
  lemma {:induction false} SettleAllForgetsFlag(l: Ledger, f: Flags, todo: seq<Intent>, i: Intent)
    requires i in todo && forall j :: j in todo && j.key == i.key ==> j == i
    ensures SettleAll(World(l, f), todo) == SettleAll(World(l, f[i.key := i.desired]), todo)
    decreases |todo|
  {
    var f' := f[i.key := i.desired];
    if todo[0] == i {
      assert f[i.key := i.desired] == f'[i.key := i.desired];
    } else {
      var h := todo[0];
      assert h in todo && h.key != i.key;
      assert i in todo[1..];
      SettleAllForgetsFlag(Settled(l, h), f[h.key := h.desired], todo[1..], i);
      assert f'[h.key := h.desired] == f[h.key := h.desired][i.key := i.desired];
    }
  }

  /** Crash recovery equals completion: from wherever the run of a durable intent was cut, reconciling
      its journal reaches exactly what reconciling reaches after the uninterrupted run. */
  lemma RecoveryEqualsCompletion(w: World, i: Intent, cut: World)
    requires forall j :: j in Journal(w.ledger, i.kind) ==> j.id != i.id && j.key != i.key
    requires CutAfterIntent(w, i, cut)
    ensures Recover(cut, i.kind) == Recover(Completion(w, i), i.kind)
  {
    var rest := Journal(w.ledger, i.kind);
    RecordedThenSettled(w.ledger, i);
    if cut != Completion(w, i) {
      var recorded := World(Recorded(w.ledger, i), w.flags);
      SettleAllForgetsFlag(recorded.ledger, w.flags, rest + [i], i);
      SettleLastFirst(recorded, rest, i);
      assert Settle(recorded, i) == Completion(w, i);
    }
  }

  lemma SettledEarly(w: World, a: seq<Intent>, i: Intent, b: seq<Intent>)
    requires forall j :: j in a ==> j.key != i.key
    ensures SettleAll(w, (a + [i]) + b) == SettleAll(Settle(w, i), a + b)
  {
    hide Settle;
    SettleAllAppend(w, a + [i], b);
    SettleLastFirst(w, a, i);
    SettleAllAppend(Settle(w, i), a, b);
  }

  lemma AroundIntent(journal: seq<Intent>, i: Intent) returns (a: seq<Intent>, b: seq<Intent>)
    requires DistinctIntents(journal) && i in journal
    ensures journal == (a + [i]) + b && forall j :: j in a + b ==> j.id != i.id && j.key != i.key
  {
    var n :| 0 <= n < |journal| && journal[n] == i;
    a, b := journal[..n], journal[n + 1..];
    forall j | j in a + b ensures j.id != i.id && j.key != i.key {
      if j in a { var m :| 0 <= m < n && journal[m] == j; } else { var m :| n < m < |journal| && journal[m] == j; }
    }
  }

  /** Settling one intent, or only its flag, leaves recovery where it was heading. */
  lemma StillRecovers(w: World, kind: Kind, i: Intent, w': World)
    requires Consistent(w.ledger) && i in Journal(w.ledger, kind)
    requires w' == World(w.ledger, w.flags[i.key := i.desired]) || w' == Settle(w, i)
    ensures Recover(w', kind) == Recover(w, kind)
  {
    hide DistinctIntents;
    var journal := Journal(w.ledger, kind);
    if w' == Settle(w, i) {
      var a, b := AroundIntent(journal, i);
      WithoutOne(a, i, b);
      hide SettleAll;
      SettledEarly(w, a, i, b);
    } else {
      forall j | j in journal && j.key == i.key ensures j == i { SameIdSameIntent(journal, i, j); }
      hide SettleAll;
      SettleAllForgetsFlag(w.ledger, w.flags, journal, i);
    }
  }

  lemma WithoutOne(a: seq<Intent>, i: Intent, b: seq<Intent>)
    requires forall j :: j in a + b ==> j.id != i.id
    ensures WithoutId((a + [i]) + b, i.id) == a + b
  {
    WithoutAppend(a + [i], b, i.id);
    WithoutLast(a, i);
    WithoutAbsent(b, i.id);
  }

  /** Recovery of one journal leaves the other. */
  lemma {:induction false} SettleAllApart(w: World, todo: seq<Intent>, kind: Kind)
    requires forall i :: i in todo ==> i.kind.Override? != kind.Override?
    ensures Journal(SettleAll(w, todo).ledger, kind) == Journal(w.ledger, kind)
    decreases |todo|
  {
    if todo != [] {
      assert todo[0] in todo;
      SettleAllApart(Settle(w, todo[0]), todo[1..], kind);
    }
  }

  /** A recovered journal is empty, so recovering again changes nothing. */
  lemma {:induction false} RecoverTwice(w: World, kind: Kind)
    requires Consistent(w.ledger)
    ensures Journal(Recover(w, kind).ledger, kind) == []
    ensures Recover(Recover(w, kind), kind) == Recover(w, kind)
    decreases |Journal(w.ledger, kind)|
  {
    var journal := Journal(w.ledger, kind);
    if journal != [] {
      var i := journal[0];
      assert i in journal;
      WithoutHead(journal);
      SettledConsistent(w.ledger, i);
      assert Settle(w, i).flags == w.flags[i.key := i.desired];
      assert Journal(Settle(w, i).ledger, kind) == journal[1..];
      RecoverTwice(Settle(w, i), kind);
    }
  }

  lemma {:induction false} RecoverConsistent(w: World, kind: Kind)
    requires Consistent(w.ledger)
    ensures Consistent(Recover(w, kind).ledger)
    decreases |Journal(w.ledger, kind)|
  {
    var journal := Journal(w.ledger, kind);
    if journal != [] {
      OldestIntent(w.ledger, kind);
      SettledConsistent(w.ledger, journal[0]);
      RecoverConsistent(Settle(w, journal[0]), kind);
    }
  }

  /** A recovered key ends where its intent asked: the flag is the desired one, Office owns it exactly
      when the intent was an enabling global change, and a user override leaves Office nothing. */
  lemma {:induction false} RecoveredKey(w: World, kind: Kind, i: Intent)
    requires Consistent(w.ledger) && i in Journal(w.ledger, kind)
    ensures var r := Recover(w, kind);
      && i.key in r.flags && r.flags[i.key] == i.desired
      && (i.key in r.ledger.managed <==> i.kind.Mutation? && i.desired)
      && (i.key in r.ledger.overrides <==> i.kind.Override?)
  {
    var journal := Journal(w.ledger, kind);
    var n :| 0 <= n < |journal| && journal[n] == i;
    SettleAllAppend(w, journal[..n], journal[n..]);
    assert journal == journal[..n] + journal[n..];
    assert journal[n..][1..] == journal[n + 1..];
    var before := SettleAll(w, journal[..n]);
    assert forall j | j in journal[..n] :: j.key != i.key;
    assert forall j | j in journal[n + 1..] :: j.key != i.key;
    OtherKeysKept(w, journal[..n], i.key);
    OtherKeysKept(Settle(before, i), journal[n + 1..], i.key);
  }

  lemma {:induction false} OtherKeysKept(w: World, todo: seq<Intent>, key: Key)
    requires forall j :: j in todo ==> j.key != key
    ensures var r := SettleAll(w, todo);
      && (key in r.flags <==> key in w.flags) && (key in w.flags ==> r.flags[key] == w.flags[key])
      && (key in r.ledger.managed <==> key in w.ledger.managed)
      && (key in r.ledger.overrides <==> key in w.ledger.overrides)
      && r.ledger.revision == w.ledger.revision
    decreases |todo|
  {
    if todo != [] {
      assert todo[0] in todo;
      OtherKeysKept(Settle(w, todo[0]), todo[1..], key);
    }
  }

  // ---- Flags and ownership move together ---------------------------------------------------------

  /** Office switched the skill on and took it on, or switched it off and gave it up. */
  predicate Moved(before: set<Key>, after: set<Key>, key: Key, on: bool) {
    (key in after <==> on) && (key in before <==> !on)
  }

  /** No flag differs from the start without its ownership having moved with it. */
  ghost predicate NoOrphans(start: World, w: World) {
    && w.flags.Keys == start.flags.Keys
    && (forall k :: k in w.flags && w.flags[k] != start.flags[k] ==> Moved(start.ledger.managed, w.ledger.managed, k, w.flags[k]))
  }

  function PendingKeys(journal: seq<Intent>): set<Key> {
    set i | i in journal :: i.key
  }

  /** The same, but for pairs with a pending global change, whose ownership has yet to move. */
  ghost predicate Accounted(start: World, flags: Flags, managed: set<Key>, pending: seq<Intent>) {
    && flags.Keys == start.flags.Keys
    && (forall i :: i in pending ==> i.key in flags && (i.desired <==> i.key !in start.ledger.managed))
    && (forall k :: k in flags && flags[k] != start.flags[k] && k !in PendingKeys(pending) ==>
          Moved(start.ledger.managed, managed, k, flags[k]))
  }

  /** Recovery sees to those. */
  lemma AccountedRecovers(start: World, w: World)
    requires Consistent(w.ledger) && Accounted(start, w.flags, w.ledger.managed, w.ledger.pendingMutations)
    ensures NoOrphans(start, Recover(w, Mutation(0)))
  {
    var r := Recover(w, Mutation(0));
    forall k
      ensures k in r.flags <==> k in start.flags
      ensures k in r.flags && r.flags[k] != start.flags[k] ==> Moved(start.ledger.managed, r.ledger.managed, k, r.flags[k])
    {
      hide Consistent, SettleAll;
      if k in PendingKeys(w.ledger.pendingMutations) {
        var i :| i in w.ledger.pendingMutations && i.key == k;
        RecoveredKey(w, Mutation(0), i);
        PendingAreMutations(w.ledger, i);
      } else {
        OtherKeysKept(w, w.ledger.pendingMutations, k);
      }
    }
  }

  lemma PendingAreMutations(l: Ledger, i: Intent)
    requires Consistent(l) && i in l.pendingMutations
    ensures i.kind.Mutation?
  {
  }

  /** A change that is recorded for a pair, or carried through, keeps that. */
  lemma AppliedAccounted(start: World, w: World, w': World, managed: set<Key>, managed': set<Key>, i: Intent)
    requires Accounted(start, w.flags, managed, w.ledger.pendingMutations) && i.kind.Mutation?
    requires i.key in w.flags && (i.desired <==> i.key !in start.ledger.managed)
    requires forall j :: j in w.ledger.pendingMutations ==> j.id != i.id && j.key != i.key
    requires w' == w || CutAfterIntent(w, i, w')
    requires forall k :: k != i.key ==> (k in managed' <==> k in managed)
    requires (w' == w ==> managed' == managed) && (w' == Completion(w, i) ==> (i.key in managed' <==> i.desired))
    ensures Accounted(start, w'.flags, managed', w'.ledger.pendingMutations)
  {
    RecordedThenSettled(w.ledger, i);
    if w' != w {
      hide Accounted, WithoutId;
      if w' == Completion(w, i) {
        AccountedSettled(start, w.flags, managed, managed', w.ledger.pendingMutations, i);
      } else {
        AccountedRecorded(start, w.flags, w'.flags, managed, managed', w.ledger.pendingMutations, i);
      }
    }
  }

  lemma AccountedSettled(start: World, flags: Flags, managed: set<Key>, managed': set<Key>, pending: seq<Intent>, i: Intent)
    requires Accounted(start, flags, managed, pending) && i.key in flags && (i.desired <==> i.key !in start.ledger.managed)
    requires forall k :: k != i.key ==> (k in managed' <==> k in managed)
    requires i.key in managed' <==> i.desired
    ensures Accounted(start, flags[i.key := i.desired], managed', pending)
  {
    hide PendingKeys;
    assert flags[i.key := i.desired].Keys == flags.Keys;
  }

  lemma AccountedRecorded(
      start: World, flags: Flags, flags': Flags, managed: set<Key>, managed': set<Key>, pending: seq<Intent>, i: Intent)
    requires Accounted(start, flags, managed, pending) && i.key in flags && (i.desired <==> i.key !in start.ledger.managed)
    requires flags' == flags || flags' == flags[i.key := i.desired]
    requires forall k :: k != i.key ==> (k in managed' <==> k in managed)
    ensures Accounted(start, flags', managed', pending + [i])
  {
    RecordedKeys(pending, i);
    hide PendingKeys;
    assert flags[i.key := i.desired].Keys == flags.Keys;
  }

  lemma RecordedKeys(journal: seq<Intent>, i: Intent)
    ensures PendingKeys(journal + [i]) == PendingKeys(journal) + {i.key}
  {
    assert i in journal + [i];
  }

  // ---- A user's toggle ---------------------------------------------------------------------------

  /** Where both operations start, and what a restart reaches: both journals recovered, oldest intent first. */
  function Recovered(w: World): World {
    Recover(Recover(w, Override), Mutation(0))
  }

  ghost predicate Free(l: Ledger, kind: Kind, key: Key) {
    forall j :: j in Journal(l, kind) ==> j.key != key
  }

  /** Every way a user's toggle of a free key can end: on the way of recovering the global journal, with
      nothing done after that, or cut after its intent was durable. */
  ghost predicate OverrideLeft(w: World, i: Intent, left: World) {
    var r := Recover(w, Mutation(0));
    Recover(left, Mutation(0)) == r || CutAfterIntent(r, i, left)
  }

  /** Whatever became of the toggle, recovering afterwards reaches what the uninterrupted toggle reaches if
      its intent was durable, and what it would have reached without the toggle if not. */
  lemma OverrideRecovers(w: World, i: Intent, left: World)
    requires Consistent(w.ledger) && Consistent(left.ledger) && OverrideLeft(w, i, left) && i.kind.Override?
    requires forall j :: j in w.ledger.pendingOverrides ==> j.id != i.id && j.key != i.key
    ensures var r := Recover(w, Mutation(0));
      Recovered(left) == Recover(if CutAfterIntent(r, i, left) then Completion(r, i) else r, Override)
  {
    var r := Recover(w, Mutation(0));
    RecoverTwice(w, Mutation(0));
    SettleAllApart(w, w.ledger.pendingMutations, Override);
    SettleAllApart(left, left.ledger.pendingOverrides, Mutation(0));
    SettleAllApart(left, left.ledger.pendingMutations, Override);
    if CutAfterIntent(r, i, left) {
      RecordedThenSettled(r.ledger, i);
      RecoveryEqualsCompletion(r, i, left);
    } else if left.ledger.pendingOverrides != [] {
      assert left == r;
    }
  }

  /** The two agree on every pair but this one. */
  ghost predicate SameBut(a: World, b: World, key: Key) {
    forall k :: k != key ==> SameAt(a, b, k)
  }

  predicate SameAt(a: World, b: World, k: Key) {
    && (k in a.flags <==> k in b.flags) && (k in a.flags && k in b.flags ==> a.flags[k] == b.flags[k])
    && (k in a.ledger.managed <==> k in b.ledger.managed) && (k in a.ledger.overrides <==> k in b.ledger.overrides)
  }

  lemma RecoverSameBut(a: World, b: World, kind: Kind, key: Key)
    requires Consistent(a.ledger) && Consistent(b.ledger) && Journal(a.ledger, kind) == Journal(b.ledger, kind) && SameBut(a, b, key)
    ensures SameBut(Recover(a, kind), Recover(b, kind), key)
  {
    forall k | k != key ensures SameAt(Recover(a, kind), Recover(b, kind), k) {
      assert SameAt(a, b, k);
      hide Consistent, SettleAll, SameBut;
      if i :| i in Journal(a.ledger, kind) && i.key == k {
        RecoveredKey(a, kind, i);
        RecoveredKey(b, kind, i);
      } else {
        OtherKeysKept(a, Journal(a.ledger, kind), k);
        OtherKeysKept(b, Journal(b.ledger, kind), k);
      }
    }
  }

  /** With only one journal in use, the order of recovering them does not matter. */
  lemma RecoveredEither(w: World)
    requires Consistent(w.ledger)
    ensures Recovered(w) == Recover(Recover(w, Mutation(0)), Override)
  {
    SettleAllApart(w, w.ledger.pendingOverrides, Mutation(0));
    SettleAllApart(w, w.ledger.pendingMutations, Override);
  }

  /** The user's toggle goes through, or recovery sees to it. */
  predicate TakenOver(w: World, key: Key, desired: bool) {
    key in w.flags && w.flags[key] == desired && key in w.ledger.overrides && key !in w.ledger.managed
  }

  lemma CompletedOverride(r: World, i: Intent)
    requires Consistent(r.ledger) && r.ledger.pendingMutations == [] && i.kind.Override? && i.key !in r.ledger.overrides
    requires forall j :: j in r.ledger.pendingOverrides ==> j.id != i.id && j.key != i.key
    ensures var c := Recover(Completion(r, i), Override);
      SameBut(Recover(r, Override), c, i.key) && TakenOver(c, i.key, i.desired)
  {
    RecordedThenSettled(r.ledger, i);
    CompletionConsistent(r, i);
    hide Consistent, SettleAll;
    assert SameBut(r, Completion(r, i), i.key);
    RecoverSameBut(r, Completion(r, i), Override, i.key);
    OtherKeysKept(Completion(r, i), r.ledger.pendingOverrides, i.key);
  }

  lemma CompletionConsistent(r: World, i: Intent)
    requires Consistent(r.ledger) && r.ledger.pendingMutations == [] && i.kind.Override? && i.key !in r.ledger.overrides
    requires forall j :: j in r.ledger.pendingOverrides ==> j.id != i.id && j.key != i.key
    ensures Consistent(Completion(r, i).ledger)
  {
    RecordedConsistent(r.ledger, i);
    SettledConsistent(Recorded(r.ledger, i), i);
  }

  // ---- What the store can read back --------------------------------------------------------------

  /** The size rules that every read applies to the persisted record. */
  predicate Readable(l: Ledger) {
    && |l.managed| <= MAX_PROVENANCE
    && |l.overrides| <= MAX_PROVENANCE
    && |l.pendingOverrides| <= MAX_PENDING_OVERRIDES
    && |l.pendingMutations| <= MAX_PENDING_MUTATIONS
  }

  predicate JournalFull(l: Ledger, kind: Kind) {
    |Journal(l, kind)| == if kind.Override? then MAX_PENDING_OVERRIDES else MAX_PENDING_MUTATIONS
  }

  /** The commit adds the one key that makes a provenance list too long. */
  predicate ProvenanceFull(l: Ledger, i: Intent) {
    || (|l.managed| == MAX_PROVENANCE && i.kind.Mutation? && i.desired && i.key !in l.managed)
    || (|l.overrides| == MAX_PROVENANCE && i.kind.Override? && i.key !in l.overrides)
  }

  /** Recording does not check the size rules. */
  lemma RecordedReadable(l: Ledger, i: Intent)
    requires Readable(l)
    ensures Readable(Recorded(l, i)) <==> !JournalFull(l, i.kind)
  {
  }

  /** Committing does not check them either. */
  lemma SettledReadable(l: Ledger, i: Intent)
    requires Readable(l) && i in Journal(l, i.kind)
    ensures Readable(Settled(l, i)) <==> !ProvenanceFull(l, i)
  {
    hide WithoutId;
    WithoutShorter(Journal(l, i.kind), i.id);
    KeyMoves(l.managed, i.key);
    KeyMoves(l.overrides, i.key);
  }

  lemma KeyMoves(keys: set<Key>, key: Key)
    ensures |keys - {key}| <= |keys|
    ensures |keys + {key}| == |keys| + if key in keys then 0 else 1
  {
    if key in keys { assert keys + {key} == keys; }
  }

  lemma {:induction false} WithoutShorter(journal: seq<Intent>, id: nat)
    ensures |WithoutId(journal, id)| <= |journal|
  {
    if journal != [] { WithoutShorter(journal[1..], id); }
  }
}
