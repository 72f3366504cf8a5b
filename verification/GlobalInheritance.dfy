/**
 GlobalInheritanceCoordinator over OfficeGlobalSettingsStore and the Hermes settings adapter.

 Every awaited step may succeed, throw, or be the last thing the process does; between any two of them
 something outside Office may change Hermes, unless `quiet`. Store writes happen completely or not at all.
 The contracts therefore describe the store and Hermes as *any* exit leaves them, the crashes included.
 */
module GlobalInheritance {
  import opened FiniteSets
  import opened LedgerHistory
  import opened Outcomes
  import opened SkillLedger

  const MAX_SKILLS := 64
  const MAX_PROFILES := 1_000

  predicate Definite(code: ErrorCode) {
    code.Conflict? || code.InvalidRequest? || code.NotFound?
  }

  predicate NoRepeats(s: seq<string>) {
    forall a, b | 0 <= a < b < |s| :: s[a] != s[b]
  }

  datatype Settings = Settings(expectedRevision: nat, sharedEnabled: Option<bool>, skills: Option<seq<string>>)

  /** A toggle sent to Hermes; one of the global sync with the record as it then stood. */
  datatype Toggle = Toggle(key: Key, desired: bool, global: Option<Ledger>)

  /** The global sync never touches an overridden skill; it disables only an owned one and enables only
      an unowned one. */
  predicate Rightful(t: Toggle) {
    t.global.Some? ==> t.key !in t.global.value.overrides && (t.desired <==> t.key !in t.global.value.managed)
  }

  /** How calls to Hermes fare: none fails by itself and no listing misses anything, the answers to all toggles
      are lost, or anything. */
  datatype Line = Clear | Mute | Unreliable

  predicate NothingPending(l: Ledger) {
    l.pendingOverrides == [] && l.pendingMutations == []
  }

  /** Nothing in the record is in the way of these settings. */
  predicate CanStage(l: Ledger, input: Settings) {
    var skills := if input.skills.Some? then input.skills.value else l.skills;
    Readable(l) && input.expectedRevision == l.revision && |skills| <= MAX_SKILLS && NoRepeats(skills)
  }

  /** Nothing in the record is in the way of a new intent for the key. */
  ghost predicate CanPrepare(l: Ledger, kind: Kind, key: Key) {
    Readable(l) && (kind.Mutation? ==> kind.revision == l.revision) && Free(l, kind, key)
  }

  /** Whatever is pending for the key asks for the same. */
  ghost predicate AllFor(journal: seq<Intent>, key: Key, desired: bool, expected: bool) {
    forall i :: i in journal && i.key == key ==> i.desired == desired && i.expected == expected
  }

  class OfficeGlobalSettingsStore {
    var ledger: Ledger
    var nextId: nat                  // 256 random bits in the source: an id never comes back
    const steady: bool               // no read or write fails by itself
    ghost const start: Ledger        // the record as it was found
    ghost var history: seq<Change>   // every write since

    ghost predicate Recounted()
      reads this
    {
      Lawful(start, history) && ledger == Replay(start, history)
    }

    ghost predicate Valid()
      reads this
    {
      Consistent(ledger) && IdsBelow(ledger, nextId) && Recounted()
    }

    method Read() returns (o: Outcome<Ledger>)
      ensures o.Done? ==> o.value == ledger && Readable(ledger)
      ensures steady ==> (o.Done? <==> Readable(ledger)) && !o.Crashed?
    {
      if {
        case !steady => o := Failed(Rejected);
        case !steady => o := Crashed;
        case true => o := if Readable(ledger) then Done(ledger) else Failed(InvalidRequest);
      }
    }

    method Write(next: Ledger, ghost change: Change) returns (o: Outcome<()>)
      requires Recounted() && Allowed(ledger, change) && next == Changed(ledger, change)
      modifies this`ledger, this`history
      ensures Recounted() && old(history) <= history
      ensures o.Done? ==> ledger == next
      ensures o.Failed? ==> ledger == old(ledger)
      ensures o.Crashed? ==> ledger == old(ledger) || ledger == next
      ensures steady ==> o.Done?
    {
      Extended(start, history, change);
      if {
        case !steady => o := Failed(Rejected);
        case !steady => o := Crashed;
        case !steady => ledger, history := next, history + [change]; o := Crashed;
        case true => ledger, history := next, history + [change]; o := Done(());
      }
    }

    method BeginMaterialization(input: Settings) returns (o: Outcome<Ledger>)
      requires Valid() && ledger.pendingOverrides == [] && ledger.pendingMutations == []
      modifies this`ledger, this`history
      ensures Valid() && old(history) <= history && ledger.pendingOverrides == [] && ledger.pendingMutations == []
      ensures ledger.managed == old(ledger.managed) && ledger.overrides == old(ledger.overrides)
      ensures o.Done? ==> o.value == ledger && ledger.revision == old(ledger.revision) + 1 && NoRepeats(ledger.skills)
      ensures o.Done? ==> input.expectedRevision == old(ledger.revision)
      ensures o.Done? ==> ledger.skills == if input.skills.Some? then input.skills.value else old(ledger.skills)
      ensures o.Done? ==> ledger.sharedEnabled == if input.sharedEnabled.Some? then input.sharedEnabled.value else old(ledger.sharedEnabled)
      ensures o.Failed? ==> ledger == old(ledger)
      ensures steady && CanStage(old(ledger), input) ==> o.Done?
    {
      hide Lawful, Replay;
      var current :- Read();
      if input.expectedRevision != current.revision { return Failed(Conflict); }
      var skills := if input.skills.Some? then input.skills.value else current.skills;
      if |skills| > MAX_SKILLS || !NoRepeats(skills) { return Failed(InvalidRequest); }
      var next := current.(
        revision := current.revision + 1,
        sharedEnabled := if input.sharedEnabled.Some? then input.sharedEnabled.value else current.sharedEnabled,
        skills := skills,
        synced := false,
        failures := {});
      var _ :- Write(next, Staging(next.sharedEnabled, skills));
      return Done(next);
    }

    method FinishMaterialization(expectedRevision: nat, managed: set<Key>, overrides: set<Key>, failures: set<Failure>)
      returns (o: Outcome<bool>)
      requires Valid() && ledger.pendingOverrides == [] && managed !! overrides
      requires forall i :: i in ledger.pendingMutations ==>
        i.key !in overrides && (i.desired <==> i.key !in managed)
      modifies this`ledger, this`history
      ensures Valid() && old(history) <= history
      ensures ledger.pendingOverrides == [] && ledger.pendingMutations == old(ledger.pendingMutations)
      ensures ledger == old(ledger)
           || ledger == old(ledger).(synced := failures == {}, failures := failures, managed := managed, overrides := overrides)
      ensures o.Done? ==> (
        && o.value == (failures == {})
        && ledger == old(ledger).(synced := failures == {}, failures := failures, managed := managed, overrides := overrides))
      ensures steady && Readable(old(ledger)) && expectedRevision == old(ledger.revision) ==> (
        |managed| <= MAX_PROVENANCE && |overrides| <= MAX_PROVENANCE ==> o.Done?)
    {
      hide Lawful, Replay;
      var current :- Read();
      if current.revision != expectedRevision { return Failed(Conflict); }
      if |managed| > MAX_PROVENANCE || |overrides| > MAX_PROVENANCE { return Failed(InvalidRequest); }
      var next := current.(synced := failures == {}, failures := failures, managed := managed, overrides := overrides);
      var _ :- Write(next, Closing(managed, overrides, failures));
      return Done(failures == {});
    }

    /** prepareSkillOverride and prepareGlobalSkillMutation: find the key's intent or record a new one. */
    method Prepare(kind: Kind, key: Key, desired: bool, expected: bool) returns (o: Outcome<(Intent, bool)>)
      requires Valid()
      requires kind.Override? ==> ledger.pendingMutations == [] && key !in ledger.overrides
      requires kind.Mutation? ==> ledger.pendingOverrides == []
      requires kind.Mutation? ==> expected == !desired && key !in ledger.overrides && (desired <==> key !in ledger.managed)
      modifies this
      ensures Valid() && old(nextId) <= nextId <= old(nextId) + 1 && old(history) <= history
      ensures ledger == old(ledger) || (ledger == Recorded(old(ledger), Intent(old(nextId), kind, key, desired, expected))
        && forall j :: j in Journal(old(ledger), kind) ==> j.key != key)
      ensures o.Failed? ==> ledger == old(ledger)
      ensures o.Done? && kind.Mutation? ==> kind.revision == ledger.revision
      ensures o.Done? && o.value.1 ==> (
        && ledger == old(ledger) && o.value.0 in Journal(ledger, kind)
        && o.value.0 == Intent(o.value.0.id, kind, key, desired, expected))
      ensures o.Done? && !o.value.1 ==> (
        && o.value.0 == Intent(old(nextId), kind, key, desired, expected)
        && ledger == Recorded(old(ledger), o.value.0))
      ensures steady && old(CanPrepare(ledger, kind, key)) ==> o.Done? && !o.value.1
      ensures steady && kind.Override? && old(Readable(ledger) && AllFor(ledger.pendingOverrides, key, desired, expected)) ==> o.Done?
    {
      hide Lawful, Replay;
      var current :- Read();
      if kind.Mutation? && current.revision != kind.revision { return Failed(Conflict); }
      var journal := Journal(current, kind);
      for n := 0 to |journal|
        invariant forall m | 0 <= m < n :: journal[m].key != key
      {
        assert journal[n] in journal;
        if journal[n].key == key {
          if journal[n].kind != kind || journal[n].desired != desired || journal[n].expected != expected {
            return Failed(Conflict);
          }
          return Done((journal[n], true));
        }
      }
      var i := Intent(nextId, kind, key, desired, expected);
      RecordedConsistent(ledger, i);
      nextId := nextId + 1;
      var _ :- Write(Recorded(current, i), Recording(i));
      return Done((i, false));
    }

    /** commitSkillOverride and commitGlobalSkillMutation. */
    method Commit(i: Intent) returns (o: Outcome<()>)
      requires Valid()
      modifies this`ledger, this`history
      ensures Valid() && old(history) <= history
      ensures ledger == old(ledger) || (i in Journal(old(ledger), i.kind) && ledger == Settled(old(ledger), i))
      ensures o.Done? && i in Journal(old(ledger), i.kind) ==> ledger == Settled(old(ledger), i)
      ensures o.Failed? ==> ledger == old(ledger)
      ensures steady && old(Readable(ledger) && i in Journal(ledger, i.kind)) ==> o.Done?
    {
      hide Lawful, Replay;
      var current :- Read();
      var journal := Journal(current, i.kind);
      for n := 0 to |journal|
        invariant forall m | 0 <= m < n :: journal[m].id != i.id
      {
        var pending := journal[n];
        assert pending in journal;
        if pending.id == i.id {
          if i.kind.Override? {
            if pending != i { return Failed(Conflict); }
          } else if pending.kind != Mutation(current.revision) {
            return Failed(Conflict);
          }
          if i in journal { SameIdSameIntent(journal, pending, i); } else { return Failed(Conflict); }
          SettledConsistent(ledger, i);
          o := Write(Settled(current, i), Settling(i));
          return;
        }
      }
      assert i !in journal;
      if i.kind.Override? && i.key !in current.overrides { return Failed(Conflict); }
      return Done(());
    }

    /** abortSkillOverride and abortGlobalSkillMutation. */
    method Abort(i: Intent) returns (o: Outcome<()>)
      requires Valid()
      modifies this`ledger, this`history
      ensures Valid() && old(history) <= history
      ensures ledger == old(ledger) || ledger == Aborted(old(ledger), i)
      ensures o.Done? ==> ledger == Aborted(old(ledger), i)
      ensures o.Failed? ==> ledger == old(ledger)
      ensures steady && Readable(old(ledger)) ==> o.Done?
    {
      hide Lawful, Replay;
      var current :- Read();
      if forall j :: j in Journal(current, i.kind) ==> j.id != i.id {
        WithoutAbsent(Journal(current, i.kind), i.id);
        return Done(());
      }
      AbortedConsistent(ledger, i);
      o := Write(Aborted(current, i), Aborting(i));
    }
  }

  class HermesSettings {
    var flags: Flags                // the skills Hermes has and whether each is on
    const quiet: bool               // nobody outside Office changes Hermes
    const line: Line
    ghost var sent: seq<Toggle>          // every toggle it was ever asked for
    ghost var listed: seq<seq<string>>   // every list of Profiles it ever gave

    method OutsideStep()
      modifies this`flags
      ensures quiet ==> flags == old(flags)
    {
      if !quiet { flags := *; }
    }

    method ListProfiles() returns (o: Outcome<seq<string>>)
      modifies this`flags, this`listed
      ensures quiet ==> flags == old(flags)
      ensures o.Done? ==> NoRepeats(o.value)
      ensures line.Clear? ==> o.Done?
      ensures listed == old(listed) + if o.Done? then [o.value] else []
    {
      OutsideStep();
      assert NoRepeats(["default"]) && |["default"]| == 1;
      var profiles: seq<string> :| NoRepeats(profiles) && 0 < |profiles| <= MAX_PROFILES;
      if {
        case !line.Clear? => o := Failed(Rejected);
        case !line.Clear? => o := Crashed;
        case true => o, listed := Done(profiles), listed + [profiles];
      }
    }

    /** A listing can miss skills (rows past the 1,000th, unreadable rows) but never misreports one. */
    method ListSkills(profile: string) returns (o: Outcome<Flags>)
      modifies this`flags
      ensures quiet ==> flags == old(flags)
      ensures o.Done? ==> forall k :: k in o.value ==> k in flags && flags[k] == o.value[k] && k.profile == profile
      ensures line.Clear? ==> o.Done? && forall k :: k in flags && k.profile == profile ==> k in o.value
    {
      OutsideStep();
      var missed: set<Key> := *;
      if line.Clear? { missed := {}; }
      if {
        case !line.Clear? => var code: ErrorCode := *; o := Failed(code);
        case !line.Clear? => o := Crashed;
        case true => o := Done(map k | k in flags && k.profile == profile && k !in missed :: flags[k]);
      }
    }

    /** Checks the expected flag, then asks Hermes; an error after that leaves the outcome open. */
    method SetSkillEnabled(key: Key, desired: bool, expected: bool, ghost global: Option<Ledger>) returns (o: Outcome<()>)
      requires Rightful(Toggle(key, desired, global))
      modifies this`flags, this`sent
      ensures sent == old(sent) + [Toggle(key, desired, global)]
      ensures quiet ==> (
        || flags == old(flags)
        || (key in old(flags) && old(flags)[key] == expected && flags == old(flags)[key := desired]))
      ensures quiet && o.Done? ==> key in old(flags) && flags == old(flags)[key := desired]
      ensures quiet && o.Failed? && Definite(o.code) ==> flags == old(flags)
      ensures quiet && key in old(flags) && old(flags)[key] == expected ==>
        (line.Clear? ==> o.Done?) && (line.Mute? ==> o.Failed? && !Definite(o.code))
      ensures quiet && !line.Unreliable? && !(key in old(flags) && old(flags)[key] == expected) ==> o.Failed? && Definite(o.code)
    {
      sent := sent + [Toggle(key, desired, global)];
      OutsideStep();
      if {
        case line.Unreliable? => var code: ErrorCode := *; return Failed(code);
        case line.Unreliable? => return Crashed;
        case true =>
      }
      if key !in flags { return Failed(NotFound); }
      if flags[key] != expected { return Failed(Conflict); }
      OutsideStep();
      if {
        case !line.Mute? => flags := flags[key := desired]; o := Done(());
        case !line.Clear? => flags := flags[key := desired]; o := Failed(TimedOut);
        case !line.Clear? => o := Failed(TimedOut);
        case line.Unreliable? => flags := flags[key := desired]; o := Crashed;
        case line.Unreliable? => var code: ErrorCode := *; o := Failed(code);
        case line.Unreliable? => o := Crashed;
      }
      OutsideStep();
    }
  }

  // ---- One synchronization -----------------------------------------------------------------------

  /** The maps `update` works on. */
  datatype Sync = Sync(managed: set<Key>, overrides: set<Key>, failures: set<Failure>)

  /** What a synchronization started from, and the keys it has dealt with so far. */
  datatype Visit = Visit(quiet: bool, start: World, profiles: seq<string>, desired: seq<string>, touched: set<Key>)

  /** The record in the middle of a synchronization, against its working maps. */
  ghost predicate InStep(v: Visit, l: Ledger, s: Sync) {
    var staged := v.start.ledger;
    && l == staged.(managed := l.managed, pendingMutations := l.pendingMutations) && l.pendingOverrides == []
    && s.managed !! s.overrides && s.managed <= l.managed
    && (forall k :: k in s.managed || k in s.overrides ==> k.profile in v.profiles)
    && (forall i :: i in l.pendingMutations ==>
          i.key in v.touched && i.key !in s.overrides && (i.desired <==> i.key !in s.managed))
    && (forall k: Key :: k.profile in v.profiles && k !in v.touched ==>
          && (k in s.managed <==> k in staged.managed) && (k in l.managed <==> k in staged.managed)
          && (k in s.overrides <==> k in staged.overrides))
  }

  predicate On(flags: Flags, key: Key) {
    key in flags && flags[key]
  }

  /** A flag differs from what it was at the start only where ownership moved with it, or where the
      change is reported as failed. */
  ghost predicate Conserved(start: World, flags: Flags, s: Sync) {
    && flags.Keys == start.flags.Keys
    && (forall k :: k in flags && flags[k] != start.flags[k] ==>
          || Failure(k, flags[k]) in s.failures
          || (flags[k] && k in s.managed && k !in start.ledger.managed)
          || (!flags[k] && k !in s.managed && k in start.ledger.managed))
  }

  /** Every visited pair is in line with the settings or reported. */
  ghost predicate Covered(desired: seq<string>, flags: Flags, s: Sync, visited: set<Key>) {
    && (forall k :: k in visited && k.skill in desired ==>
          k in s.overrides || On(flags, k) || Failure(k, true) in s.failures)
    && (forall k :: k in visited && k in s.managed ==>
          (k.skill in desired && On(flags, k)) || Failure(k, k.skill in desired) in s.failures)
  }

  ghost predicate Kept(v: Visit, listing: Flags, now: World, s: Sync) {
    && InStep(v, now.ledger, s)
    && (v.quiet ==> Conserved(v.start, now.flags, s) && Covered(v.desired, now.flags, s, v.touched))
    && (v.quiet ==> forall k :: k in listing && k !in v.touched ==> k in now.flags && now.flags[k] == listing[k])
  }

  /** Whoever owns these keys, no flag has moved without its ownership, but for pairs with a pending change. */
  ghost predicate OnTrack(v: Visit, w: World, managed: set<Key>) {
    v.quiet ==> Accounted(v.start, w.flags, managed, w.ledger.pendingMutations)
  }

  /** If the process ends here, recovery leaves no orphan. */
  ghost predicate Recoverable(v: Visit, w: World) {
    w.ledger.pendingOverrides == [] && OnTrack(v, w, w.ledger.managed)
  }

  /** The pair that is given up without a call has not been switched on before. */
  lemma TrackedWithoutCall(v: Visit, listing: Flags, w: World, key: Key, s: Sync, s': Sync)
    requires Kept(v, listing, w, s) && OnTrack(v, w, s.managed) && key !in v.touched && key.profile in v.profiles
    requires s'.managed == s.managed || s'.managed == s.managed - {key}
    ensures OnTrack(v, w, s'.managed)
  {
    if v.quiet {
      forall k | k in w.flags && w.flags[k] != v.start.flags[k] && k !in PendingKeys(w.ledger.pendingMutations)
        ensures Moved(v.start.ledger.managed, s'.managed, k, w.flags[k])
      {
        assert Moved(v.start.ledger.managed, s.managed, k, w.flags[k]);
        assert k != key;
      }
    }
  }

  lemma TrackedAfterApply(v: Visit, w: World, w': World, managed: set<Key>, managed': set<Key>, i: Intent)
    requires OnTrack(v, w, managed) && i.kind.Mutation? && (v.quiet ==> i.key in w.flags)
    requires i.desired <==> i.key !in v.start.ledger.managed
    requires forall j :: j in w.ledger.pendingMutations ==> j.id != i.id && j.key != i.key
    requires v.quiet ==> w' == w || CutAfterIntent(w, i, w')
    requires forall k :: k != i.key ==> (k in managed' <==> k in managed)
    requires (w' == w ==> managed' == managed) && (w' == Completion(w, i) ==> (i.key in managed' <==> i.desired))
    ensures OnTrack(v, w', managed')
  {
    hide Accounted, CutAfterIntent, Completion;
    if v.quiet { AppliedAccounted(v.start, w, w', managed, managed', i); }
  }

  function Reassigned(managed: set<Key>, i: Intent): set<Key> {
    if i.desired then managed + {i.key} else managed - {i.key}
  }

  /** The attempt to change a pair, wherever it was cut. */
  lemma TrackedAttempt(v: Visit, w: World, w': World, s: Sync, s': Sync, i: Intent, done: bool, crashed: bool)
    requires Recoverable(v, w) && OnTrack(v, w, s.managed) && i.kind.Mutation? && (v.quiet ==> i.key in w.flags)
    requires (i.key in w.ledger.managed <==> !i.desired) && (i.key in s.managed <==> !i.desired)
    requires i.desired <==> i.key !in v.start.ledger.managed
    requires forall j :: j in w.ledger.pendingMutations ==> j.id != i.id && j.key != i.key
    requires w'.ledger.pendingOverrides == [] && (v.quiet ==> w' == w || CutAfterIntent(w, i, w'))
    requires done ==> w'.ledger == Settled(Recorded(w.ledger, i), i)
    requires !done && !crashed ==> w'.ledger == w.ledger || w'.ledger == Recorded(w.ledger, i)
    requires s'.managed == if done then Reassigned(s.managed, i) else s.managed
    ensures Recoverable(v, w') && (!crashed ==> OnTrack(v, w', s'.managed))
  {
    hide Accounted, WithoutId;
    assert Settled(Recorded(w.ledger, i), i).managed == Reassigned(w.ledger.managed, i);
    if v.quiet {
      TrackedAfterApply(v, w, w', w.ledger.managed, w'.ledger.managed, i);
      if !crashed { TrackedAfterApply(v, w, w', s.managed, s'.managed, i); }
    }
  }

  // ---- A synchronization that nothing gets in the way of -----------------------------------------

  predicate Wanted(v: Visit, k: Key) {
    k.profile in v.profiles && k.skill in v.desired
  }

  /** Wanted, off, and nobody's. */
  predicate TurnsOn(v: Visit, k: Key) {
    && Wanted(v, k) && k !in v.start.ledger.overrides && k !in v.start.ledger.managed
    && k in v.start.flags && !v.start.flags[k]
  }

  /** Owned, on, and not wanted any more. */
  predicate TurnsOff(v: Visit, k: Key) {
    k.profile in v.profiles && k.skill !in v.desired && k in v.start.ledger.managed && On(v.start.flags, k)
  }

  /** Owned and wanted, but switched off by somebody else. */
  predicate TakenBack(v: Visit, k: Key) {
    Wanted(v, k) && k in v.start.ledger.managed && k in v.start.flags && !v.start.flags[k]
  }

  predicate Missing(v: Visit, k: Key) {
    Wanted(v, k) && k !in v.start.ledger.overrides && k !in v.start.flags
  }

  predicate OnNow(v: Visit, k: Key) {
    (k in v.touched && TurnsOn(v, k)) || (On(v.start.flags, k) && !(k in v.touched && TurnsOff(v, k)))
  }

  /** Exactly this has happened to the pairs that were dealt with, and nothing to the others. */
  ghost predicate Smooth(v: Visit, now: World, s: Sync) {
    now.ledger.pendingMutations == [] && now.flags.Keys == v.start.flags.Keys && forall k :: SmoothAt(v, now, s, k)
  }

  predicate SmoothAt(v: Visit, now: World, s: Sync, k: Key) {
    && (k in now.flags ==> now.flags[k] == OnNow(v, k))
    && (k in now.ledger.managed <==>
          (k in v.touched && TurnsOn(v, k)) || (k in v.start.ledger.managed && !(k in v.touched && TurnsOff(v, k))))
    && (k in s.managed <==>
          || (k in v.touched && TurnsOn(v, k))
          || (k in v.start.ledger.managed && k.profile in v.profiles
              && (k in v.touched ==> k.skill in v.desired && !TakenBack(v, k))))
    && (k in s.overrides <==>
          k.profile in v.profiles && (k in v.start.ledger.overrides || (k in v.touched && TakenBack(v, k))))
    && (Failure(k, true) in s.failures <==> k in v.touched && Missing(v, k)) && Failure(k, false) !in s.failures
  }

  /** Dealing with one pair changes nothing for another. */
  lemma SmoothElsewhere(v: Visit, w: World, w': World, s: Sync, s': Sync, key: Key, k: Key)
    requires SmoothAt(v, w, s, k) && k != key
    requires k in w.flags <==> k in w'.flags
    requires k in w.flags ==> w'.flags[k] == w.flags[k]
    requires (k in w'.ledger.managed <==> k in w.ledger.managed) && (k in s'.managed <==> k in s.managed)
    requires k in s'.overrides <==> k in s.overrides
    requires forall enable :: Failure(k, enable) in s'.failures <==> Failure(k, enable) in s.failures
    ensures SmoothAt(v.(touched := v.touched + {key}), w', s', k)
  {
  }

  function Pairs(profiles: seq<string>, desired: seq<string>): set<Key> {
    set p, skill | p in profiles && skill in desired :: Key(p, skill)
  }

  /** What is owned, wanted or taken back stays within what the store can hold. */
  predicate Holds(l: Ledger, profiles: seq<string>, desired: seq<string>) {
    && Readable(l) && |l.managed + Pairs(profiles, desired)| <= MAX_PROVENANCE && |l.overrides + l.managed| <= MAX_PROVENANCE
  }

  /** The listing has every skill of the Profile. */
  predicate Complete(v: Visit, listing: Flags, profile: string) {
    forall k :: k in v.start.flags && k.profile == profile ==> k in listing
  }

  ghost predicate Easy(v: Visit, w: World, s: Sync) {
    v.quiet && Smooth(v, w, s) && Holds(v.start.ledger, v.profiles, v.desired)
  }

  /** With the skills of a Profile in hand. */
  ghost predicate Eased(v: Visit, listing: Flags, w: World, s: Sync, profile: string) {
    Easy(v, w, s) && Complete(v, listing, profile) && forall k :: k in listing ==> k in w.flags
  }

  /** Nothing is in the way of a change of the global sync. */
  predicate Changeable(w: World, revision: nat, key: Key, desired: bool) {
    && Readable(w.ledger) && w.ledger.pendingMutations == [] && w.ledger.revision == revision
    && key in w.flags && w.flags[key] == !desired
  }

  lemma StagedHolds(l: Ledger, staged: Ledger, profiles: seq<string>)
    requires staged.managed == l.managed && staged.overrides == l.overrides
    requires staged.pendingOverrides == [] && staged.pendingMutations == []
    ensures Holds(l, profiles, Desired(staged)) ==> Holds(staged, profiles, Desired(staged))
  {
  }

  lemma FirstReadable(l: Ledger, i: Intent)
    requires i.kind.Mutation?
    ensures Readable(l) && l.pendingMutations == [] ==> Readable(Recorded(l, i))
  {
  }

  /** What the coordinator needs to know before a change of such a pair. */
  lemma EasyReady(v: Visit, listing: Flags, w: World, key: Key, s: Sync)
    requires Eased(v, listing, w, s, key.profile) && Kept(v, listing, w, s) && key !in v.touched && key.profile in v.profiles
    requires key in listing && key !in s.overrides
    ensures Readable(w.ledger) && w.ledger.pendingMutations == [] && key in w.flags && w.flags[key] == listing[key]
    ensures Wanted(v, key) && key !in s.managed && !listing[key] ==> TurnsOn(v, key)
    ensures !Wanted(v, key) && key in s.managed && listing[key] ==> TurnsOff(v, key)
  {
    SmoothReadable(v, w, s);
    assert SmoothAt(v, w, s, key);
  }

  lemma EasyListed(v: Visit, listing: Flags, w: World, w': World, s: Sync, profile: string)
    requires Easy(v, w, s) && w' == w
    requires forall k :: k in listing ==> k in w'.flags
    requires forall k :: k in w'.flags && k.profile == profile ==> k in listing
    ensures Eased(v, listing, w', s, profile)
  {
  }

  lemma EasedOn(v: Visit, v': Visit, listing: Flags, w: World, w': World, s: Sync, s': Sync, profile: string)
    requires Eased(v, listing, w, s, profile) && v' == v.(touched := v'.touched) && Smooth(v', w', s')
    ensures Eased(v', listing, w', s', profile)
  {
  }

  /** All of it has happened. */
  ghost predicate Ideal(v: Visit, w: World) {
    && w.ledger.pendingMutations == [] && w.flags.Keys == v.start.flags.Keys
    && (forall k :: k in w.flags ==> w.flags[k] == (TurnsOn(v, k) || (On(v.start.flags, k) && !TurnsOff(v, k))))
    && (forall k :: k in w.ledger.managed <==>
          k.profile in v.profiles && (TurnsOn(v, k) || (k in v.start.ledger.managed && k.skill in v.desired && !TakenBack(v, k))))
    && (forall k :: k in w.ledger.overrides <==> k.profile in v.profiles && (k in v.start.ledger.overrides || TakenBack(v, k)))
    && (forall k :: Failure(k, false) !in w.ledger.failures && (Failure(k, true) in w.ledger.failures <==> Missing(v, k)))
  }

  function ClosedWith(l: Ledger, s: Sync): Ledger {
    l.(synced := s.failures == {}, failures := s.failures, managed := s.managed, overrides := s.overrides)
  }

  lemma SmoothAtEnd(v: Visit, w: World, w': World, s: Sync)
    requires Smooth(v, w, s) && VisitedUpTo(v, s, |v.profiles|)
    requires w' == World(ClosedWith(w.ledger, s), w.flags)
    ensures Ideal(v, w')
  {
    AllVisited(v, s);
    forall k
      ensures SmoothAt(v, w, s, k) && (Wanted(v, k) ==> k in v.touched)
      ensures Failure(k, false) !in s.failures && (Failure(k, true) in s.failures <==> Missing(v, k))
      ensures k in v.start.ledger.managed && k.profile in v.profiles && k.skill !in v.desired ==> k in v.touched
    {
      assert SmoothAt(v, w, s, k) && k == Key(k.profile, k.skill);
    }
  }

  lemma EasyAtEnd(v: Visit, w: World, s: Sync)
    requires Easy(v, w, s) && Kept(v, map[], w, s)
    ensures Readable(w.ledger) && |s.managed| <= MAX_PROVENANCE && |s.overrides| <= MAX_PROVENANCE
  {
    SmoothReadable(v, w, s);
  }

  lemma EasyEnd(v: Visit, w: World, w': World, s: Sync)
    requires Easy(v, w, s) && VisitedUpTo(v, s, |v.profiles|)
    requires w' == World(ClosedWith(w.ledger, s), w.flags)
    ensures Ideal(v, w')
  {
    SmoothAtEnd(v, w, w', s);
  }

  lemma EasyAtStart(v: Visit, w: World, s: Sync)
    requires v.start == w && v.quiet && v.touched == {} && w.ledger.pendingMutations == [] && s.failures == {}
    requires s.managed == set k | k in w.ledger.managed && k.profile in v.profiles
    requires s.overrides == set k | k in w.ledger.overrides && k.profile in v.profiles
    requires Holds(w.ledger, v.profiles, v.desired)
    ensures Easy(v, w, s)
  {
  }

  /** Which settings a synchronization starts from makes no difference to that. */
  lemma IdealFrom(v: Visit, start: World, w: World)
    requires Ideal(v, w) && start.flags == v.start.flags
    requires start.ledger.managed == v.start.ledger.managed && start.ledger.overrides == v.start.ledger.overrides
    ensures Ideal(Visit(true, start, v.profiles, v.desired, {}), w)
  {
  }

  /** Put in words: every wanted skill that is there and not taken over is on; what was on already is not claimed;
      what is owned and not wanted is off and given up; and nothing else was touched. */
  lemma IdealMeans(v: Visit, w: World, k: Key)
    requires Ideal(v, w) && v.start.ledger.managed !! v.start.ledger.overrides
    ensures Wanted(v, k) && k in w.flags ==> w.flags[k] || k in w.ledger.overrides
    ensures Wanted(v, k) && k in w.flags && k !in v.start.ledger.managed && k !in v.start.ledger.overrides ==>
      (k in w.ledger.managed <==> !v.start.flags[k])
    ensures k.profile in v.profiles && k.skill !in v.desired && k in v.start.ledger.managed ==>
      k !in w.ledger.managed && !On(w.flags, k)
    ensures !Wanted(v, k) && k !in v.start.ledger.managed ==> k !in w.ledger.managed && On(w.flags, k) == On(v.start.flags, k)
    ensures w.ledger.failures == {} <==> forall j :: !Missing(v, j)
  {
    assert forall j :: Missing(v, j) ==> Failure(j, true) in w.ledger.failures;
    forall f | f in w.ledger.failures ensures Missing(v, f.key) { assert f == Failure(f.key, f.enable); }
    if w.ledger.failures != {} {
      var f :| f in w.ledger.failures;
      assert Missing(v, f.key);
    }
  }

  lemma SmoothReadable(v: Visit, now: World, s: Sync)
    requires Smooth(v, now, s) && Holds(v.start.ledger, v.profiles, v.desired)
    requires now.ledger == v.start.ledger.(managed := now.ledger.managed, pendingMutations := [])
    ensures Readable(now.ledger) && |s.managed| <= MAX_PROVENANCE && |s.overrides| <= MAX_PROVENANCE
  {
    var l := v.start.ledger;
    var bound := l.managed + Pairs(v.profiles, v.desired);
    forall k | k in now.ledger.managed || k in s.managed ensures k in bound {
      assert SmoothAt(v, now, s, k);
      assert TurnsOn(v, k) ==> k == Key(k.profile, k.skill) && k in Pairs(v.profiles, v.desired);
    }
    SubsetSize(now.ledger.managed, bound);
    SubsetSize(s.managed, bound);
    forall k | k in s.overrides ensures k in l.overrides + l.managed { assert SmoothAt(v, now, s, k); }
    SubsetSize(s.overrides, l.overrides + l.managed);
  }

  /** A pair that needs no call. */
  lemma SmoothWithoutCall(v: Visit, listing: Flags, w: World, key: Key, s: Sync)
    requires Kept(v, listing, w, s) && Smooth(v, w, s) && v.quiet && key !in v.touched && Wanted(v, key)
    requires Complete(v, listing, key.profile) && forall k :: k in listing ==> k in w.flags
    requires key in s.overrides || key !in listing || key in s.managed || listing[key]
    ensures var s' :=
        if key in s.overrides then s.(managed := s.managed - {key})
        else if key !in listing then s.(failures := s.failures + {Failure(key, true)})
        else if key !in s.managed || listing[key] then s
        else s.(managed := s.managed - {key}, overrides := s.overrides + {key});
      Smooth(v.(touched := v.touched + {key}), w, s')
  {
    var s' :=
      if key in s.overrides then s.(managed := s.managed - {key})
      else if key !in listing then s.(failures := s.failures + {Failure(key, true)})
      else if key !in s.managed || listing[key] then s
      else s.(managed := s.managed - {key}, overrides := s.overrides + {key});
    KeptAt(v, listing, w, key, s);
    hide Kept;
    forall k ensures SmoothAt(v.(touched := v.touched + {key}), w, s', k) {
      assert SmoothAt(v, w, s, k);
      if k != key { SmoothElsewhere(v, w, w, s, s', key, k); }
    }
  }

  /** A pair that has not been dealt with is as the listing has it. */
  lemma KeptAt(v: Visit, listing: Flags, w: World, key: Key, s: Sync)
    requires Kept(v, listing, w, s) && Smooth(v, w, s) && v.quiet && key !in v.touched && Complete(v, listing, key.profile)
    requires forall k :: k in listing ==> k in w.flags
    ensures key in listing <==> key in v.start.flags
    ensures key in listing ==> key in w.flags && w.flags[key] == listing[key] && v.start.flags[key] == listing[key]
    ensures key !in v.start.ledger.overrides || key !in v.start.ledger.managed || key.profile !in v.profiles
  {
    assert SmoothAt(v, w, s, key);
  }

  lemma SmoothGivenUp(v: Visit, listing: Flags, w: World, key: Key, s: Sync)
    requires Kept(v, listing, w, s) && Smooth(v, w, s) && v.quiet && key !in v.touched && key in s.managed && key.skill !in v.desired
    requires Complete(v, listing, key.profile) && forall k :: k in listing ==> k in w.flags
    requires key !in listing || !listing[key]
    ensures Smooth(v.(touched := v.touched + {key}), w, s.(managed := s.managed - {key}))
  {
    var s' := s.(managed := s.managed - {key});
    KeptAt(v, listing, w, key, s);
    hide Kept;
    forall k ensures SmoothAt(v.(touched := v.touched + {key}), w, s', k) {
      assert SmoothAt(v, w, s, k);
      if k != key { SmoothElsewhere(v, w, w, s, s', key, k); }
    }
  }

  /** A pair that was changed. */
  lemma SmoothAfterApply(v: Visit, w: World, w': World, s: Sync, s': Sync, i: Intent)
    requires Smooth(v, w, s) && i.key !in v.touched && i.kind.Mutation? && i.key in w.flags
    requires if i.desired then TurnsOn(v, i.key) else TurnsOff(v, i.key)
    requires forall j :: j in w.ledger.pendingMutations ==> j.id != i.id
    requires w' == Completion(w, i) && s' == s.(managed := Reassigned(s.managed, i))
    ensures Smooth(v.(touched := v.touched + {i.key}), w', s')
  {
    RecordedThenSettled(w.ledger, i);
    assert w'.flags == w.flags[i.key := i.desired] && w'.flags.Keys == w.flags.Keys;
    assert w'.ledger.managed == Reassigned(w.ledger.managed, i) && w'.ledger.pendingMutations == [];
    hide WithoutId, Completion;
    forall k ensures SmoothAt(v.(touched := v.touched + {i.key}), w', s', k) {
      assert SmoothAt(v, w, s, k);
      if k != i.key { SmoothElsewhere(v, w, w', s, s', i.key, k); }
    }
  }

  function Desired(l: Ledger): seq<string> {
    if l.sharedEnabled then l.skills else []
  }

  /** The skills that are wanted once these settings are in force. */
  function DesiredBy(l: Ledger, input: Settings): seq<string> {
    if (if input.sharedEnabled.Some? then input.sharedEnabled.value else l.sharedEnabled)
    then (if input.skills.Some? then input.skills.value else l.skills)
    else []
  }

  /** What a finished synchronization owes: every listed Profile has every desired skill on, or has taken
      it over, or is reported; and Office owns nothing else that is not reported. */
  ghost predicate InLine(w: World, profiles: seq<string>) {
    && (forall p, skill :: p in profiles && skill in Desired(w.ledger) ==>
          || Key(p, skill) in w.ledger.overrides
          || On(w.flags, Key(p, skill))
          || Failure(Key(p, skill), true) in w.ledger.failures)
    && (forall k :: k in w.ledger.managed ==>
          || (k.profile in profiles && k.skill in Desired(w.ledger) && On(w.flags, k))
          || Failure(k, k.skill in Desired(w.ledger)) in w.ledger.failures)
  }

  /** The record after a synchronization: only ownership, the journal of global changes and the outcome moved. */
  function Closed(staged: Ledger, l: Ledger): Ledger {
    staged.(managed := l.managed, overrides := l.overrides, pendingMutations := l.pendingMutations,
            synced := l.synced, failures := l.failures)
  }

  function Owned(l: Ledger): Sync {
    Sync(l.managed, l.overrides, l.failures)
  }

  /** What one Profile adds to the keys dealt with. */
  ghost predicate Visited(v: Visit, v': Visit, desired: seq<string>, profile: string, s: Sync, s': Sync) {
    && v.touched <= v'.touched
    && (forall k :: k in v'.touched ==> k in v.touched || k.profile == profile)
    && (forall skill :: skill in desired ==> Key(profile, skill) in v'.touched)
    && (forall k :: k in s'.managed ==> if k.profile == profile then k in v'.touched else k in s.managed)
  }

  /** Dealing with one pair by applying an intent keeps the synchronization in step, however the attempt
      ended short of a crash. */
  lemma KeptAfterApply(v: Visit, listing: Flags, w: World, w': World, s: Sync, s': Sync, i: Intent, done: bool)
    requires Kept(v, listing, w, s) && i.key !in v.touched && i.key.profile in v.profiles
    requires i.key !in s.overrides && (i.desired <==> i.key !in s.managed) && (i.desired <==> i.key.skill in v.desired)
    requires s' == if !done then s.(failures := s.failures + {Failure(i.key, i.desired)})
                   else s.(managed := if i.desired then s.managed + {i.key} else s.managed - {i.key})
    requires done ==> (
      && w'.ledger == w.ledger.(managed := if i.desired then w.ledger.managed + {i.key} else w.ledger.managed - {i.key}))
    requires !done ==> w'.ledger == w.ledger || (i.kind.Mutation? && w'.ledger == Recorded(w.ledger, i))
    requires v.quiet ==> w'.flags == w.flags || (i.key in w.flags && w'.flags == w.flags[i.key := i.desired])
    requires v.quiet && done ==> i.key in w.flags && w'.flags == w.flags[i.key := i.desired]
    ensures Kept(v.(touched := v.touched + {i.key}), listing, w', s')
  {
    var v' := v.(touched := v.touched + {i.key});
    assert InStep(v', w'.ledger, s');
    if v.quiet {
      assert w'.flags.Keys == w.flags.Keys by {
        if i.key in w.flags { assert w.flags[i.key := i.desired].Keys == w.flags.Keys; }
      }
      assert Conserved(v.start, w'.flags, s');
    }
  }

  /** What one turn of ReconcileJournal's loop does to the journal and to where recovery is heading. */
  lemma NextIntent(w: World, kind: Kind, flags: Flags)
    requires Consistent(w.ledger) && Journal(w.ledger, kind) != []
    ensures var i := Journal(w.ledger, kind)[0];
      && i in Journal(w.ledger, i.kind) && Settled(w.ledger, i).revision == w.ledger.revision
      && Journal(Settled(w.ledger, i), kind) == Journal(w.ledger, kind)[1..]
      && (kind.Override? ==> Settled(w.ledger, i).pendingMutations == w.ledger.pendingMutations)
      && (kind.Mutation? ==> Settled(w.ledger, i).pendingOverrides == w.ledger.pendingOverrides)
      && SettleAll(World(Settled(w.ledger, i), flags), Journal(w.ledger, kind)[1..]).ledger
         == SettleAll(World(w.ledger, flags), Journal(w.ledger, kind)).ledger
      && Recover(World(w.ledger, w.flags[i.key := i.desired]), kind) == Recover(w, kind)
      && Recover(Settle(w, i), kind) == Recover(w, kind)
  {
    var i := Journal(w.ledger, kind)[0];
    OldestIntent(w.ledger, kind);
    StillRecovers(w, kind, i, Settle(w, i));
    StillRecovers(w, kind, i, World(w.ledger, w.flags[i.key := i.desired]));
    SettleAllLedger(Settled(w.ledger, i), flags, flags[i.key := i.desired], Journal(w.ledger, kind)[1..]);
  }

  /** Hermes has the skill, before or after the change. */
  predicate Agrees(flags: Flags, i: Intent) {
    i.key in flags && (flags[i.key] == i.desired || flags[i.key] == i.expected)
  }

  /** Nothing is in the way of reconciling the journal. */
  ghost predicate Reconcilable(w: World, kind: Kind) {
    var journal := Journal(w.ledger, kind);
    && Readable(w.ledger) && (forall i :: i in journal ==> Agrees(w.flags, i))
    && |w.ledger.managed + PendingKeys(journal)| <= MAX_PROVENANCE && |w.ledger.overrides + PendingKeys(journal)| <= MAX_PROVENANCE
  }

  lemma ReconcilableReadable(w: World, kind: Kind)
    requires Reconcilable(w, kind)
    ensures Readable(w.ledger) && forall i :: i in Journal(w.ledger, kind) ==> Agrees(w.flags, i)
    ensures Journal(w.ledger, kind) != [] ==> Agrees(w.flags, Journal(w.ledger, kind)[0])
  {
  }

  lemma SettledSettings(l: Ledger, i: Intent)
    ensures Settled(l, i).skills == l.skills && Settled(l, i).sharedEnabled == l.sharedEnabled
  {
  }

  lemma NextReconcilable(w: World, kind: Kind)
    requires Consistent(w.ledger) && Reconcilable(w, kind) && Journal(w.ledger, kind) != []
    ensures Reconcilable(Settle(w, Journal(w.ledger, kind)[0]), kind)
  {
    hide *;
    var l, i := w.ledger, Journal(w.ledger, kind)[0];
    SettleIs(w, i);
    ReconcilableReadable(w, kind);
    NextIntent(w, kind, w.flags);
    RestAgrees(l, kind, w.flags);
    SettledWithin(l, i);
    RestPending(Journal(l, kind));
    NextWithin(w, kind, Settle(w, i), i.key);
  }

  lemma SettleIs(w: World, i: Intent)
    ensures Settle(w, i) == World(Settled(w.ledger, i), w.flags[i.key := i.desired])
  {
  }

  lemma NextWithin(w: World, kind: Kind, w': World, key: Key)
    requires Reconcilable(w, kind) && (forall i :: i in Journal(w'.ledger, kind) ==> Agrees(w'.flags, i))
    requires w'.ledger.managed <= w.ledger.managed + {key} && w'.ledger.overrides <= w.ledger.overrides + {key}
    requires key in PendingKeys(Journal(w.ledger, kind)) && PendingKeys(Journal(w'.ledger, kind)) <= PendingKeys(Journal(w.ledger, kind))
    requires |w'.ledger.pendingOverrides| <= |w.ledger.pendingOverrides| && |w'.ledger.pendingMutations| <= |w.ledger.pendingMutations|
    ensures Reconcilable(w', kind)
  {
    var pending, rest := PendingKeys(Journal(w.ledger, kind)), PendingKeys(Journal(w'.ledger, kind));
    hide PendingKeys, Agrees, Journal;
    BothWithin(w.ledger.managed, w'.ledger.managed, pending, rest, key);
    BothWithin(w.ledger.overrides, w'.ledger.overrides, pending, rest, key);
  }

  lemma RestPending(journal: seq<Intent>)
    requires journal != []
    ensures journal[0].key in PendingKeys(journal) && PendingKeys(journal[1..]) <= PendingKeys(journal)
  {
    assert journal[0] in journal && forall i :: i in journal[1..] ==> i in journal;
  }

  lemma RestAgrees(l: Ledger, kind: Kind, flags: Flags)
    requires Consistent(l) && Journal(l, kind) != [] && forall i :: i in Journal(l, kind) ==> Agrees(flags, i)
    ensures var i := Journal(l, kind)[0];
      forall j :: j in Journal(l, kind)[1..] ==> Agrees(flags[i.key := i.desired], j)
  {
    var journal := Journal(l, kind);
    forall j | j in journal[1..] ensures Agrees(flags[journal[0].key := journal[0].desired], j) {
      var n :| 0 <= n < |journal[1..]| && journal[1..][n] == j;
      assert journal[n + 1] == j && j in journal;
    }
  }

  lemma SettledWithin(l: Ledger, i: Intent)
    ensures Settled(l, i).managed <= l.managed + {i.key} && Settled(l, i).overrides <= l.overrides + {i.key}
    ensures Journal(Settled(l, i), i.kind) == WithoutId(Journal(l, i.kind), i.id)
    ensures |Settled(l, i).pendingOverrides| <= |l.pendingOverrides| && |Settled(l, i).pendingMutations| <= |l.pendingMutations|
  {
    WithoutShorter(Journal(l, i.kind), i.id);
    hide WithoutId;
  }

  lemma BothWithin(keys: set<Key>, keys': set<Key>, pending: set<Key>, rest: set<Key>, key: Key)
    requires keys' <= keys + {key} && key in pending && rest <= pending
    ensures |keys'| <= |keys + pending| && |keys' + rest| <= |keys + pending|
  {
    SubsetSize(keys', keys + pending);
    SubsetSize(keys' + rest, keys + pending);
  }

  /** Nothing is in the way of reconciling both. */
  ghost predicate Ready(w: World) {
    Reconcilable(w, Override) && Reconcilable(Recover(w, Override), Mutation(0))
  }

  lemma NothingPendingReady(w: World)
    requires NothingPending(w.ledger) && Readable(w.ledger)
    ensures Ready(w) && Recovered(w) == w
  {
    assert PendingKeys([]) == {};
    assert w.ledger.managed + {} == w.ledger.managed && w.ledger.overrides + {} == w.ledger.overrides;
  }

  /** Every way a user's toggle can end. Over a pair the user has taken over before, Hermes alone may have
      changed; on a pair with a pending intent, that intent is on its way. */
  ghost predicate Left(w: World, i: Intent, left: World) {
    var r := Recover(w, Mutation(0));
    if i.key in r.ledger.overrides then
      Recover(left, Mutation(0)) == r || left == World(r.ledger, r.flags[i.key := i.desired])
    else if !Free(r.ledger, Override, i.key) then
      Recover(left, Mutation(0)) == r || (left.ledger.pendingMutations == [] && Recover(left, Override) == Recover(r, Override))
    else OverrideLeft(w, i, left)
  }

  lemma LeftEarly(w: World, i: Intent, left: World)
    requires Recover(left, Mutation(0)) == Recover(w, Mutation(0))
    ensures Left(w, i, left)
  {
  }

  /** An intent j that was pending before is being reconciled for i. */
  predicate OnItsWay(r: World, j: Intent, i: Intent, left: World) {
    && j in r.ledger.pendingOverrides && j.key == i.key && j.desired == i.desired
    && (left == World(r.ledger, r.flags[i.key := i.desired]) || left == Settle(r, j))
  }

  /** The same, once the global journal is recovered. */
  ghost predicate Taken(r: World, i: Intent, left: World) {
    || left == r
    || (i.key in r.ledger.overrides && left == World(r.ledger, r.flags[i.key := i.desired]))
    || (exists j :: OnItsWay(r, j, i, left))
    || (i.key !in r.ledger.overrides && Free(r.ledger, Override, i.key) && CutAfterIntent(r, i, left))
  }

  lemma TakenLeft(w: World, i: Intent, left: World)
    requires Consistent(w.ledger) && Consistent(Recover(w, Mutation(0)).ledger) && Taken(Recover(w, Mutation(0)), i, left)
    ensures Left(w, i, left)
  {
    var r := Recover(w, Mutation(0));
    RecoverTwice(w, Mutation(0));
    if j :| OnItsWay(r, j, i, left) {
      StillRecovers(r, Override, j, left);
      assert !Free(r.ledger, Override, i.key);
    }
  }

  /** Nothing is in the way of a user's toggle: both sides agree on the pair and no journal has it. */
  ghost predicate CanToggle(w: World, key: Key, expected: bool) {
    && Readable(w.ledger) && w.ledger.pendingMutations == []
    && key !in w.ledger.overrides && Free(w.ledger, Override, key) && key in w.flags && w.flags[key] == expected
  }

  /** Nothing is in the way of a user's toggle of any pair, once the global journal is recovered: both sides agree on
      it, or Hermes has the flag already where it may, and there is room for an intent. */
  ghost predicate Toggleable(r: World, key: Key, desired: bool, expected: bool) {
    && Readable(r.ledger) && key in r.flags
    && (r.flags[key] == expected || (r.flags[key] == desired && (key in r.ledger.overrides || !Free(r.ledger, Override, key))))
    && AllFor(r.ledger.pendingOverrides, key, desired, expected)
    && (key !in r.ledger.overrides && Free(r.ledger, Override, key) ==> |r.ledger.pendingOverrides| < MAX_PENDING_OVERRIDES)
  }

  /** Hermes has no such skill, or its flag is not what the user was shown. */
  ghost predicate Refusable(r: World, key: Key, expected: bool) {
    && Readable(r.ledger) && key !in r.ledger.overrides && Free(r.ledger, Override, key)
    && |r.ledger.pendingOverrides| < MAX_PENDING_OVERRIDES && !(key in r.flags && r.flags[key] == expected)
  }

  lemma SettledOverride(l: Ledger, i: Intent)
    requires Consistent(l) && i in l.pendingOverrides
    ensures var l' := Settled(l, i);
      i.key in l'.overrides && i.key !in l'.managed && l'.pendingMutations == l.pendingMutations && Free(l', Override, i.key)
  {
    WithoutMembers(l.pendingOverrides, i.id);
    forall j | j in l.pendingOverrides && j.key == i.key ensures j == i { SameIdSameIntent(l.pendingOverrides, j, i); }
  }

  lemma OverriddenUnpended(l: Ledger, key: Key)
    requires Consistent(l) && key in l.overrides
    ensures key !in l.managed && Free(l, Override, key)
  {
  }

  /** The same, from what the attempt promises. */
  lemma KeptAttempt(v: Visit, listing: Flags, w: World, w': World, s: Sync, s': Sync, i: Intent, done: bool)
    requires Kept(v, listing, w, s) && i.key !in v.touched && i.key.profile in v.profiles && i.kind.Mutation?
    requires i.key !in s.overrides && (i.desired <==> i.key !in s.managed) && (i.desired <==> i.key.skill in v.desired)
    requires s' == if !done then s.(failures := s.failures + {Failure(i.key, i.desired)})
                   else s.(managed := if i.desired then s.managed + {i.key} else s.managed - {i.key})
    requires done ==> w'.ledger == Settled(Recorded(w.ledger, i), i) && w'.ledger.pendingMutations == w.ledger.pendingMutations
    requires !done ==> w'.ledger == w.ledger || w'.ledger == Recorded(w.ledger, i)
    requires v.quiet ==> i.key in w.flags && (w' == w || CutAfterIntent(w, i, w')) && (done ==> w' == Completion(w, i))
    ensures Kept(v.(touched := v.touched + {i.key}), listing, w', s')
  {
    hide Kept;
    KeptAfterApply(v, listing, w, w', s, s', i, done);
  }

  /** An owned pair that is no longer desired, if it need not be switched off. */
  lemma KeptOwned(v: Visit, listing: Flags, w: World, key: Key, s: Sync)
    requires Kept(v, listing, w, s) && key !in v.touched && key in s.managed && key.skill !in v.desired
    ensures key.profile in v.profiles && key !in s.overrides
    ensures key !in listing || !listing[key] ==> Kept(v.(touched := v.touched + {key}), listing, w, s.(managed := s.managed - {key}))
  {
  }

  /** A desired pair that is taken over, missing, owned, or on already. */
  lemma KeptWithoutCall(v: Visit, listing: Flags, w: World, key: Key, s: Sync)
    requires Kept(v, listing, w, s) && key !in v.touched && key.profile in v.profiles && key.skill in v.desired
    requires key in s.overrides || key !in listing || key in s.managed || listing[key]
    ensures var s' :=
        if key in s.overrides then s.(managed := s.managed - {key})
        else if key !in listing then s.(failures := s.failures + {Failure(key, true)})
        else if key !in s.managed || listing[key] then s
        else s.(managed := s.managed - {key}, overrides := s.overrides + {key});
      Kept(v.(touched := v.touched + {key}), listing, w, s')
  {
  }

  /** What the record owes a pair that is about to be changed. */
  lemma KeptReady(v: Visit, listing: Flags, l: Ledger, flags: Flags, key: Key, s: Sync)
    requires Kept(v, listing, World(l, flags), s) && key !in v.touched && key.profile in v.profiles && key !in s.overrides
    ensures l.pendingOverrides == [] && key !in l.overrides && (key in l.managed <==> key in s.managed)
    ensures key in s.managed <==> key in v.start.ledger.managed
    ensures Free(l, Mutation(0), key) && l.revision == v.start.ledger.revision
    ensures v.quiet && key in listing ==> key in flags
  {
  }

  /** A listing that misreports nothing may be relied on, until it is put away. */
  lemma KeptListed(v: Visit, listing: Flags, w: World, w': World, s: Sync)
    requires Kept(v, map[], w, s) && w'.ledger == w.ledger && (v.quiet ==> w'.flags == w.flags)
    requires forall k :: k in listing ==> k in w'.flags && w'.flags[k] == listing[k]
    ensures Kept(v, listing, w', s)
  {
  }

  lemma KeptUnlisted(v: Visit, listing: Flags, w: World, s: Sync)
    requires Kept(v, listing, w, s)
    ensures Kept(v, map[], w, s)
  {
  }

  /** A Profile whose skills cannot be listed is dealt with by reporting all its pairs. */
  lemma KeptReported(v: Visit, w: World, w': World, s: Sync, s': Sync, missing: set<Key>, owned: set<Key>, profile: string)
    requires Kept(v, map[], w, s) && w'.ledger == w.ledger && (v.quiet ==> w'.flags == w.flags)
    requires missing == (set skill | skill in v.desired :: Key(profile, skill)) && owned == set k | k in s.managed && k.profile == profile
    requires s' == s.(failures := s.failures + (set k | k in missing :: Failure(k, true))
                      + (set k | k in owned && k.skill !in v.desired :: Failure(k, false)))
    ensures Kept(v.(touched := v.touched + missing + owned), map[], w', s')
  {
    assert forall k :: k in owned && k.skill in v.desired ==> k == Key(profile, k.skill) && k in missing;
  }

  lemma NothingMoved(w: World)
    requires w.ledger.pendingMutations == []
    ensures Accounted(w, w.flags, w.ledger.managed, w.ledger.pendingMutations)
  {
  }

  lemma ManagedApart(l: Ledger)
    requires Consistent(l)
    ensures l.managed !! l.overrides
  {
  }

  lemma KeptAtStart(v: Visit, w: World, s: Sync)
    requires v.start == w && v.touched == {} && w.ledger.pendingOverrides == [] && w.ledger.pendingMutations == []
    requires w.ledger.managed !! w.ledger.overrides && s.failures == {}
    requires s.managed == set k | k in w.ledger.managed && k.profile in v.profiles
    requires s.overrides == set k | k in w.ledger.overrides && k.profile in v.profiles
    ensures Kept(v, map[], w, s) && Recoverable(v, w) && OnTrack(v, w, s.managed)
  {
  }

  /** What closing a synchronization has to be given. */
  lemma KeptAtEnd(v: Visit, w: World, s: Sync)
    requires Kept(v, map[], w, s)
    ensures w.ledger.pendingOverrides == [] && s.managed !! s.overrides
    ensures forall i :: i in w.ledger.pendingMutations ==> i.key !in s.overrides && (i.desired <==> i.key !in s.managed)
    ensures w.ledger.revision == v.start.ledger.revision && w.ledger.sharedEnabled == v.start.ledger.sharedEnabled
    ensures w.ledger == Closed(v.start.ledger, w.ledger) && w.ledger.skills == v.start.ledger.skills
  {
  }

  lemma ClosedInLine(v: Visit, w: World, w': World, s: Sync)
    requires Kept(v, map[], w, s) && v.desired == Desired(v.start.ledger)
    requires forall p, skill :: p in v.profiles && skill in v.desired ==> Key(p, skill) in v.touched
    requires forall k :: k in s.managed ==> k in v.touched
    requires w'.ledger == w.ledger.(synced := s.failures == {}, failures := s.failures, managed := s.managed, overrides := s.overrides)
    requires v.quiet && w'.flags == w.flags
    ensures InLine(w', v.profiles) && Conserved(v.start, w'.flags, Owned(w'.ledger))
  {
  }

  /** Closing takes on nothing and gives up no pair that was switched on, so that it leaves no orphan either. */
  lemma ClosedOnTrack(v: Visit, w: World, w': World, s: Sync)
    requires Recoverable(v, w) && OnTrack(v, w, s.managed) && (v.quiet ==> w'.flags == w.flags)
    requires w'.ledger.pendingOverrides == [] && w'.ledger.pendingMutations == w.ledger.pendingMutations
    requires w'.ledger.managed == w.ledger.managed || w'.ledger.managed == s.managed
    ensures Recoverable(v, w')
  {
    hide Accounted;
  }

  lemma NothingToRecover(w: World)
    requires w.ledger.pendingOverrides == []
    ensures Recovered(w) == Recover(w, Mutation(0)) && (w.ledger.pendingMutations == [] ==> Recovered(w) == w)
  {
  }

  lemma Unmoved(w: World)
    ensures NoOrphans(w, w)
  {
  }

  lemma UnmovedFlags(r: World, w: World)
    requires w.flags == r.flags
    ensures NoOrphans(r, w)
  {
  }

  /** Once the journal of toggles is recovered, recovering it again changes nothing. */
  lemma RecoveredOnce(w: World, w': World)
    requires Consistent(w.ledger) && w' == Recover(w, Override)
    ensures w'.ledger.pendingOverrides == [] && Recover(w', Mutation(0)) == Recovered(w)
  {
    RecoverTwice(w, Override);
  }

  lemma StagedConserved(r: World, staged: World, flags: Flags, s: Sync)
    requires staged.ledger.managed == r.ledger.managed && staged.flags == r.flags
    ensures Conserved(staged, flags, s) ==> Conserved(r, flags, s)
  {
  }

  /** From settings that were just staged over the recovered world r. */
  lemma StagedRecovers(r: World, staged: World, left: World)
    requires staged.ledger.managed == r.ledger.managed && staged.flags == r.flags && Consistent(left.ledger)
    requires Accounted(staged, left.flags, left.ledger.managed, left.ledger.pendingMutations) && left.ledger.pendingOverrides == []
    ensures NoOrphans(r, Recovered(left))
  {
    NothingToRecover(left);
    AccountedRecovers(r, left);
  }

  lemma FreeOnceRecovered(w: World, i: Intent)
    requires Free(w.ledger, Override, i.key) && i.key !in Recover(w, Mutation(0)).ledger.overrides && Consistent(w.ledger)
    ensures forall left :: Left(w, i, left) ==> OverrideLeft(w, i, left)
  {
    SettleAllApart(w, w.ledger.pendingMutations, Override);
  }

  /** A user's toggle, once recovered, has taken over its own pair or none. */
  ghost predicate Overtaken(r: World, key: Key, desired: bool, r': World) {
    SameBut(r, r', key) && (r' == r || TakenOver(r', key, desired))
  }

  /** However a user's toggle ended, recovery leaves every other pair as it would have been without it, and
      the pair itself as well, or taken over with the desired flag. */
  lemma LeftElsewhere(w: World, i: Intent, left: World)
    requires Consistent(w.ledger) && Consistent(left.ledger) && Left(w, i, left)
    requires i.kind.Override? && forall j :: j in w.ledger.pendingOverrides ==> j.id != i.id
    ensures Overtaken(Recovered(w), i.key, i.desired, Recovered(left))
  {
    var r := Recover(w, Mutation(0));
    RecoveredEither(w);
    RecoveredEither(left);
    RecoverTwice(w, Mutation(0));
    RecoverConsistent(w, Mutation(0));
    SettleAllApart(w, w.ledger.pendingMutations, Override);
    hide Recover, Recovered, SettleAll, Consistent;
    if Recover(left, Mutation(0)) != r {
      if i.key in r.ledger.overrides {
        OverriddenElsewhere(r, i, left);
      } else if !Free(r.ledger, Override, i.key) {
        NoMutations(left);
      } else {
        OverrideRecoversFrom(w, i, left);
        CompletedOverride(r, i);
      }
    }
  }

  lemma NoMutations(w: World)
    requires w.ledger.pendingMutations == []
    ensures Recover(w, Mutation(0)) == w
  {
  }

  lemma OverriddenElsewhere(r: World, i: Intent, left: World)
    requires Consistent(r.ledger) && r.ledger.pendingMutations == [] && i.key in r.ledger.overrides
    requires left == World(r.ledger, r.flags[i.key := i.desired])
    ensures var rest := Recover(Recover(left, Mutation(0)), Override);
      SameBut(Recover(r, Override), rest, i.key) && TakenOver(rest, i.key, i.desired)
  {
    NoMutations(left);
    OverriddenUnpended(r.ledger, i.key);
    hide Consistent, SettleAll;
    RecoverSameBut(r, left, Override, i.key);
    OtherKeysKept(left, r.ledger.pendingOverrides, i.key);
  }

  lemma OverrideRecoversFrom(w: World, i: Intent, left: World)
    requires Consistent(w.ledger) && Consistent(left.ledger) && OverrideLeft(w, i, left) && i.kind.Override?
    requires Recover(left, Mutation(0)) != Recover(w, Mutation(0))
    requires forall j :: j in w.ledger.pendingOverrides ==> j.id != i.id && j.key != i.key
    ensures Recovered(left) == Recover(Completion(Recover(w, Mutation(0)), i), Override)
  {
    OverrideRecovers(w, i, left);
  }

  // ---- Whole runs --------------------------------------------------------------------------------

  datatype Op = Updating(input: Settings) | Overriding(key: Key, desired: bool, expected: bool) | Elsewhere

  /** How reliable the store and Hermes are. */
  datatype Conditions = Conditions(steady: bool, quiet: bool, line: Line)

  /** One operation of a run: whether it returned normally, the lists of Profiles it was given, what it wrote,
      and what it left. */
  datatype Turn = Turn(op: Op, done: bool, listed: seq<seq<string>>, changes: seq<Change>, after: World)

  /** The settings can be staged, and all that they ask for has happened. */
  ghost predicate BroughtAbout(start: World, input: Settings, t: Turn) {
    CanStage(start.ledger, input) ==> (
      && |t.listed| == 1
      && (Holds(start.ledger, t.listed[0], DesiredBy(start.ledger, input)) ==> (
            && Ideal(Visit(true, start, t.listed[0], DesiredBy(start.ledger, input), {}), t.after)
            && (t.done <==> t.after.ledger.failures == {}))))
  }

  /** What the operations promise of a turn. */
  ghost predicate TurnOf(e: Conditions, w: World, t: Turn) {
    && Lawful(w.ledger, t.changes) && t.after.ledger == Replay(w.ledger, t.changes)
    && match t.op
       case Updating(input) =>
         && (t.done ==>
               && Readable(w.ledger) && t.after.ledger.revision == w.ledger.revision + 1 == input.expectedRevision + 1
               && t.after.ledger.synced && t.after.ledger.failures == {} && t.after.ledger.pendingOverrides == [])
         && (e.steady && CanStage(w.ledger, input) && NothingPending(w.ledger) ==>
               t.after.ledger.revision == w.ledger.revision + 1)
         && (e.quiet && t.done ==> |t.listed| == 1 && InLine(t.after, t.listed[0]))
         && (e.quiet ==> NoOrphans(Recovered(w), Recovered(t.after)))
         && (e.steady && e.quiet && e.line.Clear? ==> BroughtAbout(Recovered(w), input, t) || !Ready(w))
       case Overriding(key, desired, expected) =>
         && (t.done ==> (
               && Readable(w.ledger) && key in t.after.ledger.overrides && key !in t.after.ledger.managed
               && Free(t.after.ledger, Override, key) && Free(t.after.ledger, Mutation(0), key)
               && (e.quiet ==> key in t.after.flags && t.after.flags[key] == desired)))
         && (e.quiet ==> Overtaken(Recovered(w), key, desired, Recovered(t.after)))
         && (e.steady && e.quiet && e.line.Clear? && Reconcilable(w, Mutation(0)) ==>
               (Toggleable(Recover(w, Mutation(0)), key, desired, expected) ==> t.done))
         && (e.steady && e.quiet && CanToggle(w, key, expected) ==>
               && (e.line.Clear? && |w.ledger.pendingOverrides| < MAX_PENDING_OVERRIDES ==> t.done)
               && (e.line.Mute? ==> !t.done && t.after.ledger != w.ledger))
       case Elsewhere => !t.done && t.changes == [] && (e.quiet ==> t.after == w)
  }

  function End(w: World, run: seq<Turn>): World {
    if run == [] then w else run[|run| - 1].after
  }

  ghost predicate Chained(e: Conditions, w: World, run: seq<Turn>) {
    run == [] ||
    (var before := run[..|run| - 1]; Chained(e, w, before) && TurnOf(e, End(w, before), run[|run| - 1]))
  }

  function Writes(run: seq<Turn>): seq<Change> {
    if run == [] then [] else Writes(run[..|run| - 1]) + run[|run| - 1].changes
  }

  function Listings(run: seq<Turn>): seq<seq<string>> {
    if run == [] then [] else Listings(run[..|run| - 1]) + run[|run| - 1].listed
  }

  lemma {:induction false} RunReplays(e: Conditions, w: World, run: seq<Turn>)
    requires Chained(e, w, run)
    ensures Lawful(w.ledger, Writes(run)) && End(w, run).ledger == Replay(w.ledger, Writes(run))
  {
    if run != [] {
      var before := run[..|run| - 1];
      RunReplays(e, w, before);
      hide TurnOf;
      TurnReplays(e, End(w, before), run[|run| - 1]);
      Continued(w.ledger, Writes(before), run[|run| - 1].changes);
    }
  }

  lemma TurnReplays(e: Conditions, w: World, t: Turn)
    requires TurnOf(e, w, t)
    ensures Lawful(w.ledger, t.changes) && t.after.ledger == Replay(w.ledger, t.changes)
  {
  }

  /** Over any run of both operations, each cut short wherever it may be, with restarts and outside changes in
      between, the record is consistent after every single write. */
  lemma RunConsistent(e: Conditions, w: World, run: seq<Turn>, n: nat)
    requires Consistent(w.ledger) && Chained(e, w, run) && n <= |Writes(run)|
    ensures Consistent(Replay(w.ledger, Writes(run)[..n])) && Consistent(End(w, run).ledger)
  {
    RunReplays(e, w, run);
    hide Chained, TurnOf, Lawful, Replay, Writes;
    assert Writes(run) == Writes(run)[..n] + Writes(run)[n..];
    Continued(w.ledger, Writes(run)[..n], Writes(run)[n..]);
    HistoryConsistent(w.ledger, Writes(run)[..n]);
    HistoryConsistent(w.ledger, Writes(run));
  }

  /** A run ends with a record that can be read exactly unless its last write was a prepare that found its
      journal full or a commit that found its provenance list full. */
  lemma RunReadable(e: Conditions, w: World, run: seq<Turn>)
    requires Readable(w.ledger) && Chained(e, w, run)
    ensures var writes := Writes(run);
      Readable(End(w, run).ledger) <==>
        writes == [] || !Overfills(Replay(w.ledger, writes[..|writes| - 1]), writes[|writes| - 1])
  {
    RunReplays(e, w, run);
    HistoryReadable(w.ledger, Writes(run));
  }

  ghost predicate NeverOurs(run: seq<Turn>, key: Key) {
    forall t :: t in run ==> key !in Recovered(t.after).ledger.managed && !(t.op.Overriding? && t.op.key == key)
  }

  predicate SameFlag(a: World, b: World, key: Key) {
    (key in a.flags <==> key in b.flags) && (key in a.flags && key in b.flags ==> a.flags[key] == b.flags[key])
  }

  /** Over any run with nobody outside at work, a skill that Office never comes to own, and no user toggles, keeps
      its flag, once recovered, however often operations were cut short. */
  lemma {:induction false} RunKeepsFlag(e: Conditions, w: World, run: seq<Turn>, key: Key)
    requires e.quiet && Chained(e, w, run) && key !in Recovered(w).ledger.managed && NeverOurs(run, key)
    ensures SameFlag(Recovered(w), Recovered(End(w, run)), key)
    ensures key !in Recovered(End(w, run)).ledger.managed
  {
    hide Recovered, TurnOf;
    if run != [] {
      var before, last := run[..|run| - 1], run[|run| - 1];
      assert run == before + [last];
      assert last in run;
      RunKeepsFlag(e, w, before, key);
      TurnKeepsFlag(e, End(w, before), last, key);
    }
  }

  lemma TurnKeepsFlag(e: Conditions, w: World, t: Turn, key: Key)
    requires e.quiet && TurnOf(e, w, t) && !(t.op.Overriding? && t.op.key == key)
    requires key !in Recovered(w).ledger.managed && key !in Recovered(t.after).ledger.managed
    ensures SameFlag(Recovered(w), Recovered(t.after), key)
  {
    hide Recovered, InLine, CanToggle, CanStage, Lawful, Replay, Readable;
    if t.op.Overriding? { assert SameAt(Recovered(w), Recovered(t.after), key); }
  }

  /** Once the record cannot be read, no operation ever returns normally or writes again. */
  lemma {:induction false} RunUnreadable(e: Conditions, w: World, run: seq<Turn>)
    requires !Readable(w.ledger) && Chained(e, w, run)
    ensures End(w, run).ledger == w.ledger && Writes(run) == [] && forall t :: t in run ==> !t.done
  {
    if run != [] {
      var before := run[..|run| - 1];
      RunUnreadable(e, w, before);
      TurnUnreadable(e, End(w, before), run[|run| - 1]);
      assert run == before + [run[|run| - 1]];
      hide TurnOf;
    }
  }

  lemma TurnUnreadable(e: Conditions, w: World, t: Turn)
    requires TurnOf(e, w, t) && !Readable(w.ledger)
    ensures !t.done && t.changes == [] && t.after.ledger == w.ledger
  {
    if t.changes != [] {
      assert [] + t.changes == t.changes;
      ReadBeforeWrite(w.ledger, [], t.changes);
    }
  }

  /** The first n Profiles are dealt with, and none of the others. */
  ghost predicate VisitedUpTo(v: Visit, s: Sync, n: nat) {
    && n <= |v.profiles|
    && (forall k :: k in v.touched ==> k.profile in v.profiles[..n])
    && (forall p, skill :: p in v.profiles[..n] && skill in v.desired ==> Key(p, skill) in v.touched)
    && (forall k :: k in s.managed ==> k in v.touched || k.profile in v.profiles[n..])
  }

  lemma NoneVisited(v: Visit, w: World, s: Sync)
    requires Kept(v, map[], w, s) && v.touched == {}
    ensures VisitedUpTo(v, s, 0)
  {
    assert v.profiles[0..] == v.profiles;
  }

  lemma NextUnvisited(v: Visit, s: Sync, n: nat)
    requires VisitedUpTo(v, s, n) && n < |v.profiles| && NoRepeats(v.profiles)
    ensures v.profiles[n] in v.profiles && forall k :: k in v.touched ==> k.profile != v.profiles[n]
  {
  }

  lemma OneMoreVisited(v: Visit, v': Visit, s: Sync, s': Sync, n: nat)
    requires VisitedUpTo(v, s, n) && n < |v.profiles| && v' == v.(touched := v'.touched)
    requires Visited(v, v', v.desired, v.profiles[n], s, s')
    ensures VisitedUpTo(v', s', n + 1)
  {
    assert v.profiles[..n + 1] == v.profiles[..n] + [v.profiles[n]];
    assert v.profiles[n..] == [v.profiles[n]] + v.profiles[n + 1..];
  }

  lemma AllVisited(v: Visit, s: Sync)
    requires VisitedUpTo(v, s, |v.profiles|)
    ensures forall p, skill :: p in v.profiles && skill in v.desired ==> Key(p, skill) in v.touched
    ensures forall k :: k in s.managed ==> k in v.touched
  {
    assert v.profiles[..|v.profiles|] == v.profiles;
  }

  class GlobalInheritanceCoordinator {
    const store: OfficeGlobalSettingsStore
    const hermes: HermesSettings

    constructor (store: OfficeGlobalSettingsStore, hermes: HermesSettings)
      requires store.Valid() && hermes.sent == []
      ensures Valid() && this.store == store && this.hermes == hermes
    {
      this.store, this.hermes := store, hermes;
    }

    ghost predicate Valid()
      reads this, store, hermes
    {
      store.Valid() && forall t :: t in hermes.sent ==> Rightful(t)
    }

    ghost function Now(): World
      reads store, hermes
    {
      World(store.ledger, hermes.flags)
    }

    /** Nobody outside is at work, and neither the store nor Hermes fails by itself. */
    predicate Calm() {
      store.steady && hermes.quiet && hermes.line.Clear?
    }

    /** Nothing that was written or asked for is forgotten. */
    twostate predicate Grew()
      reads store, hermes
    {
      old(store.history) <= store.history && old(hermes.sent) <= hermes.sent
    }

    /** The one way a toggle of the global sync goes. */
    method SendGlobalToggle(key: Key, desired: bool, expected: bool) returns (o: Outcome<()>)
      requires Valid() && key !in store.ledger.overrides && (desired <==> key !in store.ledger.managed)
      modifies hermes`flags, hermes`sent
      ensures Valid() && hermes.sent == old(hermes.sent) + [Toggle(key, desired, Some(store.ledger))]
      ensures hermes.quiet ==> (
        || hermes.flags == old(hermes.flags)
        || (key in old(hermes.flags) && hermes.flags == old(hermes.flags)[key := desired]))
      ensures hermes.quiet && o.Done? ==> key in old(hermes.flags) && hermes.flags == old(hermes.flags)[key := desired]
      ensures hermes.quiet && o.Failed? && Definite(o.code) ==> hermes.flags == old(hermes.flags)
      ensures hermes.quiet && hermes.line.Clear? ==> (
        if key in old(hermes.flags) && old(hermes.flags)[key] == expected then o.Done? else o.Failed? && Definite(o.code))
    {
      o := hermes.SetSkillEnabled(key, desired, expected, Some(store.ledger));
    }

    /** A toggle that a user asked for. */
    method SendUserToggle(key: Key, desired: bool, expected: bool) returns (o: Outcome<()>)
      requires Valid()
      modifies hermes`flags, hermes`sent
      ensures Valid() && hermes.sent == old(hermes.sent) + [Toggle(key, desired, None)]
      ensures hermes.quiet ==> (
        || hermes.flags == old(hermes.flags)
        || (key in old(hermes.flags) && hermes.flags == old(hermes.flags)[key := desired]))
      ensures hermes.quiet && o.Done? ==> key in old(hermes.flags) && hermes.flags == old(hermes.flags)[key := desired]
      ensures hermes.quiet && o.Failed? && Definite(o.code) ==> hermes.flags == old(hermes.flags)
      ensures hermes.quiet && key in old(hermes.flags) && old(hermes.flags)[key] == expected ==>
        (hermes.line.Clear? ==> o.Done?) && (hermes.line.Mute? ==> o.Failed? && !Definite(o.code))
      ensures hermes.quiet && !hermes.line.Unreliable? && !(key in old(hermes.flags) && old(hermes.flags)[key] == expected) ==>
        o.Failed? && Definite(o.code)
    {
      o := hermes.SetSkillEnabled(key, desired, expected, None);
    }

    /** reconcilePendingSkillOverride and reconcilePendingGlobalSkillMutation. */
    method Reconcile(i: Intent) returns (o: Outcome<()>)
      requires Valid() && i in Journal(store.ledger, i.kind)
      modifies store`ledger, store`history, hermes`flags, hermes`sent
      ensures Valid() && Grew()
      ensures store.ledger == old(store.ledger) || store.ledger == Settled(old(store.ledger), i)
      ensures o.Done? ==> store.ledger == Settled(old(store.ledger), i)
      ensures o.Failed? ==> store.ledger == old(store.ledger)
      ensures hermes.quiet && o.Done? ==> Now() == Settle(old(Now()), i)
      ensures hermes.quiet ==>
        || Now() == old(Now())
        || Now() == World(old(store.ledger), old(hermes.flags)[i.key := i.desired])
        || Now() == Settle(old(Now()), i)
      ensures Calm() && Readable(old(store.ledger)) && Agrees(old(hermes.flags), i) ==> o.Done?
    {
      hide Lawful, Replay, Rightful, Readable;
      var listed := hermes.ListSkills(i.key.profile);
      if listed.Failed? { return Failed(Rejected); }
      var skills :- listed;
      if i.key !in skills { return Failed(Rejected); }
      if skills[i.key] != i.desired {
        if skills[i.key] != i.expected { return Failed(Conflict); }
        var toggled;
        if i.kind.Mutation? {
          toggled := SendGlobalToggle(i.key, i.desired, i.expected);
        } else {
          toggled := SendUserToggle(i.key, i.desired, i.expected);
        }
        if toggled.Failed? { return Failed(Rejected); }
        var _ :- toggled;
      }
      assert hermes.quiet ==> hermes.flags == old(hermes.flags)[i.key := i.desired];
      var committed := store.Commit(i);
      if committed.Failed? { return Failed(Rejected); }
      return committed;
    }

    /** Reconciles one whole journal, oldest intent first, stopping at the first that cannot be settled.
        Wherever it stops, recovery is heading where it was. */
    method ReconcileJournal(kind: Kind) returns (o: Outcome<()>)
      requires Valid()
      modifies store`ledger, store`history, hermes`flags, hermes`sent
      ensures Valid() && Grew()
      ensures store.ledger.revision == old(store.ledger.revision)
      ensures kind.Override? ==> store.ledger.pendingMutations == old(store.ledger.pendingMutations)
      ensures kind.Mutation? ==> store.ledger.pendingOverrides == old(store.ledger.pendingOverrides)
      ensures o.Done? ==> Journal(store.ledger, kind) == []
      ensures o.Done? ==> store.ledger == old(Recover(Now(), kind)).ledger
      ensures hermes.quiet ==> Recover(Now(), kind) == old(Recover(Now(), kind))
      ensures hermes.quiet && o.Done? ==> Now() == old(Recover(Now(), kind))
      ensures old(Journal(store.ledger, kind)) == [] ==> store.ledger == old(store.ledger) && (hermes.quiet ==> Now() == old(Now()))
      ensures !Readable(old(store.ledger)) ==> !o.Done? && store.ledger == old(store.ledger)
      ensures store.steady && Readable(old(store.ledger)) && old(Journal(store.ledger, kind)) == [] ==> o.Done?
      ensures Calm() && old(Reconcilable(Now(), kind)) ==> o.Done?
      ensures store.ledger.skills == old(store.ledger.skills) && store.ledger.sharedEnabled == old(store.ledger.sharedEnabled)
    {
      hide Lawful, Replay, Settle, SettleAll, Readable, Rightful, IdsBelow, DistinctIntents, Justified;
      hide Reconcilable, Agrees, Consistent, Settled, WithJournal;
      ghost var ready := Calm() && Reconcilable(Now(), kind);
      if ready { ReconcilableReadable(Now(), kind); }
      var state :- store.Read();
      var journal := Journal(state, kind);
      ghost var flags := hermes.flags;
      ghost var goal := SettleAll(World(store.ledger, flags), journal).ledger;
      for n := 0 to |journal|
        invariant Valid() && Grew()
        invariant store.ledger.revision == state.revision
        invariant kind.Override? ==> store.ledger.pendingMutations == state.pendingMutations
        invariant kind.Mutation? ==> store.ledger.pendingOverrides == state.pendingOverrides
        invariant Journal(store.ledger, kind) == journal[n..]
        invariant n == 0 ==> store.ledger == old(store.ledger) && (hermes.quiet ==> Now() == old(Now()))
        invariant SettleAll(World(store.ledger, flags), journal[n..]).ledger == goal
        invariant hermes.quiet ==> Recover(Now(), kind) == old(Recover(Now(), kind))
        invariant ready ==> Reconcilable(Now(), kind)
        invariant store.ledger.skills == state.skills && store.ledger.sharedEnabled == state.sharedEnabled
      {
        if ready { ReconcilableReadable(Now(), kind); NextReconcilable(Now(), kind); }
        SettledSettings(store.ledger, journal[n]);
        NextIntent(Now(), kind, flags);
        assert journal[n..][1..] == journal[n + 1..];
        var _ :- Reconcile(journal[n]);
      }
      assert journal[|journal|..] == [];
      SettleNone(Now());
      SettleNone(World(store.ledger, flags));
      SettleAllLedger(old(store.ledger), flags, old(hermes.flags), journal);
      return Done(());
    }

    /** applyGlobalSkillMutation: record the intent, ask Hermes, commit. */
    method ApplyGlobalSkillMutation(revision: nat, key: Key, desired: bool) returns (o: Outcome<()>, ghost i: Intent)
      requires Valid() && store.ledger.pendingOverrides == [] && key !in store.ledger.overrides
      requires desired <==> key !in store.ledger.managed
      modifies store, hermes`flags, hermes`sent
      ensures Valid() && Grew() && store.nextId >= old(store.nextId) && store.ledger.revision == old(store.ledger.revision)
      ensures store.ledger.pendingOverrides == [] && store.ledger.overrides == old(store.ledger.overrides)
      ensures o.Done? ==> Free(store.ledger, Mutation(revision), key) && (key in store.ledger.managed <==> desired)
      ensures i == Intent(old(store.nextId), Mutation(revision), key, desired, !desired)
      ensures forall j :: j in old(store.ledger.pendingMutations) ==> j.id != i.id
      ensures old(Free(store.ledger, Mutation(revision), key)) ==> (
        || store.ledger == old(store.ledger)
        || store.ledger == Recorded(old(store.ledger), i)
        || (!o.Failed? && store.ledger == Settled(Recorded(old(store.ledger), i), i)))
      ensures old(Free(store.ledger, Mutation(revision), key)) && o.Done? ==> (
        && store.ledger == Settled(Recorded(old(store.ledger), i), i)
        && store.ledger.pendingMutations == old(store.ledger.pendingMutations))
      ensures old(Free(store.ledger, Mutation(revision), key)) && hermes.quiet ==>
        Now() == old(Now()) || CutAfterIntent(old(Now()), i, Now())
      ensures old(Free(store.ledger, Mutation(revision), key)) && hermes.quiet && o.Done? ==>
        key in old(hermes.flags) && Now() == Completion(old(Now()), i)
      ensures Calm() && old(Changeable(Now(), revision, key, desired)) ==> o.Done?
      ensures Calm() && old(Readable(store.ledger) && store.ledger.pendingMutations == []) && store.ledger.revision == revision ==> (
        !(key in old(hermes.flags) && old(hermes.flags)[key] == !desired) ==> o.Failed? && Now() == old(Now()))
    {
      hide Lawful, Replay, Rightful, Readable, DistinctIntents, WithoutId;
      i := Intent(store.nextId, Mutation(revision), key, desired, !desired);
      FirstReadable(store.ledger, i);
      RecordedThenSettled(store.ledger, i);
      var prepared := store.Prepare(Mutation(revision), key, desired, !desired);
      if prepared.Failed? { return Failed(prepared.code), i; }
      if prepared.Crashed? { return Crashed, i; }
      var (intent, existing) := prepared.value;
      if existing {
        WithoutMembers(store.ledger.pendingMutations, intent.id);
        forall j | j in store.ledger.pendingMutations && j.key == key ensures j == intent {
          SameIdSameIntent(store.ledger.pendingMutations, j, intent);
        }
        o := Reconcile(intent);
        return;
      }
      var toggled := SendGlobalToggle(key, desired, !desired);
      if toggled.Crashed? { return Crashed, i; }
      if toggled.Failed? {
        if Definite(toggled.code) {
          var aborted := store.Abort(intent);
          if aborted.Crashed? { return Crashed, i; }
        }
        return Failed(Rejected), i;
      }
      var committed := store.Commit(intent);
      if committed.Failed? { return Failed(Rejected), i; }
      return committed, i;
    }

    /** One desired skill of one listed Profile. */
    method EnableSkill(ghost v: Visit, revision: nat, listing: Flags, key: Key, s: Sync) returns (crashed: bool, s': Sync)
      requires Valid() && v.quiet == hermes.quiet && revision == v.start.ledger.revision && Kept(v, listing, Now(), s) && key !in v.touched
      requires key.profile in v.profiles && key.skill in v.desired
      requires Recoverable(v, Now()) && OnTrack(v, Now(), s.managed)
      modifies store, hermes`flags, hermes`sent
      ensures Valid() && Grew() && store.ledger.revision == old(store.ledger.revision) && Recoverable(v, Now())
      ensures !crashed ==> Kept(v.(touched := v.touched + {key}), listing, Now(), s') && OnTrack(v, Now(), s'.managed)
      ensures !crashed ==> forall k :: k != key ==> (k in s'.managed <==> k in s.managed)
      ensures Calm() && old(Eased(v, listing, Now(), s, key.profile)) ==> (
        !crashed && Smooth(v.(touched := v.touched + {key}), Now(), s'))
    {
      hide Lawful, Replay, Rightful, Consistent, IdsBelow, Kept, Accounted, CutAfterIntent, Completion, Settled, Recorded;
      hide Smooth, Complete, Holds, TurnsOn, TurnsOff;
      TrackedWithoutCall(v, listing, Now(), key, s, s.(managed := s.managed - {key}));
      ghost var eased := Calm() && Eased(v, listing, Now(), s, key.profile);
      if key in s.overrides || key !in listing || key in s.managed || listing[key] {
        KeptWithoutCall(v, listing, Now(), key, s);
        if eased { SmoothWithoutCall(v, listing, Now(), key, s); }
      }
      if key in s.overrides { return false, s.(managed := s.managed - {key}); }
      if key !in listing { return false, s.(failures := s.failures + {Failure(key, true)}); }
      if key in s.managed {
        // A disable from outside is the Profile's own choice: Office gives the pair up.
        return false, if listing[key] then s
          else s.(managed := s.managed - {key}, overrides := s.overrides + {key});
      }
      if listing[key] { return false, s; }
      ghost var before := Now();
      KeptReady(v, listing, store.ledger, hermes.flags, key, s);
      if eased { EasyReady(v, listing, Now(), key, s); }
      var o, i := ApplyGlobalSkillMutation(revision, key, true);
      crashed, s' := o.Crashed?, if o.Done? then s.(managed := s.managed + {key})
        else s.(failures := s.failures + {Failure(key, true)});
      TrackedAttempt(v, before, Now(), s, s', i, o.Done?, crashed);
      if !crashed { KeptAttempt(v, listing, before, Now(), s, s', i, o.Done?); }
      if eased { SmoothAfterApply(v, before, Now(), s, s', i); }
    }

    /** One skill Office owns in a listed Profile and no longer wants. */
    method DisableSkill(ghost v: Visit, revision: nat, listing: Flags, key: Key, s: Sync) returns (crashed: bool, s': Sync)
      requires Valid() && v.quiet == hermes.quiet && revision == v.start.ledger.revision && Kept(v, listing, Now(), s) && key !in v.touched
      requires key in s.managed && key.skill !in v.desired
      requires Recoverable(v, Now()) && OnTrack(v, Now(), s.managed)
      modifies store, hermes`flags, hermes`sent
      ensures Valid() && Grew() && store.ledger.revision == old(store.ledger.revision) && Recoverable(v, Now())
      ensures !crashed ==> Kept(v.(touched := v.touched + {key}), listing, Now(), s') && OnTrack(v, Now(), s'.managed)
      ensures !crashed ==> forall k :: k != key ==> (k in s'.managed <==> k in s.managed)
      ensures Calm() && old(Eased(v, listing, Now(), s, key.profile)) ==> (
        !crashed && Smooth(v.(touched := v.touched + {key}), Now(), s'))
    {
      hide Lawful, Replay, Rightful, Consistent, IdsBelow, Kept, Accounted, CutAfterIntent, Completion, Settled, Recorded;
      hide Smooth, Complete, Holds, TurnsOn, TurnsOff;
      KeptOwned(v, listing, Now(), key, s);
      ghost var eased := Calm() && Eased(v, listing, Now(), s, key.profile);
      if key !in listing || !listing[key] {
        TrackedWithoutCall(v, listing, Now(), key, s, s.(managed := s.managed - {key}));
        if eased { SmoothGivenUp(v, listing, Now(), key, s); }
        return false, s.(managed := s.managed - {key});
      }
      ghost var before := Now();
      KeptReady(v, listing, store.ledger, hermes.flags, key, s);
      if eased { EasyReady(v, listing, Now(), key, s); }
      var o, i := ApplyGlobalSkillMutation(revision, key, false);
      crashed, s' := o.Crashed?, if o.Done? then s.(managed := s.managed - {key})
        else s.(failures := s.failures + {Failure(key, false)});
      TrackedAttempt(v, before, Now(), s, s', i, o.Done?, crashed);
      if !crashed { KeptAttempt(v, listing, before, Now(), s, s', i, o.Done?); }
      if eased { SmoothAfterApply(v, before, Now(), s, s', i); }
    }

    method EnableDesired(ghost v: Visit, revision: nat, listing: Flags, desired: seq<string>, profile: string, s: Sync)
      returns (crashed: bool, s': Sync, ghost v': Visit)
      requires Valid() && v.quiet == hermes.quiet && revision == v.start.ledger.revision
      requires Kept(v, listing, Now(), s) && profile in v.profiles && desired == v.desired && NoRepeats(desired)
      requires Recoverable(v, Now()) && OnTrack(v, Now(), s.managed)
      requires forall k :: k in v.touched ==> k.profile != profile
      modifies store, hermes`flags, hermes`sent
      ensures Valid() && Grew() && store.ledger.revision == old(store.ledger.revision) && Recoverable(v, Now())
      ensures !crashed ==> v' == v.(touched := v'.touched) && Kept(v', listing, Now(), s')
      ensures !crashed ==> OnTrack(v, Now(), s'.managed)
      ensures !crashed ==> v'.touched == v.touched + set skill | skill in desired :: Key(profile, skill)
      ensures !crashed ==> forall k :: k in s'.managed ==> k in s.managed || (k in v'.touched && k.profile == profile)
      ensures Calm() && old(Eased(v, listing, Now(), s, profile)) ==> !crashed && Eased(v', listing, Now(), s', profile)
    {
      hide Lawful, Replay, Rightful, Consistent, IdsBelow, InStep, Conserved, Covered, Accounted, Eased;
      crashed, s', v' := false, s, v;
      ghost var eased := Calm() && Eased(v, listing, Now(), s, profile);
      for n := 0 to |desired|
        invariant Valid() && Grew() && store.ledger.revision == old(store.ledger.revision)
        invariant Recoverable(v, Now()) && OnTrack(v, Now(), s'.managed)
        invariant v' == v.(touched := v'.touched) && Kept(v', listing, Now(), s')
        invariant v'.touched == v.touched + set m | 0 <= m < n :: Key(profile, desired[m])
        invariant forall k :: k in s'.managed ==> k in s.managed || (k in v'.touched && k.profile == profile)
        invariant eased ==> Eased(v', listing, Now(), s', profile)
      {
        var key := Key(profile, desired[n]);
        assert forall m | 0 <= m < n :: desired[m] != desired[n];
        ghost var w, was, sWas := Now(), v', s';
        crashed, s' := EnableSkill(v', revision, listing, key, s');
        if crashed { return; }
        v' := v'.(touched := v'.touched + {key});
        if eased { EasedOn(was, v', listing, w, Now(), sWas, s', profile); }
      }
    }

    method DisableRest(ghost v: Visit, revision: nat, listing: Flags, profile: string, s: Sync, rest: set<Key>)
      returns (crashed: bool, s': Sync, ghost v': Visit)
      requires Valid() && v.quiet == hermes.quiet && revision == v.start.ledger.revision
      requires Kept(v, listing, Now(), s) && rest <= s.managed && rest !! v.touched
      requires Recoverable(v, Now()) && OnTrack(v, Now(), s.managed)
      requires forall k :: k in rest ==> k.profile == profile && k.skill !in v.desired
      modifies store, hermes`flags, hermes`sent
      ensures Valid() && Grew() && store.ledger.revision == old(store.ledger.revision) && Recoverable(v, Now())
      ensures !crashed ==> v' == v.(touched := v.touched + rest) && Kept(v', listing, Now(), s')
      ensures !crashed ==> OnTrack(v, Now(), s'.managed)
      ensures !crashed ==> forall k :: k in s'.managed ==> k in s.managed
      ensures Calm() && old(Eased(v, listing, Now(), s, profile)) ==> !crashed && Eased(v', listing, Now(), s', profile)
    {
      hide Lawful, Replay, Rightful, Consistent, IdsBelow, InStep, Conserved, Covered, Accounted, Eased;
      crashed, s', v' := false, s, v;
      ghost var eased := Calm() && Eased(v, listing, Now(), s, profile);
      var todo := rest;
      while todo != {}
        invariant Valid() && Grew() && store.ledger.revision == old(store.ledger.revision)
        invariant Recoverable(v, Now()) && OnTrack(v, Now(), s'.managed)
        invariant todo <= rest && v' == v.(touched := v.touched + (rest - todo)) && Kept(v', listing, Now(), s')
        invariant todo <= s'.managed && forall k :: k in s'.managed ==> k in s.managed
        invariant eased ==> Eased(v', listing, Now(), s', profile)
        decreases todo
      {
        var key :| key in todo;
        ghost var w, was, sWas := Now(), v', s';
        crashed, s' := DisableSkill(v', revision, listing, key, s');
        if crashed { return; }
        todo := todo - {key};
        assert rest - todo == (rest - (todo + {key})) + {key};
        v' := v'.(touched := v'.touched + {key});
        if eased { EasedOn(was, v', listing, w, Now(), sWas, s', profile); }
        assert v'.touched == v.touched + (rest - todo);
      }
      assert rest - todo == rest;
    }

    /** One Profile of the synchronization: its desired skills, then what Office owns there and no longer wants. */
    method SyncProfile(ghost v: Visit, revision: nat, desired: seq<string>, profile: string, s: Sync)
      returns (crashed: bool, s': Sync, ghost v': Visit)
      requires Valid() && v.quiet == hermes.quiet && revision == v.start.ledger.revision
      requires Kept(v, map[], Now(), s) && profile in v.profiles && desired == v.desired && NoRepeats(desired)
      requires Recoverable(v, Now()) && OnTrack(v, Now(), s.managed)
      requires forall k :: k in v.touched ==> k.profile != profile
      modifies store, hermes`flags, hermes`sent
      ensures Valid() && Grew() && store.ledger.revision == old(store.ledger.revision) && Recoverable(v, Now())
      ensures !crashed ==> v' == v.(touched := v'.touched) && Kept(v', map[], Now(), s')
      ensures !crashed ==> OnTrack(v, Now(), s'.managed)
      ensures !crashed ==> Visited(v, v', desired, profile, s, s')
      ensures Calm() && old(Easy(v, Now(), s)) ==> !crashed && Easy(v', Now(), s')
    {
      hide Lawful, Replay, Rightful, Consistent, IdsBelow, Kept, Accounted, Smooth, Holds, Complete;
      crashed, s', v' := false, s, v;
      ghost var before := Now();
      ghost var easy := Calm() && Easy(v, Now(), s);
      var listed := hermes.ListSkills(profile);
      if listed.Crashed? { return true, s', v'; }
      if listed.Failed? {
        var missing := set skill | skill in desired :: Key(profile, skill);
        var owned := set k | k in s.managed && k.profile == profile;
        s' := s.(failures := s.failures + (set k | k in missing :: Failure(k, true))
                 + (set k | k in owned && k.skill !in desired :: Failure(k, false)));
        KeptReported(v, before, Now(), s, s', missing, owned, profile);
        v' := v.(touched := v.touched + missing + owned);
        return;
      }
      KeptListed(v, listed.value, before, Now(), s);
      if easy { EasyListed(v, listed.value, before, Now(), s, profile); }
      crashed, s', v' := EnableDesired(v, revision, listed.value, desired, profile, s);
      if crashed { return; }
      var rest := set k | k in s'.managed && k.profile == profile && k.skill !in desired;
      forall k | k in s'.managed && k.profile == profile ensures k in v'.touched || k in rest {
        assert k == Key(profile, k.skill);
      }
      crashed, s', v' := DisableRest(v', revision, listed.value, profile, s', rest);
      if !crashed { KeptUnlisted(v', listed.value, Now(), s'); }
    }

    method SyncProfiles(ghost v: Visit, revision: nat, desired: seq<string>, profiles: seq<string>, s: Sync)
      returns (crashed: bool, s': Sync, ghost v': Visit)
      requires Valid() && v.quiet == hermes.quiet && revision == v.start.ledger.revision
      requires Kept(v, map[], Now(), s) && profiles == v.profiles && NoRepeats(profiles)
      requires Recoverable(v, Now()) && OnTrack(v, Now(), s.managed)
      requires desired == v.desired && NoRepeats(desired) && v.touched == {}
      modifies store, hermes`flags, hermes`sent
      ensures Valid() && Grew() && store.ledger.revision == old(store.ledger.revision) && Recoverable(v, Now())
      ensures !crashed ==> v' == v.(touched := v'.touched) && Kept(v', map[], Now(), s')
      ensures !crashed ==> OnTrack(v, Now(), s'.managed)
      ensures !crashed ==> forall p, skill :: p in profiles && skill in desired ==> Key(p, skill) in v'.touched
      ensures !crashed ==> forall k :: k in s'.managed ==> k in v'.touched
      ensures !crashed ==> VisitedUpTo(v', s', |profiles|)
      ensures Calm() && old(Easy(v, Now(), s)) ==> !crashed && Easy(v', Now(), s')
    {
      hide Lawful, Replay, Rightful, Consistent, IdsBelow, Kept, VisitedUpTo, Visited, Accounted, Easy;
      crashed, s', v' := false, s, v;
      ghost var easy := Calm() && Easy(v, Now(), s);
      NoneVisited(v, Now(), s);
      for n := 0 to |profiles|
        invariant Valid() && Grew() && store.ledger.revision == old(store.ledger.revision)
        invariant Recoverable(v, Now()) && OnTrack(v, Now(), s'.managed)
        invariant v' == v.(touched := v'.touched) && Kept(v', map[], Now(), s') && VisitedUpTo(v', s', n)
        invariant easy ==> Easy(v', Now(), s')
      {
        ghost var was, before := v', s';
        NextUnvisited(v', s', n);
        crashed, s', v' := SyncProfile(v', revision, desired, profiles[n], s');
        if crashed { return; }
        OneMoreVisited(was, v', before, s', n);
      }
      AllVisited(v', s');
    }

    /** The end of a synchronization, all Profiles dealt with. */
    method Close(ghost v: Visit, revision: nat, s: Sync) returns (o: Outcome<Ledger>, finished: bool)
      requires Valid() && v.quiet == hermes.quiet && revision == v.start.ledger.revision && v.desired == Desired(v.start.ledger)
      requires Kept(v, map[], Now(), s) && Recoverable(v, Now()) && OnTrack(v, Now(), s.managed)
      requires forall p, skill :: p in v.profiles && skill in v.desired ==> Key(p, skill) in v.touched
      requires forall k :: k in s.managed ==> k in v.touched
      modifies store`ledger, store`history
      ensures Valid() && Grew() && store.ledger.revision == revision && Recoverable(v, Now())
      ensures finished ==> store.ledger == Closed(v.start.ledger, store.ledger)
      ensures hermes.quiet && finished ==> InLine(Now(), v.profiles) && Conserved(v.start, hermes.flags, Owned(store.ledger))
      ensures o.Done? ==> finished && o.value == store.ledger && store.ledger.synced && store.ledger.failures == {}
      ensures Calm() && old(Easy(v, Now(), s)) && VisitedUpTo(v, s, |v.profiles|) ==>
        finished && Ideal(v, Now()) && (o.Done? <==> store.ledger.failures == {})
    {
      hide Lawful, Replay, Rightful, Consistent, IdsBelow, Kept, InLine, Conserved, Accounted, Recoverable, OnTrack, VisitedUpTo, Ideal;
      ghost var before := Now();
      KeptAtEnd(v, before, s);
      ghost var easy := Calm() && Easy(v, Now(), s) && VisitedUpTo(v, s, |v.profiles|);
      if easy { EasyAtEnd(v, Now(), s); }
      hide Easy, Smooth, Holds;
      var closed := store.FinishMaterialization(revision, s.managed, s.overrides, s.failures);
      ClosedOnTrack(v, before, Now(), s);
      if closed.IsFailure() { return closed.PropagateFailure(), false; }
      if hermes.quiet { ClosedInLine(v, before, Now(), s); }
      if easy { EasyEnd(v, before, Now(), s); }
      return if closed.value then Done(store.ledger) else Failed(Rejected), true;
    }

    /** Brings every Profile in line with freshly staged settings and closes the revision. */
    method Materialize(staged: Ledger) returns (o: Outcome<Ledger>, finished: bool, profiles: seq<string>)
      requires Valid() && store.ledger == staged && NoRepeats(staged.skills)
      requires staged.pendingOverrides == [] && staged.pendingMutations == []
      modifies store, hermes
      ensures Valid() && Grew()
      ensures store.ledger.revision == staged.revision && store.ledger.pendingOverrides == []
      ensures finished ==> store.ledger == Closed(staged, store.ledger)
      ensures hermes.quiet ==> Accounted(old(Now()), hermes.flags, store.ledger.managed, store.ledger.pendingMutations)
      ensures old(hermes.listed) <= hermes.listed && (finished ==> hermes.listed == old(hermes.listed) + [profiles])
      ensures hermes.quiet && finished ==> InLine(Now(), profiles)
      ensures hermes.quiet && finished ==> Conserved(old(Now()), hermes.flags, Owned(store.ledger))
      ensures Calm() ==> hermes.listed == old(hermes.listed) + [profiles]
      ensures Calm() && Holds(staged, profiles, Desired(staged)) ==> (
        && finished && Ideal(Visit(true, old(Now()), profiles, Desired(staged), {}), Now())
        && (o.Done? <==> store.ledger.failures == {}))
      ensures o.Done? ==> finished && o.value == store.ledger && store.ledger.synced && store.ledger.failures == {}
    {
      hide Lawful, Replay, Rightful, Consistent, IdsBelow, Kept, InLine, Conserved, Accounted;
      finished, profiles := false, [];
      ManagedApart(staged);
      NothingMoved(Now());
      var listed := hermes.ListProfiles();
      if listed.Crashed? { return Crashed, false, []; }
      if listed.Failed? {
        var reported := store.FinishMaterialization(staged.revision, staged.managed, staged.overrides,
          {Failure(Key("default", "profile-discovery"), true)});
        return if reported.IsFailure() then reported.PropagateFailure() else Failed(Rejected), false, [];
      }
      profiles := listed.value;
      var desired := Desired(staged);
      var s := Sync(set k | k in staged.managed && k.profile in profiles,
                    set k | k in staged.overrides && k.profile in profiles, {});
      ghost var v := Visit(hermes.quiet, World(staged, hermes.flags), profiles, desired, {});
      KeptAtStart(v, Now(), s);
      ghost var start := Now();
      ghost var easy := Calm() && Holds(staged, profiles, desired);
      if easy { EasyAtStart(v, Now(), s); }
      hide Holds, Easy;
      var crashed;
      crashed, s, v := SyncProfiles(v, staged.revision, desired, profiles, s);
      if crashed { return Crashed, false, profiles; }
      o, finished := Close(v, staged.revision, s);
      if easy { IdealFrom(v, start, Now()); }
    }

    /** Settles both journals. */
    method SettleBoth() returns (o: Outcome<()>)
      requires Valid()
      modifies store`ledger, store`history, hermes`flags, hermes`sent
      ensures Valid() && Grew() && store.ledger.revision == old(store.ledger.revision)
      ensures store.ledger.skills == old(store.ledger.skills) && store.ledger.sharedEnabled == old(store.ledger.sharedEnabled)
      ensures !Readable(old(store.ledger)) ==> !o.Done? && store.ledger == old(store.ledger)
      ensures o.Done? ==> NothingPending(store.ledger)
      ensures store.steady && Readable(old(store.ledger)) && old(NothingPending(store.ledger)) ==>
        o.Done? && store.ledger == old(store.ledger)
      ensures hermes.quiet ==> Recovered(Now()) == old(Recovered(Now()))
      ensures hermes.quiet && o.Done? ==> Now() == old(Recovered(Now()))
      ensures Calm() && old(Ready(Now())) ==> o.Done?
    {
      hide Lawful, Replay, Rightful, Consistent, IdsBelow, Recover, Reconcilable, Readable;
      ghost var w := Now();
      o := ReconcileJournal(Override);
      if o.Done? {
        if hermes.quiet { RecoveredOnce(w, Now()); }
        o := ReconcileJournal(Mutation(0));
        NothingToRecover(Now());
      }
    }

    /** Settles both journals, saves the settings, and brings every Profile in line with them. */
    method Update(input: Settings) returns (o: Outcome<Ledger>, finished: bool, profiles: seq<string>)
      requires Valid()
      modifies store, hermes
      ensures Valid() && Grew()
      ensures !Readable(old(store.ledger)) ==> !o.Done? && !finished && store.ledger == old(store.ledger)
      ensures store.steady && CanStage(old(store.ledger), input) && old(NothingPending(store.ledger)) ==>
        store.ledger.revision == old(store.ledger.revision) + 1
      ensures finished ==> store.ledger.revision == old(store.ledger.revision) + 1 == input.expectedRevision + 1
      ensures finished ==> store.ledger.pendingOverrides == []
      ensures finished && input.skills.Some? ==> store.ledger.skills == input.skills.value
      ensures finished && input.sharedEnabled.Some? ==> store.ledger.sharedEnabled == input.sharedEnabled.value
      ensures hermes.quiet ==> NoOrphans(old(Recovered(Now())), Recovered(Now()))
      ensures old(hermes.listed) <= hermes.listed && (finished ==> hermes.listed == old(hermes.listed) + [profiles])
      ensures hermes.quiet && finished ==> InLine(Now(), profiles)
      ensures hermes.quiet && finished ==> Conserved(old(Recovered(Now())), hermes.flags, Owned(store.ledger))
      ensures Calm() && old(Ready(Now())) && CanStage(old(Recovered(Now())).ledger, input) ==> (
        var start := old(Recovered(Now()));
        && hermes.listed == old(hermes.listed) + [profiles]
        && (Holds(start.ledger, profiles, DesiredBy(start.ledger, input)) ==> (
              && finished && Ideal(Visit(true, start, profiles, DesiredBy(start.ledger, input), {}), Now())
              && (o.Done? <==> store.ledger.failures == {}))))
      ensures o.Done? ==> finished && o.value == store.ledger && store.ledger.synced && store.ledger.failures == {}
    {
      hide Lawful, Replay, Rightful, Consistent, IdsBelow, Recover, Accounted, NoOrphans, InLine, Conserved, Ideal, Holds;
      hide Readable, Recovered, Ready;
      ghost var w, r := Now(), Recovered(Now());
      Unmoved(r);
      var settled := SettleBoth();
      if settled.IsFailure() { return settled.PropagateFailure(), false, []; }
      var begun := store.BeginMaterialization(input);
      NothingToRecover(Now());
      ghost var staged := Now();
      if hermes.quiet { UnmovedFlags(r, staged); }
      if begun.IsFailure() { return begun, false, []; }
      o, finished, profiles := Materialize(begun.value);
      if hermes.quiet {
        StagedRecovers(r, staged, Now());
        StagedConserved(r, staged, hermes.flags, Owned(store.ledger));
      }
      if Calm() && Ready(w) && CanStage(r.ledger, input) && Holds(r.ledger, profiles, DesiredBy(r.ledger, input)) {
        StagedHolds(r.ledger, staged.ledger, profiles);
        IdealFrom(Visit(true, staged, profiles, Desired(staged.ledger), {}), r, Now());
      }
    }

    /** The toggle of a recorded intent, then its commit, or its withdrawal when nothing can have changed. */
    method CarryOut(i: Intent) returns (o: Outcome<()>)
      requires Valid() && i.kind.Override? && i in store.ledger.pendingOverrides
      modifies store`ledger, store`history, hermes`flags, hermes`sent
      ensures Valid() && Grew()
      ensures store.ledger in {old(store.ledger), Settled(old(store.ledger), i), Aborted(old(store.ledger), i)}
      ensures o.Done? ==> store.ledger == Settled(old(store.ledger), i)
      ensures hermes.quiet && o.Done? ==> i.key in hermes.flags && hermes.flags[i.key] == i.desired
      ensures hermes.quiet ==>
        || Now() == old(Now())
        || Now() == World(old(store.ledger), old(hermes.flags)[i.key := i.desired])
        || Now() == Settle(old(Now()), i)
        || Now() == World(Aborted(old(store.ledger), i), old(hermes.flags))
      ensures store.steady && hermes.quiet && i.key in old(hermes.flags) && old(hermes.flags)[i.key] == i.expected ==>
        && (hermes.line.Clear? && Readable(old(store.ledger)) ==> o.Done?)
        && (hermes.line.Mute? ==> o.Failed? && store.ledger == old(store.ledger))
      ensures Calm() && Readable(old(store.ledger)) && !(i.key in old(hermes.flags) && old(hermes.flags)[i.key] == i.expected) ==>
        o.Failed? && Definite(o.code) && Now() == World(Aborted(old(store.ledger), i), old(hermes.flags))
    {
      hide Lawful, Replay, Readable, Rightful, Consistent, IdsBelow;
      var toggled := SendUserToggle(i.key, i.desired, i.expected);
      if toggled.Crashed? { return Crashed; }
      if toggled.Failed? {
        if !Definite(toggled.code) { return Failed(Rejected); }
        var aborted := store.Abort(i);
        return if aborted.Done? then Failed(toggled.code) else if aborted.Crashed? then Crashed else Failed(Rejected);
      }
      var committed := store.Commit(i);
      return if committed.Failed? then Failed(Rejected) else committed;
    }

    /** The toggle of a pair the user has taken over before. */
    method ToggleTaken(key: Key, desired: bool, expected: bool) returns (o: Outcome<()>)
      requires Valid() && key in store.ledger.overrides
      modifies hermes`flags, hermes`sent
      ensures Valid() && old(hermes.sent) <= hermes.sent
      ensures hermes.quiet && o.Done? ==> key in hermes.flags && hermes.flags[key] == desired
      ensures hermes.quiet ==> hermes.flags == old(hermes.flags) || hermes.flags == old(hermes.flags)[key := desired]
      ensures Calm() && old(Toggleable(Now(), key, desired, expected)) ==> o.Done?
    {
      hide Lawful, Replay, Rightful, Consistent, IdsBelow, Readable, Free, AllFor;
      var listed := hermes.ListSkills(key.profile);
      if listed.Crashed? { return Crashed; }
      if listed.Done? && key in listed.value && listed.value[key] == desired { return Done(()); }
      o := SendUserToggle(key, desired, expected);
    }

    /** The toggle of any other pair: record the intent, ask Hermes, commit. */
    method ToggleFree(key: Key, desired: bool, expected: bool) returns (o: Outcome<()>)
      requires Valid() && store.ledger.pendingMutations == [] && key !in store.ledger.overrides
      modifies store, hermes`flags, hermes`sent
      ensures Valid() && Grew()
      ensures o.Done? ==> key in store.ledger.overrides && key !in store.ledger.managed && store.ledger.pendingMutations == []
      ensures o.Done? ==> Free(store.ledger, Override, key)
      ensures hermes.quiet && o.Done? ==> key in hermes.flags && hermes.flags[key] == desired
      ensures hermes.quiet ==> Taken(old(Now()), Intent(old(store.nextId), Override, key, desired, expected), Now())
      ensures store.steady && hermes.quiet && old(CanToggle(Now(), key, expected)) ==> (
        && (hermes.line.Clear? && |old(store.ledger.pendingOverrides)| < MAX_PENDING_OVERRIDES ==> o.Done?)
        && (hermes.line.Mute? ==> (
              && o.Failed? && store.nextId == old(store.nextId) + 1
              && store.ledger == Recorded(old(store.ledger), Intent(old(store.nextId), Override, key, desired, expected))
              && (hermes.flags == old(hermes.flags) || hermes.flags == old(hermes.flags)[key := desired]))))
      ensures Calm() && old(Toggleable(Now(), key, desired, expected)) ==> o.Done?
      ensures Calm() && old(Refusable(Now(), key, expected)) ==> o.Failed? && Definite(o.code) && Now() == old(Now())
    {
      hide Lawful, Replay, Rightful, DistinctIntents;
      ghost var i := Intent(store.nextId, Override, key, desired, expected);
      RecordedThenSettled(store.ledger, i);
      var prepared :- store.Prepare(Override, key, desired, expected);
      var (intent, existing) := prepared;
      SettledOverride(store.ledger, intent);
      if existing {
        ghost var before := Now();
        o := Reconcile(intent);
        assert hermes.quiet ==> Now() == before || OnItsWay(before, intent, i, Now());
      } else {
        o := CarryOut(intent);
      }
    }

    /** The toggle, once the global journal is recovered. */
    method TakeOver(key: Key, desired: bool, expected: bool) returns (o: Outcome<()>)
      requires Valid() && store.ledger.pendingMutations == []
      modifies store, hermes`flags, hermes`sent
      ensures Valid() && Grew()
      ensures o.Done? ==> key in store.ledger.overrides && key !in store.ledger.managed && store.ledger.pendingMutations == []
      ensures o.Done? ==> Free(store.ledger, Override, key)
      ensures hermes.quiet && o.Done? ==> key in hermes.flags && hermes.flags[key] == desired
      ensures hermes.quiet ==> Taken(old(Now()), Intent(old(store.nextId), Override, key, desired, expected), Now())
      ensures !Readable(old(store.ledger)) ==> !o.Done? && store.ledger == old(store.ledger)
      ensures store.steady && hermes.quiet && old(CanToggle(Now(), key, expected)) ==> (
        && (hermes.line.Clear? && |old(store.ledger.pendingOverrides)| < MAX_PENDING_OVERRIDES ==> o.Done?)
        && (hermes.line.Mute? ==> (
              && o.Failed? && store.nextId == old(store.nextId) + 1
              && store.ledger == Recorded(old(store.ledger), Intent(old(store.nextId), Override, key, desired, expected))
              && (hermes.flags == old(hermes.flags) || hermes.flags == old(hermes.flags)[key := desired]))))
      ensures Calm() && old(Toggleable(Now(), key, desired, expected)) ==> o.Done?
      ensures Calm() && old(Refusable(Now(), key, expected)) ==> o.Failed? && Definite(o.code) && Now() == old(Now())
    {
      hide Lawful, Replay, Rightful, Consistent, IdsBelow;
      assert Toggleable(Now(), key, desired, expected) ==> Readable(store.ledger);
      assert Refusable(Now(), key, expected) ==> Readable(store.ledger) && key !in store.ledger.overrides;
      hide Toggleable, Refusable, Readable;
      var ownership :- store.Read();
      if key in ownership.overrides {
        OverriddenUnpended(store.ledger, key);
        o := ToggleTaken(key, desired, expected);
      } else {
        hide Taken, Free;
        o := ToggleFree(key, desired, expected);
      }
    }

    /** A Profile-scoped toggle by a user: it wins over the global settings. */
    method ApplyProfileSkillOverride(key: Key, desired: bool, expected: bool) returns (o: Outcome<()>)
      requires Valid()
      modifies store, hermes`flags, hermes`sent
      ensures Valid() && Grew()
      ensures o.Done? ==> key in store.ledger.overrides && key !in store.ledger.managed
      ensures o.Done? ==> forall i :: i in store.ledger.pendingOverrides + store.ledger.pendingMutations ==> i.key != key
      ensures hermes.quiet && o.Done? ==> key in hermes.flags && hermes.flags[key] == desired
      ensures hermes.quiet ==>
        Left(old(Now()), Intent(old(store.nextId), Override, key, desired, expected), Now())
      ensures !Readable(old(store.ledger)) ==> !o.Done? && store.ledger == old(store.ledger)
      ensures store.steady && hermes.quiet && old(CanToggle(Now(), key, expected)) ==> (
        && (hermes.line.Clear? && |old(store.ledger.pendingOverrides)| < MAX_PENDING_OVERRIDES ==> o.Done?)
        && (hermes.line.Mute? ==> (
              && o.Failed? && store.nextId == old(store.nextId) + 1
              && store.ledger == Recorded(old(store.ledger), Intent(old(store.nextId), Override, key, desired, expected))
              && (hermes.flags == old(hermes.flags) || hermes.flags == old(hermes.flags)[key := desired]))))
      ensures Calm() && old(Reconcilable(Now(), Mutation(0)) && Toggleable(Recover(Now(), Mutation(0)), key, desired, expected)) ==>
        o.Done?
      ensures Calm() && old(Reconcilable(Now(), Mutation(0)) && Refusable(Recover(Now(), Mutation(0)), key, expected)) ==>
        o.Failed? && Definite(o.code) && Now() == old(Recover(Now(), Mutation(0)))
    {
      hide Lawful, Replay, Rightful, Consistent, IdsBelow, Recover, Left, Taken, Readable, DistinctIntents, Reconcilable, Toggleable;
      hide Refusable;
      ghost var w := Now();
      ghost var i := Intent(store.nextId, Override, key, desired, expected);
      var reconciled := ReconcileJournal(Mutation(0));
      if hermes.quiet && !reconciled.Done? { LeftEarly(w, i, Now()); }
      var _ :- reconciled;
      o := TakeOver(key, desired, expected);
      if hermes.quiet { TakenLeft(w, i, Now()); }
    }

    // ---- Interrupted and recovered ---------------------------------------------------------------

    /** However a change of the global sync ended, a later pass over its journal reaches what the
        uninterrupted change reaches if the intent was durable, and loses nothing if it was not. */
    method ChangeThenReconcile(revision: nat, key: Key, desired: bool) returns (o: Outcome<()>, ghost left: World)
      requires Valid() && store.ledger.pendingOverrides == [] && key !in store.ledger.overrides
      requires (desired <==> key !in store.ledger.managed) && Free(store.ledger, Mutation(revision), key)
      modifies store, hermes`flags, hermes`sent
      ensures Valid() && Grew()
      ensures var i := Intent(old(store.nextId), Mutation(revision), key, desired, !desired);
        hermes.quiet ==> (
          && (left == old(Now()) || CutAfterIntent(old(Now()), i, left))
          && (o.Done? ==> Now() == Recover(if CutAfterIntent(old(Now()), i, left) then Completion(old(Now()), i) else old(Now()), i.kind)))
    {
      hide Lawful, Replay, Rightful, Recover, CutAfterIntent;
      ghost var w := Now();
      var _, i := ApplyGlobalSkillMutation(revision, key, desired);
      left := Now();
      if CutAfterIntent(w, i, left) { RecoveryEqualsCompletion(w, i, left); }
      o := ReconcileJournal(Mutation(revision));
    }

    /** The same for a user's toggle of a free pair, and a later pass over both journals. */
    method ToggleThenReconcile(key: Key, desired: bool, expected: bool) returns (o: Outcome<()>, ghost left: World)
      requires Valid() && Free(store.ledger, Override, key) && key !in Recover(Now(), Mutation(0)).ledger.overrides
      modifies store, hermes`flags, hermes`sent
      ensures Valid() && Grew()
      ensures var i := Intent(old(store.nextId), Override, key, desired, expected);
        var r := old(Recover(Now(), Mutation(0)));
        hermes.quiet ==> (
          && Left(old(Now()), i, left)
          && (o.Done? ==> Now() == Recover(if CutAfterIntent(r, i, left) then Completion(r, i) else r, Override)))
    {
      hide Lawful, Replay, Rightful, Recover, CutAfterIntent;
      ghost var w := Now();
      ghost var i := Intent(store.nextId, Override, key, desired, expected);
      FreeOnceRecovered(w, i);
      var _ := ApplyProfileSkillOverride(key, desired, expected);
      left := Now();
      if hermes.quiet { OverrideRecovers(w, i, left); }
      o := ReconcileJournal(Override);
      if o.Done? { o := ReconcileJournal(Mutation(0)); }
    }

    // ---- Whole runs ------------------------------------------------------------------------------

    ghost function Around(): Conditions
    {
      Conditions(store.steady, hermes.quiet, hermes.line)
    }

    /** One operation, or something outside. */
    method Take(op: Op) returns (ghost t: Turn)
      requires Valid()
      modifies store, hermes
      ensures Valid() && Grew() && t.op == op && t.after == Now()
      ensures TurnOf(Around(), old(Now()), t)
      ensures store.history == old(store.history) + t.changes && hermes.listed == old(hermes.listed) + t.listed
    {
      hide Lawful, Replay, Rightful, Recover, Left, Readable, Conserved, InLine, CutAfterIntent, Consistent, NoOrphans, Overtaken;
      hide Ready, Recovered, Ideal, Holds, Reconcilable, Toggleable;
      ghost var w := Now();
      var done := false;
      match op {
        case Updating(input) =>
          var o, _, _ := Update(input);
          done := o.Done?;
        case Overriding(key, desired, expected) =>
          ghost var i := Intent(store.nextId, Override, key, desired, expected);
          var o := ApplyProfileSkillOverride(key, desired, expected);
          if hermes.quiet { LeftElsewhere(w, i, Now()); }
          done := o.Done?;
        case Elsewhere =>
          hermes.OutsideStep();
      }
      ghost var changes := store.history[|old(store.history)|..];
      assert store.history == old(store.history) + changes;
      Continued(store.start, old(store.history), changes);
      t := Turn(op, done, hermes.listed[|old(hermes.listed)|..], changes, Now());
    }

    /** Any run. Its turns follow one another as the operations promise, and between them made every write. */
    method Run(ops: seq<Op>) returns (ghost run: seq<Turn>)
      requires Valid()
      modifies store, hermes
      ensures Valid() && Grew() && |run| == |ops| && forall n :: 0 <= n < |ops| ==> run[n].op == ops[n]
      ensures Chained(Around(), old(Now()), run) && Now() == End(old(Now()), run)
      ensures store.history == old(store.history) + Writes(run) && hermes.listed == old(hermes.listed) + Listings(run)
    {
      hide TurnOf, Lawful, Replay, Rightful, Consistent, IdsBelow;
      run := [];
      for n := 0 to |ops|
        invariant Valid() && Grew() && |run| == n && forall m :: 0 <= m < n ==> run[m].op == ops[m]
        invariant Chained(Around(), old(Now()), run) && Now() == End(old(Now()), run)
        invariant store.history == old(store.history) + Writes(run) && hermes.listed == old(hermes.listed) + Listings(run)
      {
        ghost var t := Take(ops[n]);
        assert (run + [t])[..|run|] == run;
        run := run + [t];
      }
    }

    /** The input that makes the record unreadable: from the first start, 1,001 user toggles of different
        skills whose answers are lost. Every step of it is an operation of the coordinator. */
    method LoseAnswers(n: nat)
      requires Valid() && store.steady && hermes.quiet && hermes.line.Mute? && n <= MAX_PENDING_OVERRIDES + 1
      requires store.ledger == INITIAL && store.nextId == 0
      requires forall k :: 0 <= k < n ==> UserToggle(k).key in hermes.flags && !hermes.flags[UserToggle(k).key]
      modifies store, hermes`flags, hermes`sent
      ensures Valid() && store.ledger == Unanswered(n)
      ensures n == MAX_PENDING_OVERRIDES + 1 ==> !Readable(store.ledger)
    {
      hide Lawful, Replay, Rightful, Name, Consistent, IdsBelow, Left;
      NoneUnanswered();
      for k := 0 to n
        invariant Valid() && store.ledger == Unanswered(k) && store.nextId == k
        invariant forall m :: k <= m < n ==> UserToggle(m).key in hermes.flags && !hermes.flags[UserToggle(m).key]
      {
        AnotherToggle(k);
        forall m | k < m < n ensures UserToggle(m).key != UserToggle(k).key {
          if UserToggle(m).key == UserToggle(k).key { NamesDiffer(m, k); }
        }
        var _ := ApplyProfileSkillOverride(UserToggle(k).key, true, false);
      }
    }
  }
}
