/**
 Every durable write of OfficeGlobalSettingsStore, in order. What all histories keep: the invariant of the
 record, and whether the record can be read back.
 */
module LedgerHistory {
  import opened SkillLedger

  datatype Change =
    | Staging(sharedEnabled: bool, skills: seq<string>)
    | Closing(managed: set<Key>, overrides: set<Key>, failures: set<Failure>)
    | Recording(intent: Intent)
    | Settling(intent: Intent)
    | Aborting(intent: Intent)

  function Changed(l: Ledger, c: Change): Ledger {
    match c
    case Staging(sharedEnabled, skills) =>
      l.(revision := l.revision + 1, sharedEnabled := sharedEnabled, skills := skills, synced := false, failures := {})
    case Closing(managed, overrides, failures) =>
      l.(synced := failures == {}, failures := failures, managed := managed, overrides := overrides)
    case Recording(i) => Recorded(l, i)
    case Settling(i) => Settled(l, i)
    case Aborting(i) => Aborted(l, i)
  }

  function Replay(l: Ledger, history: seq<Change>): Ledger {
    if history == [] then l
    else Changed(Replay(l, history[..|history| - 1]), history[|history| - 1])
  }

  /** What the store checks, and what its callers owe it. Every write follows a read of the record. */
  ghost predicate Allowed(l: Ledger, c: Change) {
    && Readable(l)
    && match c
       case Staging(_, _) => l.pendingOverrides == [] && l.pendingMutations == []
       case Closing(managed, overrides, _) =>
         && l.pendingOverrides == [] && managed !! overrides
         && |managed| <= MAX_PROVENANCE && |overrides| <= MAX_PROVENANCE
         && (forall i :: i in l.pendingMutations ==> i.key !in overrides && (i.desired <==> i.key !in managed))
       case Recording(i) =>
         && (forall j :: j in Journal(l, i.kind) ==> j.id != i.id && j.key != i.key)
         && (if i.kind.Override? then l.pendingMutations == [] && i.key !in l.overrides
             else l.pendingOverrides == [] && Justified(l, i))
       case Settling(i) => i in Journal(l, i.kind)
       case Aborting(_) => true
  }

  ghost predicate Lawful(l: Ledger, history: seq<Change>) {
    history == [] ||
    (var before := history[..|history| - 1];
     Lawful(l, before) && Allowed(Replay(l, before), history[|history| - 1]))
  }

  lemma Extended(l: Ledger, history: seq<Change>, c: Change)
    ensures Replay(l, history + [c]) == Changed(Replay(l, history), c)
    ensures Lawful(l, history + [c]) <==> Lawful(l, history) && Allowed(Replay(l, history), c)
  {
    assert (history + [c])[..|history|] == history;
  }

  /** A history in two parts. */
  lemma {:induction false} Continued(l: Ledger, a: seq<Change>, b: seq<Change>)
    ensures Replay(l, a + b) == Replay(Replay(l, a), b)
    ensures Lawful(l, a + b) <==> Lawful(l, a) && Lawful(Replay(l, a), b)
  {
    if b == [] {
      assert a + b == a;
    } else {
      var c := b[|b| - 1];
      assert b == b[..|b| - 1] + [c] && a + b == (a + b[..|b| - 1]) + [c];
      Continued(l, a, b[..|b| - 1]);
      Extended(l, a + b[..|b| - 1], c);
      Extended(Replay(l, a), b[..|b| - 1], c);
    }
  }

  // ---- The invariant over every history ----------------------------------------------------------

  lemma ChangedConsistent(l: Ledger, c: Change)
    requires Consistent(l) && Allowed(l, c)
    ensures Consistent(Changed(l, c))
  {
    match c
    case Staging(_, _) =>
    case Closing(_, _, _) =>
    case Recording(i) => RecordedConsistent(l, i);
    case Settling(i) => SettledConsistent(l, i);
    case Aborting(i) => AbortedConsistent(l, i);
  }

  /** However many operations, crashes and restarts made it, and wherever it ends: ownership and
      overrides are disjoint, at most one journal is in use, and every intent in it is justified. */
  lemma {:induction false} HistoryConsistent(l: Ledger, history: seq<Change>)
    requires Consistent(l) && Lawful(l, history)
    ensures Consistent(Replay(l, history))
  {
    if history != [] {
      HistoryConsistent(l, history[..|history| - 1]);
      ChangedConsistent(Replay(l, history[..|history| - 1]), history[|history| - 1]);
    }
  }

  // ---- Readability over every history ------------------------------------------------------------

  /** The two writes that are made without a look at the size rules, where they break one. */
  predicate Overfills(l: Ledger, c: Change) {
    || (c.Recording? && JournalFull(l, c.intent.kind))
    || (c.Settling? && ProvenanceFull(l, c.intent))
  }

  lemma ChangedReadable(l: Ledger, c: Change)
    requires Allowed(l, c)
    ensures Readable(Changed(l, c)) <==> !Overfills(l, c)
  {
    match c
    case Staging(_, _) =>
    case Closing(_, _, _) =>
    case Recording(i) => RecordedReadable(l, i);
    case Settling(i) => SettledReadable(l, i);
    case Aborting(i) => WithoutShorter(Journal(l, i.kind), i.id);
  }

  /** The record can be read back exactly unless the last write was a prepare that found its journal full
      or a commit that found its provenance list full; and no write ever follows such a one. */
  lemma {:induction false} HistoryReadable(l: Ledger, history: seq<Change>)
    requires Readable(l) && Lawful(l, history)
    ensures Readable(Replay(l, history)) <==>
            history == [] || !Overfills(Replay(l, history[..|history| - 1]), history[|history| - 1])
    ensures forall n :: 0 <= n < |history| ==> Readable(Replay(l, history[..n]))
  {
    if history != [] {
      var before := history[..|history| - 1];
      HistoryReadable(l, before);
      ChangedReadable(Replay(l, before), history[|history| - 1]);
      forall n | 0 <= n < |history| ensures Readable(Replay(l, history[..n])) {
        assert history[..n] == before[..n];
        if n == |before| { assert before[..n] == before; }
      }
    }
  }

  /** Nothing is written over a record that cannot be read. */
  lemma ReadBeforeWrite(l: Ledger, history: seq<Change>, more: seq<Change>)
    requires Lawful(l, history + more) && more != []
    ensures Readable(Replay(l, history))
  {
    assert history + more == (history + [more[0]]) + more[1..];
    Continued(l, history + [more[0]], more[1..]);
    Extended(l, history, more[0]);
  }

  // ---- A history that ends unreadable ------------------------------------------------------------

  /** The record before the file exists. */
  const INITIAL := Ledger(0, true, [], true, {}, {}, {}, [], [])

  function Letter(n: nat): char {
    'a' + (n % 26) as char
  }

  /** Skill names of three letters. */
  function Name(n: nat): string {
    [Letter(n / 676), Letter(n / 26), Letter(n)]
  }

  lemma NamesDiffer(m: nat, n: nat)
    requires m < 17_576 && n < 17_576 && Name(m) == Name(n)
    ensures m == n
  {
    assert Name(m)[0] == Name(n)[0] && Name(m)[1] == Name(n)[1] && Name(m)[2] == Name(n)[2];
    assert m / 676 == m / 26 / 26 && n / 676 == n / 26 / 26;
  }

  /** The nth user toggle. */
  function UserToggle(n: nat): Intent {
    Intent(n, Override, Key("default", Name(n)), true, false)
  }

  function Toggles(n: nat): (journal: seq<Intent>)
    ensures |journal| == n && forall k :: 0 <= k < n ==> journal[k] == UserToggle(k)
  {
    if n == 0 then [] else Toggles(n - 1) + [UserToggle(n - 1)]
  }

  /** n user toggles whose answers were all lost: each leaves its intent, and nothing reconciles it. */
  function LostAnswers(n: nat): (history: seq<Change>)
    ensures |history| == n
  {
    if n == 0 then [] else LostAnswers(n - 1) + [Recording(UserToggle(n - 1))]
  }

  function Unanswered(n: nat): Ledger {
    INITIAL.(pendingOverrides := Toggles(n))
  }

  lemma AnotherToggle(n: nat)
    requires n <= MAX_PENDING_OVERRIDES
    ensures Allowed(Unanswered(n), Recording(UserToggle(n)))
    ensures Changed(Unanswered(n), Recording(UserToggle(n))) == Unanswered(n + 1)
  {
    forall j | j in Toggles(n) ensures j.id != n && j.key != UserToggle(n).key {
      var k :| 0 <= k < n && Toggles(n)[k] == j;
      hide Letter;
      if j.key == UserToggle(n).key { NamesDiffer(k, n); }
    }
  }

  lemma {:induction false} LostAnswersLeave(n: nat)
    requires n <= MAX_PENDING_OVERRIDES + 1
    ensures Replay(INITIAL, LostAnswers(n)) == Unanswered(n) && Lawful(INITIAL, LostAnswers(n))
  {
    hide Allowed, Changed, Unanswered, UserToggle, Toggles;
    if n > 0 {
      LostAnswersLeave(n - 1);
      AnotherToggle(n - 1);
      Extended(INITIAL, LostAnswers(n - 1), Recording(UserToggle(n - 1)));
    } else {
      NoneUnanswered();
    }
  }

  lemma NoneUnanswered()
    ensures Unanswered(0) == INITIAL
  {
  }

  /** 1,001 of them are a lawful history that ends in a record nobody can read, and the last one. */
  lemma TooManyLostAnswers(more: seq<Change>)
    ensures Lawful(INITIAL, LostAnswers(MAX_PENDING_OVERRIDES + 1))
    ensures !Readable(Replay(INITIAL, LostAnswers(MAX_PENDING_OVERRIDES + 1)))
    ensures Lawful(INITIAL, LostAnswers(MAX_PENDING_OVERRIDES + 1) + more) ==> more == []
  {
    LostAnswersLeave(MAX_PENDING_OVERRIDES + 1);
    if more != [] && Lawful(INITIAL, LostAnswers(MAX_PENDING_OVERRIDES + 1) + more) {
      ReadBeforeWrite(INITIAL, LostAnswers(MAX_PENDING_OVERRIDES + 1), more);
      assert false;
    }
  }
}
