/**
 The fixed-window attempt limiter of OfficeAuth. Every attempt spends first a global allowance, then one
 for its client, then one for its credential (or its device); each of the three reads the clock anew.
 Every key comes from one of two global windows.
 */
module AttemptLimiters {
  import opened FiniteSets

  const ATTEMPT_WINDOW_MS := 60_000
  const MAX_RATE_LIMIT_KEYS := 512
  const MAX_GLOBAL_ATTEMPTS := 100

  datatype Key = Global | Client(name: string) | Credential(digest: string)

  datatype Window = Window(count: nat, resetAt: int)

  /** The limits of the enrolment and of the renewal map. */
  datatype Limits = Limits(client: nat, credential: nat)

  const ENROLMENT := Limits(5, 5)
  const RENEWAL := Limits(6, 8)

  type Windows = map<Key, Window>

  function LimitOf(l: Limits, key: Key): nat {
    match key
    case Global => MAX_GLOBAL_ATTEMPTS
    case Client(_) => l.client
    case Credential(_) => l.credential
  }

  function Pruned(windows: Windows, now: int): Windows {
    map key | key in windows && windows[key].resetAt > now :: windows[key]
  }

  /** An attempt on one key, when there is room for the key. */
  function Spent(windows: Windows, key: Key, limit: nat, now: int): Windows {
    var live := Pruned(windows, now);
    if key !in live then live[key := Window(1, now + ATTEMPT_WINDOW_MS)]
    else if live[key].count >= limit then live
    else live[key := live[key].(count := live[key].count + 1)]
  }

  predicate Admits(windows: Windows, key: Key, limit: nat, now: int) {
    key !in Pruned(windows, now) || Pruned(windows, now)[key].count < limit
  }

  /** No count exceeds its key's limit, and no window starts in the future. */
  ghost predicate Counted(windows: Windows, l: Limits, clock: int) {
    forall key :: key in windows ==>
      1 <= windows[key].count <= LimitOf(l, key) && windows[key].resetAt <= clock + ATTEMPT_WINDOW_MS
  }

  /** An admission: one key's allowance was spent at this time. */
  datatype Grant = Grant(key: Key, time: int)

  function Count(grants: seq<Grant>, key: Key, from: int, to: int): nat {
    if grants == [] then 0
    else
      var last := grants[|grants| - 1];
      Count(grants[..|grants| - 1], key, from, to) + if last.key == key && from <= last.time < to then 1 else 0
  }

  /** The admissions in the window that resets then. */
  function InWindow(grants: seq<Grant>, key: Key, resetAt: int): nat {
    Count(grants, key, resetAt - ATTEMPT_WINDOW_MS, resetAt)
  }

  /** A window's count is the number of admissions made in it, and a key without one was admitted earlier if ever. */
  ghost predicate Ledgered(windows: Windows, grants: seq<Grant>, clock: int) {
    && (forall key :: key in windows ==> InWindow(grants, key, windows[key].resetAt) == windows[key].count)
    && (forall g :: g in grants ==> g.time < clock || (g.key in windows && g.time < windows[g.key].resetAt))
  }

  /** Two global windows account for every key; the older one's keys are gone when the newer one ends. */
  ghost predicate Accounted(windows: Windows, recent: set<Key>, stale: set<Key>, spent: nat, windowEnd: int, clock: int) {
    && windows.Keys <= {Global} + recent + stale && spent <= MAX_GLOBAL_ATTEMPTS
    && |recent| <= 2 * spent && |stale| <= 2 * MAX_GLOBAL_ATTEMPTS
    && (forall key :: key in windows && key in stale && key !in recent && key != Global ==> windows[key].resetAt <= windowEnd)
    && (Global in windows ==> windows[Global].count == spent && windows[Global].resetAt == windowEnd)
    && (Global !in windows ==> windowEnd <= clock)
  }

  function GrantsAfter(grants: seq<Grant>, windows: Windows, key: Key, limit: nat, now: int): seq<Grant> {
    if Admits(windows, key, limit, now) then grants + [Grant(key, now)] else grants
  }

  lemma SpentCounted(windows: Windows, l: Limits, clock: int, key: Key, now: int)
    requires Counted(windows, l, clock) && clock <= now && 1 <= LimitOf(l, key)
    ensures Counted(Spent(windows, key, LimitOf(l, key), now), l, now)
  {
    hide LimitOf;
  }

  lemma CountGrant(grants: seq<Grant>, g: Grant, key: Key, from: int, to: int)
    ensures Count(grants + [g], key, from, to) == Count(grants, key, from, to) + if g.key == key && from <= g.time < to then 1 else 0
  {
    assert (grants + [g])[..|grants|] == grants;
  }

  lemma {:induction false} CountNone(grants: seq<Grant>, key: Key, from: int, to: int)
    requires forall g :: g in grants && g.key == key ==> g.time < from
    ensures Count(grants, key, from, to) == 0
  {
    if grants != [] { CountNone(grants[..|grants| - 1], key, from, to); }
  }

  /** One more attempt on a key keeps the account of admissions. */
  lemma SpentLedgered(windows: Windows, l: Limits, grants: seq<Grant>, clock: int, key: Key, now: int)
    requires Ledgered(windows, grants, clock) && Counted(windows, l, clock) && clock <= now
    ensures Ledgered(Spent(windows, key, LimitOf(l, key), now), GrantsAfter(grants, windows, key, LimitOf(l, key), now), now)
  {
    var windows', grants' := Spent(windows, key, LimitOf(l, key), now), GrantsAfter(grants, windows, key, LimitOf(l, key), now);
    hide LimitOf, Count;
    forall k | k in windows' ensures InWindow(grants', k, windows'[k].resetAt) == windows'[k].count {
      CountGrant(grants, Grant(key, now), k, windows'[k].resetAt - ATTEMPT_WINDOW_MS, windows'[k].resetAt);
      if k == key && key !in Pruned(windows, now) { CountNone(grants, key, now, now + ATTEMPT_WINDOW_MS); }
    }
  }

  /** No window that a key ever has admits more than its limit: one that was current once holds its count
      while it lasts, and nothing is admitted in it after that. */
  ghost predicate Capped(windows: Windows, l: Limits, grants: seq<Grant>, clock: int, key: Key, resetAt: int) {
    && InWindow(grants, key, resetAt) <= LimitOf(l, key)
    && (clock >= resetAt || (key in windows && windows[key].resetAt == resetAt))
  }

  lemma SpentCapped(windows: Windows, l: Limits, grants: seq<Grant>, clock: int, key: Key, now: int, k: Key, resetAt: int)
    requires Ledgered(windows, grants, clock) && Counted(windows, l, clock) && clock <= now
    requires Capped(windows, l, grants, clock, k, resetAt)
    ensures Capped(Spent(windows, key, LimitOf(l, key), now), l, GrantsAfter(grants, windows, key, LimitOf(l, key), now), now, k, resetAt)
  {
    hide Count;
    CountGrant(grants, Grant(key, now), k, resetAt - ATTEMPT_WINDOW_MS, resetAt);
  }

  lemma SpentAccounted(windows: Windows, recent: set<Key>, stale: set<Key>, spent: nat, windowEnd: int, clock: int,
                       key: Key, limit: nat, now: int)
    requires Accounted(windows, recent, stale, spent, windowEnd, clock) && clock <= now && key != Global && |recent| < 2 * spent
    ensures Accounted(Spent(windows, key, limit, now), recent + {key}, stale, spent, windowEnd, now)
    ensures |recent + {key}| <= |recent| + 1
  {
  }

  /** When the global window is renewed the keys of the one before the last are gone. */
  lemma GlobalAccounted(windows: Windows, recent: set<Key>, stale: set<Key>, spent: nat, windowEnd: int, clock: int, l: Limits, now: int)
    requires Accounted(windows, recent, stale, spent, windowEnd, clock) && Counted(windows, l, clock) && clock <= now
    ensures var windows' := Spent(windows, Global, MAX_GLOBAL_ATTEMPTS, now);
      && (Global !in Pruned(windows, now) ==> Accounted(windows', {}, recent, 1, now + ATTEMPT_WINDOW_MS, now))
      && (Global in Pruned(windows, now) ==>
            Accounted(windows', recent, stale,
              if Admits(windows, Global, MAX_GLOBAL_ATTEMPTS, now) then spent + 1 else spent, windowEnd, now))
  {
  }

  class AttemptLimiter {
    const limits: Limits
    var windows: Windows
    ghost var clock: int
    ghost var grants: seq<Grant>  // every admission of a key
    ghost var spent: nat          // successful global attempts in the current global window
    ghost var windowEnd: int      // where that window ends
    ghost var recent: set<Key>    // keys first used by attempts of the current global window
    ghost var stale: set<Key>     // keys from the window before it

    ghost predicate Valid()
      reads this
    {
      && 1 <= limits.client && 1 <= limits.credential && Counted(windows, limits, clock) && Ledgered(windows, grants, clock)
      && Accounted(windows, recent, stale, spent, windowEnd, clock)
    }

    constructor (limits: Limits)
      requires 1 <= limits.client && 1 <= limits.credential
      ensures Valid() && windows == map[] && this.limits == limits && clock == 0 && grants == []
    {
      this.limits, windows := limits, map[];
      clock, grants, spent, windowEnd, recent, stale := 0, [], 0, 0, {}, {};
    }

    /** Never more than 401 keys, so the eviction at 512 never fires. */
    lemma FewKeys()
      requires Valid()
      ensures |windows| <= 1 + 4 * MAX_GLOBAL_ATTEMPTS < MAX_RATE_LIMIT_KEYS
    {
      SubsetSize(windows.Keys, {Global} + recent + stale);
      assert |windows| == |windows.Keys|;
      assert |{Global} + recent + stale| <= |{Global} + recent| + |stale|;
    }

    /** One key's share of an attempt. Only a full map with no room for the key evicts another one. */
    method ConsumeAttempt(key: Key, limit: nat, now: int) returns (admitted: bool)
      modifies this`windows
      ensures |Pruned(old(windows), now)| < MAX_RATE_LIMIT_KEYS || key in Pruned(old(windows), now) ==>
        windows == Spent(old(windows), key, limit, now) && admitted == Admits(old(windows), key, limit, now)
    {
      windows := Pruned(windows, now);
      if |windows| >= MAX_RATE_LIMIT_KEYS && key !in windows {
        var oldest :| oldest in windows;
        windows := windows - {oldest};
      }
      if key !in windows || windows[key].resetAt <= now {
        windows := windows[key := Window(1, now + ATTEMPT_WINDOW_MS)];
        return true;
      }
      if windows[key].count >= limit { return false; }
      windows := windows[key := windows[key].(count := windows[key].count + 1)];
      return true;
    }

    /** The pruned map is no bigger. */
    lemma PrunedFits(now: int)
      requires Valid()
      ensures |Pruned(windows, now)| < MAX_RATE_LIMIT_KEYS
    {
      FewKeys();
      SubsetSize(Pruned(windows, now).Keys, windows.Keys);
      assert |Pruned(windows, now)| == |Pruned(windows, now).Keys| && |windows| == |windows.Keys|;
    }

    method ConsumeGlobal(now: int) returns (admitted: bool)
      requires Valid() && clock <= now
      modifies this
      ensures Valid() && clock == now && windows == Spent(old(windows), Global, MAX_GLOBAL_ATTEMPTS, now)
      ensures admitted == Admits(old(windows), Global, MAX_GLOBAL_ATTEMPTS, now)
      ensures grants == GrantsAfter(old(grants), old(windows), Global, MAX_GLOBAL_ATTEMPTS, now)
      ensures admitted ==> spent >= 1 && |recent| <= 2 * spent - 2
    {
      hide Counted, Ledgered, Accounted;
      PrunedFits(now);
      RecentFits();
      SpentCounted(windows, limits, clock, Global, now);
      SpentLedgered(windows, limits, grants, clock, Global, now);
      GlobalAccounted(windows, recent, stale, spent, windowEnd, clock, limits, now);
      ghost var renewed := Global !in Pruned(windows, now);
      grants := GrantsAfter(grants, windows, Global, MAX_GLOBAL_ATTEMPTS, now);
      admitted := ConsumeAttempt(Global, MAX_GLOBAL_ATTEMPTS, now);
      clock := now;
      if renewed {
        stale, recent, spent, windowEnd := recent, {}, 1, now + ATTEMPT_WINDOW_MS;
      } else if admitted {
        spent := spent + 1;
      }
    }

    lemma RecentFits()
      requires Valid()
      ensures |recent| <= 2 * spent
    {
    }

    /** A client's or credential's share, in an attempt that the global allowance admitted. */
    method ConsumeKey(key: Key, now: int) returns (admitted: bool)
      requires Valid() && clock <= now && key != Global && |recent| < 2 * spent
      modifies this
      ensures Valid() && clock == now && windows == Spent(old(windows), key, LimitOf(limits, key), now)
      ensures admitted == Admits(old(windows), key, LimitOf(limits, key), now)
      ensures grants == GrantsAfter(old(grants), old(windows), key, LimitOf(limits, key), now)
      ensures spent == old(spent) && |recent| <= |old(recent)| + 1
    {
      hide Counted, Ledgered, Accounted;
      PrunedFits(now);
      SpentCounted(windows, limits, clock, key, now);
      SpentLedgered(windows, limits, grants, clock, key, now);
      SpentAccounted(windows, recent, stale, spent, windowEnd, clock, key, LimitOf(limits, key), now);
      grants := GrantsAfter(grants, windows, key, LimitOf(limits, key), now);
      admitted := ConsumeAttempt(key, LimitOf(limits, key), now);
      clock, recent := now, recent + {key};
    }

    ghost function View(): Tally
      reads this
    {
      Tally(windows, grants, clock)
    }

    /** A whole attempt: the three allowances in turn, the clock not running backwards between them. */
    method Attempt(a: Attempt) returns (admitted: bool)
      requires Valid() && InOrder(clock, [a])
      modifies this
      ensures Valid() && View() == Attempted(old(View()), limits, a)
      ensures admitted == Admitted(old(View()), limits, a)
    {
      admitted := ConsumeGlobal(a.times.0);
      if !admitted { return; }
      admitted := ConsumeKey(Client(a.client), a.times.1);
      if !admitted { return; }
      admitted := ConsumeKey(Credential(a.digest), a.times.2);
    }
  }

  // ---- Attempts ----------------------------------------------------------------------------------

  datatype Tally = Tally(windows: Windows, grants: seq<Grant>, clock: int)

  const EMPTY := Tally(map[], [], 0)

  /** An attempt, with the clock as each of its three allowances reads it. */
  datatype Attempt = Attempt(client: string, digest: string, times: (int, int, int))

  function Consumed(s: Tally, l: Limits, key: Key, now: int): Tally {
    Tally(Spent(s.windows, key, LimitOf(l, key), now), GrantsAfter(s.grants, s.windows, key, LimitOf(l, key), now), now)
  }

  predicate Allows(s: Tally, l: Limits, key: Key, now: int) {
    Admits(s.windows, key, LimitOf(l, key), now)
  }

  function Attempted(s: Tally, l: Limits, a: Attempt): Tally {
    var first := Consumed(s, l, Global, a.times.0);
    var second := Consumed(first, l, Client(a.client), a.times.1);
    if !Allows(s, l, Global, a.times.0) then first
    else if !Allows(first, l, Client(a.client), a.times.1) then second
    else Consumed(second, l, Credential(a.digest), a.times.2)
  }

  /** All three allowances have room, each seen after the shares before it were spent. */
  predicate Admitted(s: Tally, l: Limits, a: Attempt) {
    && Allows(s, l, Global, a.times.0)
    && var first := Consumed(s, l, Global, a.times.0);
      && Allows(first, l, Client(a.client), a.times.1)
      && Allows(Consumed(first, l, Client(a.client), a.times.1), l, Credential(a.digest), a.times.2)
  }

  /** When an attempt reads the clock for a key it needs. */
  function TimeOf(a: Attempt, key: Key): int {
    match key
    case Global => a.times.0
    case Client(_) => a.times.1
    case Credential(_) => a.times.2
  }

  predicate Needs(a: Attempt, key: Key) {
    key == Global || key == Client(a.client) || key == Credential(a.digest)
  }

  /** The clock never runs backwards. */
  predicate InOrder(clock: int, attempts: seq<Attempt>)
    decreases |attempts|
  {
    attempts == [] || (
      && clock <= attempts[0].times.0 <= attempts[0].times.1 <= attempts[0].times.2
      && InOrder(attempts[0].times.2, attempts[1..]))
  }

  function Steps(s: Tally, l: Limits, attempts: seq<Attempt>): Tally
    decreases |attempts|
  {
    if attempts == [] then s else Steps(Attempted(s, l, attempts[0]), l, attempts[1..])
  }

  function Answers(s: Tally, l: Limits, attempts: seq<Attempt>): (answers: seq<bool>)
    ensures |answers| == |attempts|
    decreases |attempts|
  {
    if attempts == [] then [] else [Admitted(s, l, attempts[0])] + Answers(Attempted(s, l, attempts[0]), l, attempts[1..])
  }

  function Bit(admitted: bool, a: Attempt, key: Key, resetAt: int): nat {
    if admitted && Needs(a, key) && resetAt - ATTEMPT_WINDOW_MS <= TimeOf(a, key) < resetAt then 1 else 0
  }

  /** The admitted attempts that needed the key within the window that resets then. */
  function AdmittedInWindow(attempts: seq<Attempt>, answers: seq<bool>, key: Key, resetAt: int): nat
    requires |answers| == |attempts|
    decreases |attempts|
  {
    if attempts == [] then 0
    else
      AdmittedInWindow(attempts[1..], answers[1..], key, resetAt)
      + Bit(answers[0], attempts[0], key, resetAt)
  }

  // ---- No window of a key admits more than its limit ---------------------------------------------

  ghost predicate Sound(s: Tally, l: Limits) {
    1 <= l.client && 1 <= l.credential && Counted(s.windows, l, s.clock) && Ledgered(s.windows, s.grants, s.clock)
  }

  ghost predicate CappedIn(s: Tally, l: Limits, k: Key, resetAt: int) {
    Capped(s.windows, l, s.grants, s.clock, k, resetAt)
  }

  predicate Open(s: Tally, k: Key, resetAt: int) {
    k in s.windows && s.windows[k].resetAt == resetAt
  }

  lemma OpenCapped(s: Tally, l: Limits, k: Key, resetAt: int)
    requires Sound(s, l) && Open(s, k, resetAt)
    ensures CappedIn(s, l, k, resetAt)
  {
    hide LimitOf;
  }

  /** One key's share of an attempt. */
  lemma ConsumedSound(s: Tally, l: Limits, key: Key, now: int, k: Key, resetAt: int)
    requires Sound(s, l) && s.clock <= now
    ensures var s' := Consumed(s, l, key, now);
      && Sound(s', l) && s'.clock == now && (CappedIn(s, l, k, resetAt) ==> CappedIn(s', l, k, resetAt))
      && InWindow(s'.grants, k, resetAt) == InWindow(s.grants, k, resetAt)
           + if Allows(s, l, key, now) && key == k && resetAt - ATTEMPT_WINDOW_MS <= now < resetAt then 1 else 0
  {
    hide Count, Counted, Ledgered, Spent;
    CountGrant(s.grants, Grant(key, now), k, resetAt - ATTEMPT_WINDOW_MS, resetAt);
    SpentCounted(s.windows, l, s.clock, key, now);
    SpentLedgered(s.windows, l, s.grants, s.clock, key, now);
    if CappedIn(s, l, k, resetAt) { SpentCapped(s.windows, l, s.grants, s.clock, key, now, k, resetAt); }
  }

  /** The key has this window before the attempt or once one of its shares is spent. */
  predicate OpenDuring(s: Tally, l: Limits, a: Attempt, k: Key, resetAt: int) {
    var first := Consumed(s, l, Global, a.times.0);
    var second := Consumed(first, l, Client(a.client), a.times.1);
    || Open(s, k, resetAt) || Open(first, k, resetAt)
    || (Allows(s, l, Global, a.times.0) && Open(second, k, resetAt))
    || Open(Attempted(s, l, a), k, resetAt)
  }

  lemma AttemptedSound(s: Tally, l: Limits, a: Attempt, k: Key, resetAt: int)
    requires Sound(s, l) && InOrder(s.clock, [a])
    ensures var s' := Attempted(s, l, a);
      && Sound(s', l) && s'.clock <= a.times.2
      && (CappedIn(s, l, k, resetAt) || OpenDuring(s, l, a, k, resetAt) ==> CappedIn(s', l, k, resetAt))
      && InWindow(s'.grants, k, resetAt) >= InWindow(s.grants, k, resetAt) + Bit(Admitted(s, l, a), a, k, resetAt)
  {
    hide Sound, Consumed, CappedIn, InWindow, Allows;
    var first := Consumed(s, l, Global, a.times.0);
    var second := Consumed(first, l, Client(a.client), a.times.1);
    ConsumedSound(s, l, Global, a.times.0, k, resetAt);
    ConsumedSound(first, l, Client(a.client), a.times.1, k, resetAt);
    ConsumedSound(second, l, Credential(a.digest), a.times.2, k, resetAt);
    if Open(s, k, resetAt) { OpenCapped(s, l, k, resetAt); }
    if Open(first, k, resetAt) { OpenCapped(first, l, k, resetAt); }
    if Open(second, k, resetAt) { OpenCapped(second, l, k, resetAt); }
    if Open(Attempted(s, l, a), k, resetAt) { OpenCapped(Attempted(s, l, a), l, k, resetAt); }
  }

  /** From any tally with a cap on the window, the rest of a run stays under it. */
  lemma {:induction false} RestCapped(s: Tally, l: Limits, attempts: seq<Attempt>, k: Key, resetAt: int)
    requires Sound(s, l) && InOrder(s.clock, attempts) && CappedIn(s, l, k, resetAt)
    ensures InWindow(s.grants, k, resetAt) + AdmittedInWindow(attempts, Answers(s, l, attempts), k, resetAt) <= LimitOf(l, k)
    decreases |attempts|
  {
    hide Sound, Attempted, Admitted, LimitOf, InWindow;
    if attempts == [] {
      CapIs(s, l, k, resetAt);
    } else {
      AttemptedSound(s, l, attempts[0], k, resetAt);
      assert Answers(s, l, attempts)[1..] == Answers(Attempted(s, l, attempts[0]), l, attempts[1..]);
      RestCapped(Attempted(s, l, attempts[0]), l, attempts[1..], k, resetAt);
    }
  }

  lemma CapIs(s: Tally, l: Limits, k: Key, resetAt: int)
    requires CappedIn(s, l, k, resetAt)
    ensures InWindow(s.grants, k, resetAt) <= LimitOf(l, k)
  {
  }

  lemma {:induction false} WindowCapped(s: Tally, l: Limits, attempts: seq<Attempt>, n: nat, k: Key, resetAt: int)
    requires Sound(s, l) && InOrder(s.clock, attempts)
    requires n < |attempts| && OpenDuring(Steps(s, l, attempts[..n]), l, attempts[n], k, resetAt)
    ensures InWindow(s.grants, k, resetAt) + AdmittedInWindow(attempts, Answers(s, l, attempts), k, resetAt) <= LimitOf(l, k)
    decreases n
  {
    hide Sound, Attempted, Admitted, LimitOf, InWindow, OpenDuring, CappedIn;
    var s' := Attempted(s, l, attempts[0]);
    AttemptedSound(s, l, attempts[0], k, resetAt);
    assert Answers(s, l, attempts)[1..] == Answers(s', l, attempts[1..]);
    if n == 0 {
      RestCapped(s', l, attempts[1..], k, resetAt);
    } else {
      assert attempts[..n][1..] == attempts[1..][..n - 1];
      WindowCapped(s', l, attempts[1..], n - 1, k, resetAt);
    }
  }

  /** Of all the attempts of a run, those admitted with a key within any one of the windows it ever has
      number at most its limit. */
  lemma KeyLimit(l: Limits, attempts: seq<Attempt>, n: nat, k: Key, resetAt: int)
    requires 1 <= l.client && 1 <= l.credential && InOrder(EMPTY.clock, attempts)
    requires n < |attempts| && OpenDuring(Steps(EMPTY, l, attempts[..n]), l, attempts[n], k, resetAt)
    ensures AdmittedInWindow(attempts, Answers(EMPTY, l, attempts), k, resetAt) <= LimitOf(l, k)
  {
    WindowCapped(EMPTY, l, attempts, n, k, resetAt);
  }

  /** Every admission falls in such a window, of each key it needs. */
  lemma AdmittedOpens(s: Tally, l: Limits, a: Attempt, k: Key) returns (resetAt: int)
    requires Sound(s, l) && InOrder(s.clock, [a]) && Admitted(s, l, a) && Needs(a, k)
    ensures OpenDuring(s, l, a, k, resetAt) && resetAt - ATTEMPT_WINDOW_MS <= TimeOf(a, k) < resetAt
  {
    var first := Consumed(s, l, Global, a.times.0);
    var second := Consumed(first, l, Client(a.client), a.times.1);
    var third := Consumed(second, l, Credential(a.digest), a.times.2);
    ConsumedSound(s, l, Global, a.times.0, k, 0);
    ConsumedSound(first, l, Client(a.client), a.times.1, k, 0);
    hide Sound;
    match k
    case Global => AllowedOpens(s, l, k, a.times.0); resetAt := first.windows[k].resetAt;
    case Client(_) => AllowedOpens(first, l, k, a.times.1); resetAt := second.windows[k].resetAt;
    case Credential(_) => AllowedOpens(second, l, k, a.times.2); resetAt := third.windows[k].resetAt;
  }

  lemma AllowedOpens(s: Tally, l: Limits, k: Key, now: int)
    requires Sound(s, l) && s.clock <= now && Allows(s, l, k, now)
    ensures var s' := Consumed(s, l, k, now);
      k in s'.windows && s'.windows[k].resetAt - ATTEMPT_WINDOW_MS <= now < s'.windows[k].resetAt
  {
  }

  // ---- An attempt below its limits is admitted ---------------------------------------------------

  /** The attempts that needed the key since then, whether they were admitted or not. */
  function Asked(attempts: seq<Attempt>, key: Key, since: int): nat {
    if attempts == [] then 0
    else Asked(attempts[1..], key, since) + if Needs(attempts[0], key) && TimeOf(attempts[0], key) >= since then 1 else 0
  }

  /** The shares of the key that were granted since then. */
  function Since(grants: seq<Grant>, key: Key, since: int): nat {
    if grants == [] then 0
    else
      var last := grants[|grants| - 1];
      Since(grants[..|grants| - 1], key, since) + if last.key == key && last.time >= since then 1 else 0
  }

  lemma {:induction false} CountSince(grants: seq<Grant>, key: Key, from: int, to: int, since: int)
    requires since <= from
    ensures Count(grants, key, from, to) <= Since(grants, key, since)
  {
    if grants != [] { CountSince(grants[..|grants| - 1], key, from, to, since); }
  }

  lemma SinceGrant(grants: seq<Grant>, g: Grant, key: Key, since: int)
    ensures Since(grants + [g], key, since) == Since(grants, key, since) + if g.key == key && g.time >= since then 1 else 0
  {
    assert (grants + [g])[..|grants|] == grants;
  }

  /** A share is granted when fewer than its limit were in the last minute. */
  lemma AllowsWhenFew(s: Tally, l: Limits, key: Key, now: int)
    requires Sound(s, l) && s.clock <= now && Since(s.grants, key, now - ATTEMPT_WINDOW_MS + 1) < LimitOf(l, key)
    ensures Allows(s, l, key, now)
  {
    hide LimitOf, Count, Since;
    if key in s.windows && s.windows[key].resetAt > now {
      var resetAt := s.windows[key].resetAt;
      CountSince(s.grants, key, resetAt - ATTEMPT_WINDOW_MS, resetAt, now - ATTEMPT_WINDOW_MS + 1);
    }
  }

  lemma ConsumedSince(s: Tally, l: Limits, key: Key, now: int, other: Key, since: int)
    ensures Since(Consumed(s, l, key, now).grants, other, since) >= Since(s.grants, other, since)
    ensures Since(Consumed(s, l, key, now).grants, other, since)
            <= Since(s.grants, other, since) + if other == key && now >= since then 1 else 0
  {
    hide Spent, LimitOf, Admits;
    SinceGrant(s.grants, Grant(key, now), other, since);
  }

  /** Each attempt takes at most one share of a key it needs, and none of another. */
  lemma AttemptedAsks(s: Tally, l: Limits, a: Attempt, key: Key, since: int)
    ensures Since(Attempted(s, l, a).grants, key, since)
            <= Since(s.grants, key, since) + if Needs(a, key) && TimeOf(a, key) >= since then 1 else 0
  {
    hide Since, Consumed, Allows;
    var first := Consumed(s, l, Global, a.times.0);
    var second := Consumed(first, l, Client(a.client), a.times.1);
    ConsumedSince(s, l, Global, a.times.0, key, since);
    ConsumedSince(first, l, Client(a.client), a.times.1, key, since);
    ConsumedSince(second, l, Credential(a.digest), a.times.2, key, since);
  }

  lemma {:induction false} StepsAsk(s: Tally, l: Limits, attempts: seq<Attempt>, key: Key, since: int)
    ensures Since(Steps(s, l, attempts).grants, key, since) <= Since(s.grants, key, since) + Asked(attempts, key, since)
    decreases |attempts|
  {
    hide Attempted, Since;
    if attempts != [] {
      AttemptedAsks(s, l, attempts[0], key, since);
      StepsAsk(Attempted(s, l, attempts[0]), l, attempts[1..], key, since);
    }
  }

  lemma {:induction false} StepsSound(s: Tally, l: Limits, attempts: seq<Attempt>, n: nat)
    requires Sound(s, l) && InOrder(s.clock, attempts) && n < |attempts|
    ensures Sound(Steps(s, l, attempts[..n]), l) && InOrder(Steps(s, l, attempts[..n]).clock, [attempts[n]])
    ensures Answers(s, l, attempts)[n] == Admitted(Steps(s, l, attempts[..n]), l, attempts[n])
    decreases n
  {
    hide Sound, Attempted, Admitted;
    if n > 0 {
      var s' := Attempted(s, l, attempts[0]);
      AttemptedSound(s, l, attempts[0], Global, 0);
      assert attempts[..n][1..] == attempts[1..][..n - 1];
      StepsSound(s', l, attempts[1..], n - 1);
    }
  }

  /** The attempt needs this key, and in the last minute fewer attempts than its limit did. */
  predicate Below(l: Limits, attempts: seq<Attempt>, n: nat, key: Key)
    requires n < |attempts|
  {
    Asked(attempts[..n], key, TimeOf(attempts[n], key) - ATTEMPT_WINDOW_MS + 1) < LimitOf(l, key)
  }

  /** Over any run, an attempt is answered yes if in the last minute each of its keys was needed by fewer attempts
      than its limit. */
  lemma BelowIsAdmitted(l: Limits, attempts: seq<Attempt>, n: nat)
    requires 1 <= l.client && 1 <= l.credential && InOrder(EMPTY.clock, attempts) && n < |attempts|
    requires forall key :: Needs(attempts[n], key) ==> Below(l, attempts, n, key)
    ensures Answers(EMPTY, l, attempts)[n]
  {
    hide Sound, Attempted;
    EmptySound(l);
    StepsSound(EMPTY, l, attempts, n);
    FewBefore(l, attempts, n, Global);
    FewBefore(l, attempts, n, Client(attempts[n].client));
    FewBefore(l, attempts, n, Credential(attempts[n].digest));
    hide Steps, Below;
    FewAdmits(Steps(EMPTY, l, attempts[..n]), l, attempts[n]);
  }

  predicate Few(s: Tally, l: Limits, a: Attempt, key: Key) {
    Since(s.grants, key, TimeOf(a, key) - ATTEMPT_WINDOW_MS + 1) < LimitOf(l, key)
  }

  lemma FewAdmits(s: Tally, l: Limits, a: Attempt)
    requires Sound(s, l) && InOrder(s.clock, [a])
    requires Few(s, l, a, Global) && Few(s, l, a, Client(a.client)) && Few(s, l, a, Credential(a.digest))
    ensures Admitted(s, l, a)
  {
    hide Sound, Consumed, Allows, Since, LimitOf;
    var first := Consumed(s, l, Global, a.times.0);
    var second := Consumed(first, l, Client(a.client), a.times.1);
    ConsumedSound(s, l, Global, a.times.0, Global, 0);
    ConsumedSound(first, l, Client(a.client), a.times.1, Global, 0);
    ConsumedSince(s, l, Global, a.times.0, Client(a.client), a.times.1 - ATTEMPT_WINDOW_MS + 1);
    ConsumedSince(s, l, Global, a.times.0, Credential(a.digest), a.times.2 - ATTEMPT_WINDOW_MS + 1);
    ConsumedSince(first, l, Client(a.client), a.times.1, Credential(a.digest), a.times.2 - ATTEMPT_WINDOW_MS + 1);
    AllowsWhenFew(s, l, Global, a.times.0);
    AllowsWhenFew(first, l, Client(a.client), a.times.1);
    AllowsWhenFew(second, l, Credential(a.digest), a.times.2);
  }

  lemma EmptySound(l: Limits)
    requires 1 <= l.client && 1 <= l.credential
    ensures Sound(EMPTY, l)
  {
  }

  lemma FewBefore(l: Limits, attempts: seq<Attempt>, n: nat, key: Key)
    requires n < |attempts| && Below(l, attempts, n, key)
    ensures Few(Steps(EMPTY, l, attempts[..n]), l, attempts[n], key)
  {
    StepsAsk(EMPTY, l, attempts[..n], key, TimeOf(attempts[n], key) - ATTEMPT_WINDOW_MS + 1);
  }

  // ---- The two maps ------------------------------------------------------------------------------

  /** A run of attempts on one map: the answers and the map are those of the steps, and the map never
      holds more than 401 keys. */
  method Run(limiter: AttemptLimiter, attempts: seq<Attempt>) returns (answers: seq<bool>)
    requires limiter.Valid() && InOrder(limiter.clock, attempts)
    modifies limiter
    ensures limiter.Valid() && limiter.View() == Steps(old(limiter.View()), limiter.limits, attempts)
    ensures answers == Answers(old(limiter.View()), limiter.limits, attempts)
    ensures |limiter.windows| <= 401
    decreases |attempts|
  {
    if attempts == [] {
      limiter.FewKeys();
      return [];
    }
    ghost var was := limiter.View();
    var first := limiter.Attempt(attempts[0]);
    AttemptedClock(was, limiter.limits, attempts[0]);
    var rest := Run(limiter, attempts[1..]);
    return [first] + rest;
  }

  lemma AttemptedClock(s: Tally, l: Limits, a: Attempt)
    requires InOrder(s.clock, [a])
    ensures Attempted(s, l, a).clock <= a.times.2
  {
  }

  /** Both maps of the program, from empty and each over any run of its own: enrolment admits 5 a client
      and credential in each of their windows, renewal 6 a client and 8 a device. */
  method RunBoth(enrolments: seq<Attempt>, renewals: seq<Attempt>) returns (enrolled: seq<bool>, renewed: seq<bool>)
    requires InOrder(EMPTY.clock, enrolments) && InOrder(EMPTY.clock, renewals)
    ensures enrolled == Answers(EMPTY, ENROLMENT, enrolments) && renewed == Answers(EMPTY, RENEWAL, renewals)
    ensures forall n, k, resetAt ::
      0 <= n < |enrolments| && k != Global && OpenDuring(Steps(EMPTY, ENROLMENT, enrolments[..n]), ENROLMENT, enrolments[n], k, resetAt) ==>
        AdmittedInWindow(enrolments, enrolled, k, resetAt) <= 5
    ensures forall n, k, resetAt ::
      0 <= n < |renewals| && k != Global && OpenDuring(Steps(EMPTY, RENEWAL, renewals[..n]), RENEWAL, renewals[n], k, resetAt) ==>
        AdmittedInWindow(renewals, renewed, k, resetAt) <= if k.Client? then 6 else 8
  {
    var limiter := new AttemptLimiter(ENROLMENT);
    enrolled := Run(limiter, enrolments);
    limiter := new AttemptLimiter(RENEWAL);
    renewed := Run(limiter, renewals);
    forall n, k, resetAt | 0 <= n < |enrolments| && k != Global
                           && OpenDuring(Steps(EMPTY, ENROLMENT, enrolments[..n]), ENROLMENT, enrolments[n], k, resetAt)
      ensures AdmittedInWindow(enrolments, enrolled, k, resetAt) <= 5
    {
      KeyLimit(ENROLMENT, enrolments, n, k, resetAt);
    }
    forall n, k, resetAt | 0 <= n < |renewals| && k != Global
                           && OpenDuring(Steps(EMPTY, RENEWAL, renewals[..n]), RENEWAL, renewals[n], k, resetAt)
      ensures AdmittedInWindow(renewals, renewed, k, resetAt) <= if k.Client? then 6 else 8
    {
      KeyLimit(RENEWAL, renewals, n, k, resetAt);
    }
  }
}
