/**
 The approval queues of one chat socket. Only the head of a session's queue has been shown to the user;
 an answer claims it, and the upstream's reply consumes it or gives it back. Ids are numbers in order of
 arrival; the leases a session routes to are parameters of the steps that look them up.
 */
module ApprovalQueues {
  import opened Outcomes

  const MAX_SESSIONS := 128

  type Id = nat
  type Key = string       // a live session
  type Token = nat        // its lease
  type Request = nat      // one `approval.respond` frame in flight

  datatype State = Pending | Claimed

  datatype Shown = Shown(at: int, order: nat, expires: int)

  datatype Approval = Approval(id: Id, lease: Token, choices: set<string>, state: State, shown: Option<Shown>)

  datatype Claim = Claim(key: Key, id: Id)

  type Queues = map<Key, seq<Approval>>

  /** The queues and counters, the requests in flight, and what the history needs: whose approvals were
      whose, which were shown in which order, which left, and which of those were consumed. */
  datatype Desk = Desk(
    queues: Queues, chronology: nat, next: Id, claims: map<Request, Claim>,
    home: map<Id, Key>, log: seq<Id>, gone: set<Id>, consumed: set<Id>)

  datatype Limits = Limits(maxQueue: nat, ttl: nat)

  // ---- The invariant -----------------------------------------------------------------------------

  /** One lease, ids in order of arrival, and exactly the head shown. */
  ghost predicate Lined(q: seq<Approval>, key: Key, home: map<Id, Key>, chronology: nat) {
    && q != [] && q[0].shown.Some? && q[0].shown.value.order <= chronology
    && (forall i :: 0 <= i < |q| ==> q[i].lease == q[0].lease && q[i].id in home && home[q[i].id] == key)
    && (forall i :: 0 < i < |q| ==> q[i].shown.None? && q[i].state == Pending)
    && (forall i, j :: 0 <= i < j < |q| ==> q[i].id < q[j].id)
  }

  ghost predicate AllLined(queues: Queues, home: map<Id, Key>, chronology: nat) {
    forall k :: k in queues ==> Lined(queues[k], k, home, chronology)
  }

  /** Within a session, what was shown was shown once each, in order of arrival, and nothing behind the head yet. */
  ghost predicate ShownInOrder(log: seq<Id>, queues: Queues, home: map<Id, Key>) {
    && (forall i :: 0 <= i < |log| ==> log[i] in home)
    && (forall i, j :: 0 <= i < j < |log| && log[i] in home && log[j] in home && home[log[i]] == home[log[j]] ==> log[i] < log[j])
    && (forall i, k :: 0 <= i < |log| && k in queues && queues[k] != [] && log[i] in home && home[log[i]] == k ==>
          log[i] <= queues[k][0].id)
  }

  predicate Holds(claims: map<Request, Claim>, id: Id) {
    exists r :: r in claims && claims[r].id == id
  }

  /** No two requests hold the same approval; a head is claimed exactly when one holds it. */
  ghost predicate ClaimedOnce(claims: map<Request, Claim>, queues: Queues, home: map<Id, Key>) {
    && (forall r :: r in claims ==> claims[r].id in home && home[claims[r].id] == claims[r].key)
    && (forall r, r' :: r in claims && r' in claims && r != r' ==> claims[r].id != claims[r'].id)
    && (forall k, i :: k in queues && 0 <= i < |queues[k]| ==> (queues[k][i].state == Claimed <==> Holds(claims, queues[k][i].id)))
  }

  /** What has left a queue, consumed or not, is in none. */
  ghost predicate GoneForGood(gone: set<Id>, consumed: set<Id>, queues: Queues, home: map<Id, Key>) {
    && consumed <= gone && gone <= home.Keys
    && (forall k, i :: k in queues && 0 <= i < |queues[k]| ==> queues[k][i].id !in gone)
  }

  ghost predicate Numbered(home: map<Id, Key>, next: Id) {
    forall id: Id :: id in home <==> id < next
  }

  ghost predicate Sound(d: Desk) {
    && AllLined(d.queues, d.home, d.chronology) && ShownInOrder(d.log, d.queues, d.home)
    && ClaimedOnce(d.claims, d.queues, d.home) && GoneForGood(d.gone, d.consumed, d.queues, d.home) && Numbered(d.home, d.next)
  }

  // ---- The steps ---------------------------------------------------------------------------------

  function Ids(q: seq<Approval>): set<Id> {
    set i | 0 <= i < |q| :: q[i].id
  }

  function Dropped(d: Desk, k: Key): Desk {
    if k in d.queues then d.(queues := d.queues - {k}, gone := d.gone + Ids(d.queues[k])) else d
  }

  /** The head of a queue is shown, as the next event of the socket's chronology. */
  function Activated(d: Desk, k: Key, l: Limits, now: int): Desk
    requires k in d.queues && d.queues[k] != []
  {
    var head := d.queues[k][0];
    d.(queues := d.queues[k := [head.(shown := Some(Shown(now, d.chronology + 1, now + l.ttl)), state := Pending)] + d.queues[k][1..]],
       chronology := d.chronology + 1, log := d.log + [head.id])
  }

  /** The head leaves; the approval behind it is shown. */
  function HeadLeft(d: Desk, k: Key, consumed: bool, l: Limits, now: int): Desk
    requires k in d.queues && d.queues[k] != []
  {
    var head := d.queues[k][0];
    var left := d.(gone := d.gone + {head.id}, consumed := if consumed then d.consumed + {head.id} else d.consumed);
    if |d.queues[k]| == 1 then left.(queues := d.queues - {k})
    else Activated(left.(queues := d.queues[k := d.queues[k][1..]]), k, l, now)
  }

  function Queued(d: Desk, k: Key, lease: Token, choices: set<string>): Desk {
    var queue := if k in d.queues then d.queues[k] else [];
    d.(queues := d.queues[k := queue + [Approval(d.next, lease, choices, Pending, None)]],
       home := d.home[d.next := k], next := d.next + 1)
  }

  predicate SameLease(d: Desk, k: Key, lease: Token) {
    k in d.queues && d.queues[k] != [] && d.queues[k][0].lease == lease
  }

  predicate Overflows(d: Desk, k: Key, lease: Token, l: Limits) {
    (k !in d.queues && |d.queues| >= MAX_SESSIONS) || (if SameLease(d, k, lease) then |d.queues[k]| else 0) >= l.maxQueue
  }

  /** An approval request arrives for a session routed to the lease; a queue left by another lease is dropped. */
  function Arrived(d: Desk, k: Key, lease: Token, choices: set<string>, l: Limits, now: int): Desk {
    if Overflows(d, k, lease, l) then d
    else if SameLease(d, k, lease) then Queued(d, k, lease, choices)
    else Activated(Queued(Dropped(d, k), k, lease, choices), k, l, now)
  }

  /** An `approval.respond` frame, with when and as which event of the chronology it was received. */
  datatype Answer = Answer(id: Id, choice: string, at: int, order: nat)

  predicate Acceptable(head: Approval, a: Answer) {
    && head.shown.Some? && head.id == a.id && head.state == Pending
    && head.shown.value.order <= a.order && head.shown.value.at <= a.at < head.shown.value.expires && a.choice in head.choices
  }

  predicate HasHead(d: Desk, k: Key) {
    k in d.queues && d.queues[k] != []
  }

  predicate Claims(d: Desk, k: Key, live: Option<Token>, a: Answer) {
    HasHead(d, k) && live == Some(d.queues[k][0].lease) && Acceptable(d.queues[k][0], a)
  }

  function Taken(d: Desk, r: Request, k: Key): Desk
    requires HasHead(d, k)
  {
    d.(queues := d.queues[k := [d.queues[k][0].(state := Claimed)] + d.queues[k][1..]],
       claims := d.claims[r := Claim(k, d.queues[k][0].id)])
  }

  /** The answer is processed, possibly long after it was received. `routing` is the lease the session is
      routed to, `live` the same unless it is being closed. */
  function Answered(d: Desk, r: Request, k: Key, routing: Option<Token>, live: Option<Token>, a: Answer, l: Limits, now: int): Desk {
    if Claims(d, k, live, a) then Taken(d, r, k)
    else
      var expired := HasHead(d, k) && d.queues[k][0].id == a.id && d.queues[k][0].shown.Some? && d.queues[k][0].shown.value.expires <= a.at;
      if !HasHead(d, k) || routing != Some(d.queues[k][0].lease) then Dropped(d, k)
      else if expired then HeadLeft(d, k, false, l, now)
      else d
  }

  predicate HoldsHead(d: Desk, c: Claim) {
    HasHead(d, c.key) && d.queues[c.key][0].id == c.id && d.queues[c.key][0].state == Claimed
  }

  /** The request ends: its approval is consumed, given back, or found expired. */
  function Finished(d: Desk, r: Request, accepted: bool, closed: bool, l: Limits, now: int): Desk {
    if r !in d.claims then d
    else
      var c := d.claims[r];
      var rest := d.(claims := d.claims - {r});
      if !HoldsHead(d, c) || (!accepted && closed) then rest
      else if accepted then HeadLeft(rest, c.key, true, l, now)
      else
        var head := d.queues[c.key][0];
        if head.shown.Some? && head.shown.value.expires > now then
          rest.(queues := d.queues[c.key := [head.(state := Pending)] + d.queues[c.key][1..]])
        else HeadLeft(rest, c.key, false, l, now)
  }

  // ---- Every step keeps the desk sound -----------------------------------------------------------

  lemma DroppedSound(d: Desk, k: Key)
    requires Sound(d)
    ensures Sound(Dropped(d, k))
  {
    if k in d.queues {
      forall i | 0 <= i < |d.queues[k]| ensures d.queues[k][i].id in d.home { assert Lined(d.queues[k], k, d.home, d.chronology); }
      forall k', i | k' in d.queues && k' != k && 0 <= i < |d.queues[k']| ensures d.queues[k'][i].id !in Ids(d.queues[k]) {
        assert Lined(d.queues[k], k, d.home, d.chronology) && Lined(d.queues[k'], k', d.home, d.chronology);
      }
    }
  }

  /** One queue is rewritten in place: the other sessions are unaffected. */
  lemma RequeuedLined(queues: Queues, k: Key, q: seq<Approval>, home: map<Id, Key>, before: nat, after: nat)
    requires AllLined(queues, home, before) && before <= after && Lined(q, k, home, after)
    ensures AllLined(queues[k := q], home, after)
  {
    forall k' | k' in queues && k' != k ensures Lined(queues[k'], k', home, after) {
      assert Lined(queues[k'], k', home, before);
    }
  }

  function Promoted(q: seq<Approval>, shown: Shown): seq<Approval>
    requires |q| > 1
  {
    [q[1].(shown := Some(shown), state := Pending)] + q[2..]
  }

  /** The approval behind the head, shown in its turn. */
  lemma NextLined(q: seq<Approval>, k: Key, home: map<Id, Key>, chronology: nat, shown: Shown)
    requires Lined(q, k, home, chronology) && |q| > 1 && shown.order == chronology + 1
    ensures Lined(Promoted(q, shown), k, home, chronology + 1)
  {
    var q' := Promoted(q, shown);
    assert forall i :: 1 <= i < |q'| ==> q'[i] == q[i + 1];
    assert q'[0].id == q[1].id;
  }

  lemma NextShown(log: seq<Id>, queues: Queues, k: Key, q: seq<Approval>, home: map<Id, Key>)
    requires ShownInOrder(log, queues, home) && k in queues && queues[k] != []
    requires q != [] && q[0].id in home && home[q[0].id] == k && queues[k][0].id < q[0].id
    ensures ShownInOrder(log + [q[0].id], queues[k := q], home)
  {
  }

  lemma LeftShown(log: seq<Id>, queues: Queues, k: Key, home: map<Id, Key>)
    requires ShownInOrder(log, queues, home)
    ensures ShownInOrder(log, queues - {k}, home)
  {
  }

  lemma LeftClaims(claims: map<Request, Claim>, queues: Queues, k: Key, q: seq<Approval>, home: map<Id, Key>)
    requires ClaimedOnce(claims, queues, home)
    requires k in queues && |q| < |queues[k]|
    requires forall i :: 0 <= i < |q| ==> q[i].id == queues[k][i + 1].id && q[i].state == queues[k][i + 1].state
    ensures ClaimedOnce(claims, queues[k := q], home) && ClaimedOnce(claims, queues - {k}, home)
  {
  }

  lemma LeftGone(d: Desk, k: Key, consumed: bool, q: seq<Approval>)
    requires GoneForGood(d.gone, d.consumed, d.queues, d.home) && AllLined(d.queues, d.home, d.chronology) && k in d.queues
    requires |q| < |d.queues[k]| && forall i :: 0 <= i < |q| ==> q[i].id == d.queues[k][i + 1].id
    ensures d.queues[k] != []
    ensures var id := d.queues[k][0].id;
      var consumed' := if consumed then d.consumed + {id} else d.consumed;
      GoneForGood(d.gone + {id}, consumed', d.queues[k := q], d.home) && GoneForGood(d.gone + {id}, consumed', d.queues - {k}, d.home)
  {
    assert Lined(d.queues[k], k, d.home, d.chronology);
    forall k', i | k' in d.queues && k' != k && 0 <= i < |d.queues[k']| ensures d.queues[k'][i].id != d.queues[k][0].id {
      assert Lined(d.queues[k'], k', d.home, d.chronology);
    }
  }

  lemma PromotedIs(d: Desk, k: Key, consumed: bool, l: Limits, now: int)
    requires HasHead(d, k) && |d.queues[k]| > 1
    ensures var id := d.queues[k][0].id;
      HeadLeft(d, k, consumed, l, now) ==
        d.(queues := d.queues[k := Promoted(d.queues[k], Shown(now, d.chronology + 1, now + l.ttl))],
           gone := d.gone + {id}, consumed := if consumed then d.consumed + {id} else d.consumed,
           chronology := d.chronology + 1, log := d.log + [d.queues[k][1].id])
  {
    var q := d.queues[k];
    assert q[1..][0] == q[1] && q[1..][1..] == q[2..];
    var q' := Promoted(q, Shown(now, d.chronology + 1, now + l.ttl));
    assert d.queues[k := q[1..]][k := q'] == d.queues[k := q'];
  }

  lemma HeadOf(d: Desk, k: Key)
    requires AllLined(d.queues, d.home, d.chronology) && HasHead(d, k)
    ensures Lined(d.queues[k], k, d.home, d.chronology)
    ensures |d.queues[k]| > 1 ==>
      && d.queues[k][0].id < d.queues[k][1].id && d.queues[k][1].id in d.home && d.home[d.queues[k][1].id] == k
      && d.queues[k][1].state == Pending
  {
  }

  lemma PromotedIds(q: seq<Approval>, shown: Shown)
    requires |q| > 1 && q[1].state == Pending
    ensures var q' := Promoted(q, shown);
      |q'| == |q| - 1 && forall i :: 0 <= i < |q'| ==> q'[i].id == q[i + 1].id && q'[i].state == q[i + 1].state
  {
  }

  lemma HeadLeftSound(d: Desk, k: Key, consumed: bool, l: Limits, now: int)
    requires Sound(d) && HasHead(d, k)
    ensures Sound(HeadLeft(d, k, consumed, l, now))
  {
    hide AllLined, Lined, ClaimedOnce, GoneForGood, ShownInOrder, Promoted;
    HeadOf(d, k);
    var q := d.queues[k];
    if |q| == 1 {
      LinedWithout(d.queues, k, d.home, d.chronology);
      LeftShown(d.log, d.queues, k, d.home);
      LeftClaims(d.claims, d.queues, k, [], d.home);
      LeftGone(d, k, consumed, []);
    } else {
      hide HeadLeft;
      var shown := Shown(now, d.chronology + 1, now + l.ttl);
      var q' := Promoted(q, shown);
      PromotedIs(d, k, consumed, l, now);
      PromotedIds(q, shown);
      NextLined(q, k, d.home, d.chronology, shown);
      NextShown(d.log, d.queues, k, q', d.home);
      RequeuedLined(d.queues, k, q', d.home, d.chronology, d.chronology + 1);
      LeftClaims(d.claims, d.queues, k, q', d.home);
      LeftGone(d, k, consumed, q');
    }
  }

  lemma LinedWithout(queues: Queues, k: Key, home: map<Id, Key>, chronology: nat)
    requires AllLined(queues, home, chronology)
    ensures AllLined(queues - {k}, home, chronology)
  {
  }

  // ---- Arrivals ----------------------------------------------------------------------------------

  /** A session's first approval, shown at once. */
  lemma FirstArrivedSound(d: Desk, k: Key, lease: Token, choices: set<string>, l: Limits, now: int)
    requires Sound(d) && k !in d.queues
    ensures Sound(Activated(Queued(d, k, lease, choices), k, l, now))
  {
    var d' := Activated(Queued(d, k, lease, choices), k, l, now);
    assert d'.queues[k] == [Approval(d.next, lease, choices, Pending, Some(Shown(now, d.chronology + 1, now + l.ttl)))];
    assert d'.queues == d.queues[k := d'.queues[k]];
    assert d'.log == d.log + [d.next];
    hide Activated;
    FirstLined(d, k, d'.queues[k], d'.home);
    FirstShown(d, k, d'.queues[k], d'.home);
    FirstClaims(d, k, d'.queues[k], d'.home);
    assert forall k', i :: k' in d.queues && 0 <= i < |d.queues[k']| ==> d.queues[k'][i].id !in d.gone;
  }

  lemma FirstLined(d: Desk, k: Key, q: seq<Approval>, home: map<Id, Key>)
    requires Sound(d) && k !in d.queues && |q| == 1 && q[0].id == d.next && home == d.home[d.next := k]
    requires q[0].shown.Some? && q[0].shown.value.order == d.chronology + 1
    ensures AllLined(d.queues[k := q], home, d.chronology + 1)
  {
    forall k' | k' in d.queues ensures Lined(d.queues[k'], k', home, d.chronology + 1) {
      assert Lined(d.queues[k'], k', d.home, d.chronology);
    }
  }

  lemma FirstShown(d: Desk, k: Key, q: seq<Approval>, home: map<Id, Key>)
    requires Sound(d) && k !in d.queues && |q| == 1 && q[0].id == d.next && home == d.home[d.next := k]
    ensures ShownInOrder(d.log + [d.next], d.queues[k := q], home)
  {
  }

  lemma FirstClaims(d: Desk, k: Key, q: seq<Approval>, home: map<Id, Key>)
    requires Sound(d) && k !in d.queues && |q| == 1 && q[0].id == d.next && q[0].state == Pending && home == d.home[d.next := k]
    ensures ClaimedOnce(d.claims, d.queues[k := q], home)
  {
  }

  /** One more approval behind a head that has the same lease. */
  lemma QueuedSound(d: Desk, k: Key, lease: Token, choices: set<string>)
    requires Sound(d) && SameLease(d, k, lease)
    ensures Sound(Queued(d, k, lease, choices))
  {
    var q, q' := d.queues[k], d.queues[k] + [Approval(d.next, lease, choices, Pending, None)];
    var home := d.home[d.next := k];
    assert Lined(q, k, d.home, d.chronology);
    assert !Holds(d.claims, d.next);
    QueuedLined(d.queues, k, q', d.home, d.next, d.chronology);
    hide Lined, AllLined;
    QueuedShown(d.log, d.queues, k, q', d.home, d.next);
    QueuedClaims(d.claims, d.queues, k, q', d.home, d.next);
    hide ShownInOrder, ClaimedOnce;
  }

  lemma QueuedLined(queues: Queues, k: Key, q': seq<Approval>, home: map<Id, Key>, next: Id, chronology: nat)
    requires AllLined(queues, home, chronology) && Numbered(home, next) && HasQueue(queues, k, q') && q'[|q'| - 1].id == next
    requires q'[|q'| - 1].lease == q'[0].lease && q'[|q'| - 1].shown.None? && q'[|q'| - 1].state == Pending
    ensures AllLined(queues[k := q'], home[next := k], chronology)
  {
    assert Lined(queues[k], k, home, chronology);
    forall k' | k' in queues && k' != k ensures Lined(queues[k'], k', home[next := k], chronology) {
      assert Lined(queues[k'], k', home, chronology);
    }
    assert forall i :: 0 <= i < |q'| - 1 ==> q'[i] == queues[k][i];
  }

  predicate HasQueue(queues: Queues, k: Key, q': seq<Approval>) {
    k in queues && queues[k] != [] && |q'| == |queues[k]| + 1 && q'[..|q'| - 1] == queues[k]
  }

  lemma QueuedShown(log: seq<Id>, queues: Queues, k: Key, q': seq<Approval>, home: map<Id, Key>, next: Id)
    requires ShownInOrder(log, queues, home) && Numbered(home, next) && HasQueue(queues, k, q')
    ensures ShownInOrder(log, queues[k := q'], home[next := k])
  {
    assert q'[0] == q'[..|q'| - 1][0];
  }

  lemma QueuedClaims(claims: map<Request, Claim>, queues: Queues, k: Key, q': seq<Approval>, home: map<Id, Key>, next: Id)
    requires ClaimedOnce(claims, queues, home) && Numbered(home, next) && HasQueue(queues, k, q')
    requires q'[|q'| - 1].id == next && q'[|q'| - 1].state == Pending && !Holds(claims, next)
    ensures ClaimedOnce(claims, queues[k := q'], home[next := k])
  {
    assert forall i :: 0 <= i < |q'| - 1 ==> q'[i] == q'[..|q'| - 1][i];
  }

  lemma ArrivedSound(d: Desk, k: Key, lease: Token, choices: set<string>, l: Limits, now: int)
    requires Sound(d)
    ensures Sound(Arrived(d, k, lease, choices, l, now))
  {
    hide Sound, Overflows, Activated, Queued;
    if !Overflows(d, k, lease, l) {
      if SameLease(d, k, lease) {
        QueuedSound(d, k, lease, choices);
      } else {
        DroppedSound(d, k);
        FirstArrivedSound(Dropped(d, k), k, lease, choices, l, now);
      }
    }
  }

  // ---- Claims ------------------------------------------------------------------------------------

  /** The head of a queue in another state, everything else as it is. */
  function Restated(d: Desk, k: Key, state: State): Queues
    requires HasHead(d, k)
  {
    d.queues[k := [d.queues[k][0].(state := state)] + d.queues[k][1..]]
  }

  lemma RestatedIds(d: Desk, k: Key, state: State)
    requires HasHead(d, k)
    ensures forall k' :: k' in d.queues ==> k' in Restated(d, k, state) && |Restated(d, k, state)[k']| == |d.queues[k']|
    ensures forall k', i :: k' in d.queues && 0 <= i < |d.queues[k']| ==> Restated(d, k, state)[k'][i].id == d.queues[k'][i].id
    ensures Restated(d, k, state).Keys == d.queues.Keys
  {
  }

  lemma RestatedLined(d: Desk, k: Key, state: State)
    requires AllLined(d.queues, d.home, d.chronology) && HasHead(d, k)
    ensures AllLined(Restated(d, k, state), d.home, d.chronology)
  {
    var q, q' := d.queues[k], Restated(d, k, state)[k];
    assert forall i :: 1 <= i < |q'| ==> q'[i] == q[i];
    assert Lined(q, k, d.home, d.chronology);
    assert Lined(q', k, d.home, d.chronology);
    hide Lined, AllLined;
    RequeuedLined(d.queues, k, q', d.home, d.chronology, d.chronology);
  }

  lemma RestatedKeeps(d: Desk, k: Key, state: State)
    requires Sound(d) && HasHead(d, k)
    ensures AllLined(Restated(d, k, state), d.home, d.chronology) && ShownInOrder(d.log, Restated(d, k, state), d.home)
    ensures GoneForGood(d.gone, d.consumed, Restated(d, k, state), d.home)
  {
    RestatedLined(d, k, state);
    hide Lined, AllLined, ClaimedOnce;
    RestatedIds(d, k, state);
    hide Restated;
  }

  lemma TakenClaims(d: Desk, r: Request, k: Key)
    requires Sound(d) && HasHead(d, k) && d.queues[k][0].state == Pending && r !in d.claims
    ensures ClaimedOnce(d.claims[r := Claim(k, d.queues[k][0].id)], Restated(d, k, Claimed), d.home)
  {
    var head := d.queues[k][0];
    var claims := d.claims[r := Claim(k, head.id)];
    var queues: Queues := Restated(d, k, Claimed);
    assert !Holds(d.claims, head.id);
    assert claims[r].id == head.id;
    assert Lined(d.queues[k], k, d.home, d.chronology);
    forall k', i | k' in queues && 0 <= i < |queues[k']|
      ensures queues[k'][i].state == Claimed <==> Holds(claims, queues[k'][i].id)
    {
      var a := d.queues[k'][i];
      assert queues[k'][i].id == a.id;
      assert Lined(d.queues[k'], k', d.home, d.chronology);
      if k' != k || i > 0 {
        assert a.id != head.id && queues[k'][i] == a;
        HoldsAfter(d.claims, r, Claim(k, head.id), a.id);
      }
    }
  }

  lemma HoldsAfter(claims: map<Request, Claim>, r: Request, c: Claim, id: Id)
    requires r !in claims && id != c.id
    ensures Holds(claims[r := c], id) <==> Holds(claims, id)
  {
    if Holds(claims, id) {
      var r' :| r' in claims && claims[r'].id == id;
      assert claims[r := c][r'].id == id;
    }
  }

  lemma TakenSound(d: Desk, r: Request, k: Key)
    requires Sound(d) && HasHead(d, k) && d.queues[k][0].state == Pending && r !in d.claims
    ensures Sound(Taken(d, r, k))
  {
    hide AllLined, ShownInOrder, GoneForGood, ClaimedOnce;
    RestatedKeeps(d, k, Claimed);
    TakenClaims(d, r, k);
  }

  lemma AnsweredSound(d: Desk, r: Request, k: Key, routing: Option<Token>, live: Option<Token>, a: Answer, l: Limits, now: int)
    requires Sound(d) && r !in d.claims
    ensures Sound(Answered(d, r, k, routing, live, a, l, now))
  {
    hide Sound, Taken, Dropped, HeadLeft;
    if Claims(d, k, live, a) {
      TakenSound(d, r, k);
    } else {
      DroppedSound(d, k);
      if HasHead(d, k) { HeadLeftSound(d, k, false, l, now); }
    }
  }

  /** A request that ends without its approval still in a queue leaves no trace but its claim. */
  lemma UnclaimedSound(d: Desk, r: Request)
    requires Sound(d) && r in d.claims
    requires forall k, i :: k in d.queues && 0 <= i < |d.queues[k]| ==> d.queues[k][i].id != d.claims[r].id
    ensures Sound(d.(claims := d.claims - {r}))
  {
    forall k, i | k in d.queues && 0 <= i < |d.queues[k]|
      ensures Holds(d.claims - {r}, d.queues[k][i].id) <==> Holds(d.claims, d.queues[k][i].id)
    {
      UnclaimedHolds(d.claims, r, d.queues[k][i].id);
    }
  }

  lemma UnclaimedHolds(claims: map<Request, Claim>, r: Request, id: Id)
    requires r in claims && claims[r].id != id
    ensures Holds(claims - {r}, id) <==> Holds(claims, id)
  {
    if Holds(claims, id) {
      var r' :| r' in claims && claims[r'].id == id;
      assert (claims - {r})[r'].id == id;
    }
  }

  lemma GivenBackSound(d: Desk, r: Request)
    requires Sound(d) && r in d.claims && HoldsHead(d, d.claims[r])
    ensures Sound(d.(claims := d.claims - {r}, queues := Restated(d, d.claims[r].key, Pending)))
  {
    var c := d.claims[r];
    RestatedKeeps(d, c.key, Pending);
    GivenBackClaims(d, r);
    hide AllLined, ShownInOrder, GoneForGood, ClaimedOnce;
  }

  lemma GivenBackClaims(d: Desk, r: Request)
    requires Sound(d) && r in d.claims && HoldsHead(d, d.claims[r])
    ensures ClaimedOnce(d.claims - {r}, Restated(d, d.claims[r].key, Pending), d.home)
  {
    var c := d.claims[r];
    var claims := d.claims - {r};
    var queues: Queues := Restated(d, c.key, Pending);
    assert !Holds(claims, c.id);
    assert Lined(d.queues[c.key], c.key, d.home, d.chronology);
    forall k, i | k in queues && 0 <= i < |queues[k]|
      ensures queues[k][i].state == Claimed <==> Holds(claims, queues[k][i].id)
    {
      var a := d.queues[k][i];
      assert queues[k][i].id == a.id;
      assert Lined(d.queues[k], k, d.home, d.chronology);
      if k != c.key || i > 0 {
        assert a.id != c.id && queues[k][i] == a;
        UnclaimedHolds(d.claims, r, a.id);
      }
    }
  }

  lemma NotQueued(d: Desk, r: Request)
    requires Sound(d) && r in d.claims && !HoldsHead(d, d.claims[r])
    ensures forall k, i :: k in d.queues && 0 <= i < |d.queues[k]| ==> d.queues[k][i].id != d.claims[r].id
  {
    var c := d.claims[r];
    forall k, i | k in d.queues && 0 <= i < |d.queues[k]| ensures d.queues[k][i].id != c.id {
      assert Lined(d.queues[k], k, d.home, d.chronology);
      assert d.queues[k][i].id == c.id ==> Holds(d.claims, d.queues[k][i].id);
    }
  }

  /** What has left is not claimed in any queue, and was not consumed before. */
  lemma LeavingOnce(d: Desk, k: Key, consumed: bool, l: Limits, now: int)
    requires Sound(d) && HasHead(d, k)
    ensures d.queues[k][0].id !in d.gone && d.queues[k][0].id !in d.consumed
    ensures var d' := HeadLeft(d, k, consumed, l, now);
      forall k', i :: k' in d'.queues && 0 <= i < |d'.queues[k']| ==> d'.queues[k'][i].id != d.queues[k][0].id
  {
    HeadLeftSound(d, k, consumed, l, now);
    assert d.queues[k][0].id in HeadLeft(d, k, consumed, l, now).gone;
  }

  lemma FinishedSound(d: Desk, r: Request, accepted: bool, closed: bool, l: Limits, now: int)
    requires Sound(d) && (closed ==> d.queues == map[])
    ensures Sound(Finished(d, r, accepted, closed, l, now))
    ensures r !in Finished(d, r, accepted, closed, l, now).claims
  {
    hide Sound, HeadLeft;
    if r in d.claims {
      var c := d.claims[r];
      if !HoldsHead(d, c) {
        NotQueued(d, r);
        UnclaimedSound(d, r);
      } else {
        HeadLeftSound(d, c.key, accepted, l, now);
        LeavingOnce(d, c.key, accepted, l, now);
        HeadLeftClaims(d, c.key, accepted, l, now, r);
        UnclaimedSound(HeadLeft(d, c.key, accepted, l, now), r);
        GivenBackSound(d, r);
      }
    }
  }

  /** Leaving a queue does not look at the claims. */
  lemma HeadLeftClaims(d: Desk, k: Key, consumed: bool, l: Limits, now: int, r: Request)
    requires HasHead(d, k)
    ensures var d' := HeadLeft(d, k, consumed, l, now);
      d'.claims == d.claims && HeadLeft(d.(claims := d.claims - {r}), k, consumed, l, now) == d'.(claims := d.claims - {r})
  {
  }

  // ---- Runs --------------------------------------------------------------------------------------

  datatype Op =
    | Receive
    | Arrive(k: Key, lease: Token, choices: set<string>)
    | Respond(r: Request, k: Key, routing: Option<Token>, live: Option<Token>, answer: Answer)
    | Finish(r: Request, accepted: bool)
    | Purge(k: Key)

  function Step(d: Desk, op: Op, l: Limits, now: int): Desk {
    match op
    case Receive => d.(chronology := d.chronology + 1)
    case Arrive(k, lease, choices) => Arrived(d, k, lease, choices, l, now)
    case Respond(r, k, routing, live, answer) => if r in d.claims then d else Answered(d, r, k, routing, live, answer, l, now)
    case Finish(r, accepted) => Finished(d, r, accepted, false, l, now)
    case Purge(k) => Dropped(d, k)
  }

  lemma StepSound(d: Desk, op: Op, l: Limits, now: int)
    requires Sound(d)
    ensures Sound(Step(d, op, l, now))
  {
    match op
    case Receive =>
      forall k | k in d.queues ensures Lined(d.queues[k], k, d.home, d.chronology + 1) {
        assert Lined(d.queues[k], k, d.home, d.chronology);
      }
    case Arrive(k, lease, choices) => ArrivedSound(d, k, lease, choices, l, now);
    case Respond(r, k, routing, live, answer) => if r !in d.claims { AnsweredSound(d, r, k, routing, live, answer, l, now); }
    case Finish(r, accepted) => FinishedSound(d, r, accepted, false, l, now);
    case Purge(k) => DroppedSound(d, k);
  }

  /** An answer received as event `order` at time `at` comes too early or too late for this approval. */
  predicate Stale(d: Desk, id: Id, order: nat, at: int) {
    && (forall k, i :: k in d.queues && 0 <= i < |d.queues[k]| && d.queues[k][i].id == id ==>
          match d.queues[k][i].shown
          case None => order <= d.chronology
          case Some(shown) => order < shown.order || shown.expires <= at)
    && (id >= d.next ==> order <= d.chronology)
  }

  /** Whatever was received while an approval is not yet at the head of its queue comes too early for it. */
  lemma ReceivedBeforeShown(d: Desk, id: Id, order: nat, at: int)
    requires Sound(d) && order <= d.chronology && forall k :: HasHead(d, k) ==> d.queues[k][0].id != id
    ensures Stale(d, id, order, at)
  {
    forall k, i | k in d.queues && 0 <= i < |d.queues[k]| && d.queues[k][i].id == id ensures d.queues[k][i].shown.None? {
      assert HasHead(d, k) && Lined(d.queues[k], k, d.home, d.chronology);
    }
  }

  lemma StaleAfterLeaving(d: Desk, k: Key, consumed: bool, l: Limits, now: int, id: Id, order: nat, at: int)
    requires Sound(d) && HasHead(d, k) && Stale(d, id, order, at)
    ensures Stale(HeadLeft(d, k, consumed, l, now), id, order, at)
  {
    var q := d.queues[k];
    assert Lined(q, k, d.home, d.chronology);
    if |q| > 1 {
      PromotedIs(d, k, consumed, l, now);
      var q' := Promoted(q, Shown(now, d.chronology + 1, now + l.ttl));
      assert forall i :: 1 <= i < |q'| ==> q'[i] == q[i + 1];
      hide HeadLeft;
    }
  }

  lemma StaleAfterArriving(d: Desk, k: Key, lease: Token, choices: set<string>, l: Limits, now: int, id: Id, order: nat, at: int)
    requires Sound(d) && Stale(d, id, order, at)
    ensures Stale(Arrived(d, k, lease, choices, l, now), id, order, at)
  {
    hide Sound, Overflows;
  }

  lemma StaleAfterAnswer(d: Desk, r: Request, k: Key, routing: Option<Token>, live: Option<Token>, a: Answer, l: Limits, now: int,
                         id: Id, order: nat, at: int)
    requires Sound(d) && Stale(d, id, order, at)
    ensures Stale(Answered(d, r, k, routing, live, a, l, now), id, order, at)
  {
    hide Sound, HeadLeft;
    if HasHead(d, k) { StaleAfterLeaving(d, k, false, l, now, id, order, at); }
  }

  lemma StaleAfterFinish(d: Desk, r: Request, accepted: bool, l: Limits, now: int, id: Id, order: nat, at: int)
    requires Sound(d) && Stale(d, id, order, at)
    ensures Stale(Finished(d, r, accepted, false, l, now), id, order, at)
  {
    hide Sound, HeadLeft;
    if r in d.claims && HoldsHead(d, d.claims[r]) {
      StaleAfterLeaving(d, d.claims[r].key, accepted, l, now, id, order, at);
      HeadLeftClaims(d, d.claims[r].key, accepted, l, now, r);
    }
  }

  /** Nothing that happens later makes a stale answer acceptable. */
  lemma StaleKept(d: Desk, op: Op, l: Limits, now: int, id: Id, order: nat, at: int)
    requires Sound(d) && Stale(d, id, order, at)
    ensures Stale(Step(d, op, l, now), id, order, at)
  {
    hide Sound, Arrived, Answered, Finished;
    match op
    case Receive =>
    case Arrive(k, lease, choices) => StaleAfterArriving(d, k, lease, choices, l, now, id, order, at);
    case Respond(r, k, routing, live, answer) => StaleAfterAnswer(d, r, k, routing, live, answer, l, now, id, order, at);
    case Finish(r, accepted) => StaleAfterFinish(d, r, accepted, l, now, id, order, at);
    case Purge(k) =>
  }

  function Steps(d: Desk, ops: seq<(Op, int)>, l: Limits): Desk
    decreases |ops|
  {
    if ops == [] then d else Steps(Step(d, ops[0].0, l, ops[0].1), ops[1..], l)
  }

  /** A frame received before an approval was shown, or at or after its expiry, never claims it, however
      late it is processed. */
  lemma {:induction false} StaleNeverClaims(d: Desk, ops: seq<(Op, int)>, l: Limits, k: Key, live: Option<Token>, a: Answer)
    requires Sound(d) && Stale(d, a.id, a.order, a.at)
    ensures Sound(Steps(d, ops, l)) && !Claims(Steps(d, ops, l), k, live, a)
    decreases |ops|
  {
    hide Sound, Step;
    if ops != [] {
      StepSound(d, ops[0].0, l, ops[0].1);
      StaleKept(d, ops[0].0, l, ops[0].1, a.id, a.order, a.at);
      StaleNeverClaims(Step(d, ops[0].0, l, ops[0].1), ops[1..], l, k, live, a);
    }
  }

  // ---- What becomes of an approval ---------------------------------------------------------------

  /** The approvals waiting in a session, in order. */
  function Waiting(d: Desk, k: Key): seq<Id> {
    if k in d.queues then seq(|d.queues[k]|, i requires 0 <= i < |d.queues[k]| => d.queues[k][i].id) else []
  }

  function HeadOfQueue(d: Desk, k: Key): Approval
    requires HasHead(d, k)
  {
    d.queues[k][0]
  }

  ghost predicate SameElsewhere(d: Desk, d': Desk, k: Key) {
    forall k' :: k' != k ==> (k' in d.queues <==> k' in d'.queues) && (k' in d.queues && k' in d'.queues ==> d'.queues[k'] == d.queues[k'])
  }

  /** The session's next approval is at the head now, shown as the latest event, from now until its time is up. */
  predicate JustShown(d: Desk, k: Key, l: Limits, now: int) {
    HasHead(d, k) && d.queues[k][0].shown == Some(Shown(now, d.chronology, now + l.ttl)) && d.queues[k][0].state == Pending
  }

  /** An arrival waits behind those of its lease, or is shown at once; it is turned away exactly when it would be
      one session or one approval of its session too many. */
  lemma ArrivedExactly(d: Desk, k: Key, lease: Token, choices: set<string>, l: Limits, now: int)
    requires Sound(d) && l.maxQueue >= 1
    ensures var d' := Arrived(d, k, lease, choices, l, now);
      var joins := HasHead(d, k) && d.queues[k][0].lease == lease;
      if (k !in d.queues && |d.queues.Keys| >= MAX_SESSIONS) || (joins && |Waiting(d, k)| >= l.maxQueue) then d' == d
      else
        && Waiting(d', k) == (if joins then Waiting(d, k) else []) + [d.next] && SameElsewhere(d, d', k)
        && k in d'.queues && d'.queues[k][|d'.queues[k]| - 1].choices == choices && d'.queues[k][|d'.queues[k]| - 1].lease == lease
        && (if joins then HeadOfQueue(d', k) == HeadOfQueue(d, k) else JustShown(d', k, l, now))
  {
    if k in d.queues { assert Lined(d.queues[k], k, d.home, d.chronology); }
    assert |d.queues.Keys| == |d.queues|;
    hide Sound, Queued, Activated, Dropped, SameElsewhere, JustShown;
    if HasHead(d, k) && d.queues[k][0].lease == lease {
      JoinedExactly(d, k, lease, choices);
    } else {
      FirstExactly(d, k, lease, choices, l, now);
    }
  }

  lemma JoinedExactly(d: Desk, k: Key, lease: Token, choices: set<string>)
    requires HasHead(d, k)
    ensures var d' := Queued(d, k, lease, choices);
      && Waiting(d', k) == Waiting(d, k) + [d.next] && SameElsewhere(d, d', k)
      && k in d'.queues && d'.queues[k] != [] && d'.queues[k][|d'.queues[k]| - 1] == Approval(d.next, lease, choices, Pending, None)
      && d'.queues[k][0] == d.queues[k][0]
  {
  }

  lemma FirstExactly(d: Desk, k: Key, lease: Token, choices: set<string>, l: Limits, now: int)
    ensures var d0 := Queued(Dropped(d, k), k, lease, choices);
      && k in d0.queues && d0.queues[k] != []
      && var d' := Activated(d0, k, l, now);
      && Waiting(d', k) == [d.next] && SameElsewhere(d, d', k) && JustShown(d', k, l, now)
      && |d'.queues[k]| == 1 && d'.queues[k][0].choices == choices && d'.queues[k][0].lease == lease
  {
    var d0 := Queued(Dropped(d, k), k, lease, choices);
    assert d0.queues[k] == [Approval(d.next, lease, choices, Pending, None)];
  }

  /** An answer claims the approval exactly when it is the one shown, nobody else has claimed it, the session is
      live, the answer came after it was shown and before its time was up, and its choice was offered. One that
      came too late takes the approval off, one for another lease the whole queue, and any other does nothing. */
  lemma AnsweredExactly(d: Desk, r: Request, k: Key, routing: Option<Token>, live: Option<Token>, a: Answer, l: Limits, now: int)
    requires Sound(d) && r !in d.claims && (live.Some? ==> live == routing)
    ensures var d' := Answered(d, r, k, routing, live, a, l, now);
      && SameElsewhere(d, d', k)
      && (!HasHead(d, k) ==> d' == Dropped(d, k) && r !in d'.claims)
      && (HasHead(d, k) ==>
            var head := HeadOfQueue(d, k);
            var own := routing == Some(head.lease);
            && (r in d'.claims <==> (
                  && live == Some(head.lease) && head.id == a.id && head.state == Pending && head.shown.Some?
                  && head.shown.value.order <= a.order && head.shown.value.at <= a.at < head.shown.value.expires
                  && a.choice in head.choices))
            && (r in d'.claims ==> d'.claims[r] == Claim(k, a.id) && Waiting(d', k) == Waiting(d, k)
                                   && HeadOfQueue(d', k) == head.(state := Claimed))
            && (r !in d'.claims && !own ==> Waiting(d', k) == [])
            && (r !in d'.claims && own && head.id == a.id && head.shown.value.expires <= a.at ==>
                  Waiting(d', k) == Waiting(d, k)[1..] && head.id in d'.gone && (|Waiting(d, k)| > 1 ==> JustShown(d', k, l, now)))
            && (r !in d'.claims && own && (head.id != a.id || head.shown.value.expires > a.at) ==> d' == d))
  {
    hide Sound, HeadLeft, Taken, SameElsewhere, JustShown, Waiting, Dropped;
    SameElsewhereWithout(d, k);
    if HasHead(d, k) {
      HeadShown(d, k);
      HeadLeftExactly(d, k, false, l, now);
      TakenExactly(d, r, k);
    }
  }

  lemma HeadShown(d: Desk, k: Key)
    requires Sound(d) && HasHead(d, k)
    ensures HeadOfQueue(d, k).shown.Some?
  {
    assert Lined(d.queues[k], k, d.home, d.chronology);
  }

  lemma SameElsewhereWithout(d: Desk, k: Key)
    ensures SameElsewhere(d, Dropped(d, k), k) && Waiting(Dropped(d, k), k) == [] && SameElsewhere(d, d, k)
    ensures Dropped(d, k).claims == d.claims
  {
  }

  lemma TakenExactly(d: Desk, r: Request, k: Key)
    requires HasHead(d, k)
    ensures var d' := Taken(d, r, k);
      && d'.claims == d.claims[r := Claim(k, d.queues[k][0].id)] && Waiting(d', k) == Waiting(d, k) && SameElsewhere(d, d', k)
      && HasHead(d', k) && HeadOfQueue(d', k) == HeadOfQueue(d, k).(state := Claimed)
  {
  }

  lemma HeadLeftExactly(d: Desk, k: Key, consumed: bool, l: Limits, now: int)
    requires HasHead(d, k)
    ensures var d' := HeadLeft(d, k, consumed, l, now);
      && Waiting(d', k) == Waiting(d, k)[1..] && SameElsewhere(d, d', k) && d'.claims == d.claims
      && d'.gone == d.gone + {d.queues[k][0].id} && d'.consumed == d.consumed + (if consumed then {d.queues[k][0].id} else {})
      && (|Waiting(d, k)| > 1 ==> JustShown(d', k, l, now))
  {
    if |d.queues[k]| > 1 {
      PromotedIs(d, k, consumed, l, now);
      var q' := Promoted(d.queues[k], Shown(now, d.chronology + 1, now + l.ttl));
      assert forall i :: 1 <= i < |q'| ==> q'[i] == d.queues[k][i + 1];
      hide HeadLeft;
    }
  }

  /** An accepted answer is consumed and its approval leaves; a refused one is given back while there is time, and
      leaves unconsumed after that. Whenever one leaves, the next is shown. */
  lemma FinishedExactly(d: Desk, r: Request, accepted: bool, l: Limits, now: int)
    requires Sound(d) && r in d.claims && HoldsHead(d, d.claims[r])
    ensures var d' := Finished(d, r, accepted, false, l, now);
      var c, head := d.claims[r], HeadOfQueue(d, d.claims[r].key);
      && d'.claims == d.claims - {r} && SameElsewhere(d, d', c.key) && head.shown.Some?
      && (accepted || now >= head.shown.value.expires ==> (
            && Waiting(d', c.key) == Waiting(d, c.key)[1..] && d'.gone == d.gone + {c.id}
            && d'.consumed == d.consumed + (if accepted then {c.id} else {})
            && (|Waiting(d, c.key)| > 1 ==> JustShown(d', c.key, l, now))))
      && (!accepted && now < head.shown.value.expires ==> (
            && Waiting(d', c.key) == Waiting(d, c.key) && d'.gone == d.gone && d'.consumed == d.consumed
            && HeadOfQueue(d', c.key) == head.(state := Pending)))
  {
    var c := d.claims[r];
    assert Lined(d.queues[c.key], c.key, d.home, d.chronology);
    hide Sound, HeadLeft, Waiting, SameElsewhere, JustShown, Lined;
    var rest := d.(claims := d.claims - {r});
    HeadLeftExactly(rest, c.key, accepted, l, now);
    GivenBackExactly(rest, c.key);
    SameBeside(d, rest, c.key);
  }

  lemma GivenBackExactly(d: Desk, k: Key)
    requires HasHead(d, k)
    ensures var d' := d.(queues := d.queues[k := [d.queues[k][0].(state := Pending)] + d.queues[k][1..]]);
      && Waiting(d', k) == Waiting(d, k) && SameElsewhere(d, d', k)
      && HasHead(d', k) && HeadOfQueue(d', k) == HeadOfQueue(d, k).(state := Pending)
  {
  }

  lemma SameBeside(d: Desk, rest: Desk, k: Key)
    requires rest.queues == d.queues
    ensures Waiting(rest, k) == Waiting(d, k) && forall d' :: SameElsewhere(rest, d', k) ==> SameElsewhere(d, d', k)
  {
  }

  /** An operation that does not concern the approval shown in this session. */
  predicate Aside(op: Op, k: Key, lease: Token) {
    match op
    case Receive => true
    case Arrive(k', lease', _) => k' == k ==> lease' == lease
    case Respond(_, k', _, _, _) => k' != k
    case Finish(_, _) => true
    case Purge(k') => k' != k
  }

  lemma HeadKept(d: Desk, op: Op, l: Limits, now: int, k: Key)
    requires Sound(d) && HasHead(d, k) && HeadOfQueue(d, k).state == Pending && Aside(op, k, HeadOfQueue(d, k).lease)
    ensures HasHead(Step(d, op, l, now), k) && HeadOfQueue(Step(d, op, l, now), k) == HeadOfQueue(d, k)
  {
    hide Sound, Answered, Finished, Arrived, SameElsewhere;
    match op
    case Arrive(k', lease, choices) => ArrivedBeside(d, k', lease, choices, l, now, k);
    case Respond(r, k', routing, live, answer) => AnsweredBeside(d, r, k', routing, live, answer, l, now, k);
    case Finish(r, accepted) => FinishedBeside(d, r, accepted, l, now, k);
    case _ =>
  }

  lemma ArrivedBeside(d: Desk, k': Key, lease: Token, choices: set<string>, l: Limits, now: int, k: Key)
    requires Sound(d) && HasHead(d, k) && (k' == k ==> lease == HeadOfQueue(d, k).lease)
    ensures HasHead(Arrived(d, k', lease, choices, l, now), k)
    ensures HeadOfQueue(Arrived(d, k', lease, choices, l, now), k) == HeadOfQueue(d, k)
  {
    hide Sound, Overflows, Activated, Queued, Dropped;
    if k' == k {
      JoinedExactly(d, k, lease, choices);
    } else {
      FirstExactly(d, k', lease, choices, l, now);
      if HasHead(d, k') { JoinedExactly(d, k', lease, choices); }
    }
  }

  lemma AnsweredBeside(d: Desk, r: Request, k': Key, routing: Option<Token>, live: Option<Token>, a: Answer, l: Limits, now: int, k: Key)
    requires HasHead(d, k) && k' != k
    ensures HasHead(Answered(d, r, k', routing, live, a, l, now), k)
    ensures HeadOfQueue(Answered(d, r, k', routing, live, a, l, now), k) == HeadOfQueue(d, k)
  {
    hide HeadLeft, Claims;
    if HasHead(d, k') { HeadLeftExactly(d, k', false, l, now); }
  }

  lemma FinishedBeside(d: Desk, r: Request, accepted: bool, l: Limits, now: int, k: Key)
    requires HasHead(d, k) && HeadOfQueue(d, k).state == Pending
    ensures HasHead(Finished(d, r, accepted, false, l, now), k)
    ensures HeadOfQueue(Finished(d, r, accepted, false, l, now), k) == HeadOfQueue(d, k)
  {
    hide HeadLeft;
    if r in d.claims && HoldsHead(d, d.claims[r]) {
      HeadLeftExactly(d.(claims := d.claims - {r}), d.claims[r].key, accepted, l, now);
    }
  }

  /** Whatever else happens in between, an answer that came in time, with a choice that was offered, claims the
      approval it is for. */
  lemma {:induction false} TimelyAnswerClaims(d: Desk, ops: seq<(Op, int)>, l: Limits, k: Key, a: Answer)
    requires Sound(d) && HasHead(d, k) && Acceptable(HeadOfQueue(d, k), a)
    requires forall i :: 0 <= i < |ops| ==> Aside(ops[i].0, k, HeadOfQueue(d, k).lease)
    ensures HasHead(Steps(d, ops, l), k) && HeadOfQueue(Steps(d, ops, l), k) == HeadOfQueue(d, k)
    ensures Claims(Steps(d, ops, l), k, Some(HeadOfQueue(d, k).lease), a)
    decreases |ops|
  {
    hide Sound, Step;
    if ops != [] {
      StepSound(d, ops[0].0, l, ops[0].1);
      HeadKept(d, ops[0].0, l, ops[0].1, k);
      TimelyAnswerClaims(Step(d, ops[0].0, l, ops[0].1), ops[1..], l, k, a);
    }
  }

  /** A purge empties the session's queue and touches no other. */
  lemma PurgedExactly(d: Desk, k: Key, l: Limits, now: int)
    ensures var d' := Step(d, Purge(k), l, now);
      && Waiting(d', k) == [] && SameElsewhere(d, d', k) && d'.claims == d.claims && d'.consumed == d.consumed
      && forall id :: id in Waiting(d, k) ==> id in d'.gone
  {
    SameElsewhereWithout(d, k);
    if k in d.queues { assert forall i :: 0 <= i < |d.queues[k]| ==> Waiting(d, k)[i] == d.queues[k][i].id; }
  }

  /** A frame comes after everything that was shown or received before it. */
  lemma ReceivedLater(d: Desk, l: Limits, now: int, k: Key)
    requires Sound(d)
    ensures var d' := Step(d, Receive, l, now);
      && d'.chronology > d.chronology && d'.queues == d.queues
      && (HasHead(d, k) ==> HeadOfQueue(d, k).shown.Some? && HeadOfQueue(d, k).shown.value.order < d'.chronology)
  {
    if HasHead(d, k) { assert Lined(d.queues[k], k, d.home, d.chronology); }
  }
}
