/**
 The approval part of the chat gateway: its maps and counters, each step proved against ApprovalQueues.
 */
module ChatApprovals {
  import opened Outcomes
  import opened ApprovalQueues

  class ChatApprovalDesk {
    const limits: Limits
    var pending: Queues
    var chronology: nat
    var next: Id
    var claims: map<Request, Claim>     // requests waiting for the upstream's reply
    var closed: bool
    ghost var home: map<Id, Key>
    ghost var log: seq<Id>
    ghost var gone: set<Id>
    ghost var consumed: set<Id>

    ghost function View(): Desk
      reads this
    {
      Desk(pending, chronology, next, claims, home, log, gone, consumed)
    }

    ghost predicate Valid()
      reads this
    {
      Sound(View()) && (closed ==> pending == map[])
    }

    constructor (limits: Limits)
      ensures Valid() && View() == Desk(map[], 0, 0, map[], map[], [], {}, {}) && !closed && this.limits == limits
    {
      this.limits := limits;
      pending, chronology, next, claims, closed := map[], 0, 0, map[], false;
      home, log, gone, consumed := map[], [], {}, {};
    }

    /** The order stamped on a frame when it is received. */
    method Receive() returns (order: nat)
      requires Valid()
      modifies this`chronology
      ensures Valid() && View() == Step(old(View()), Op.Receive, limits, 0) && order == chronology
    {
      StepSound(View(), Op.Receive, limits, 0);
      chronology := chronology + 1;
      order := chronology;
    }

    method Drop(k: Key)
      modifies this`pending, this`gone
      ensures View() == Dropped(old(View()), k)
    {
      if k in pending { gone := gone + Ids(pending[k]); }
      pending := pending - {k};
    }

    method ActivateApproval(k: Key, now: int)
      requires k in pending && pending[k] != []
      modifies this`pending, this`chronology, this`log
      ensures View() == Activated(old(View()), k, limits, now)
    {
      var head := pending[k][0];
      chronology := chronology + 1;
      var shown := head.(shown := Some(Shown(now, chronology, now + limits.ttl)), state := Pending);
      pending := pending[k := [shown] + pending[k][1..]];
      log := log + [head.id];
    }

    /** Takes the head off its queue and shows the approval behind it. */
    method ShiftHead(k: Key, wasConsumed: bool, now: int)
      requires HasHead(View(), k)
      modifies this`pending, this`chronology, this`log, this`gone, this`consumed
      ensures View() == HeadLeft(old(View()), k, wasConsumed, limits, now)
    {
      var head := pending[k][0];
      gone := gone + {head.id};
      consumed := if wasConsumed then consumed + {head.id} else consumed;
      pending := pending[k := pending[k][1..]];
      if |pending[k]| == 0 {
        assert pending - {k} == old(pending) - {k};
        pending := pending - {k};
      } else {
        ActivateApproval(k, now);
      }
    }

    /** An approval request from the upstream; an overflow closes the socket. */
    method ApprovalRequested(k: Key, routing: Option<Token>, choices: set<string>, now: int) returns (overflow: bool)
      requires Valid() && !closed
      modifies this
      ensures Valid() && closed == old(closed)
      ensures routing.None? ==> View() == old(View()) && !overflow
      ensures routing.Some? ==>
        && View() == Arrived(old(View()), k, routing.value, choices, limits, now)
        && overflow == Overflows(old(View()), k, routing.value, limits)
    {
      hide Sound;
      if routing.None? { return false; }
      var lease := routing.value;
      ArrivedSound(View(), k, lease, choices, limits, now);
      var existing := if k in pending then pending[k] else [];
      var same := existing != [] && existing[0].lease == lease;
      var queue := if same then existing else [];
      if (k !in pending && |pending| >= MAX_SESSIONS) || |queue| >= limits.maxQueue { return true; }
      if !same { Drop(k); }
      pending := pending[k := queue + [Approval(next, lease, choices, Pending, None)]];
      home, next := home[next := k], next + 1;
      if |pending[k]| == 1 { ActivateApproval(k, now); }
      return false;
    }

    /** `approval.respond`: the head is claimed, or the request is refused and an expired head leaves. */
    method Respond(r: Request, k: Key, routing: Option<Token>, live: Option<Token>, a: Answer, now: int) returns (claimed: bool)
      requires Valid() && r !in claims && (live.Some? ==> live == routing)
      modifies this
      ensures Valid() && closed == old(closed)
      ensures View() == Answered(old(View()), r, k, routing, live, a, limits, now)
      ensures claimed == Claims(old(View()), k, live, a)
    {
      hide Sound;
      AnsweredSound(View(), r, k, routing, live, a, limits, now);
      var head: Option<Approval> := if k in pending && pending[k] != [] then Some(pending[k][0]) else None;
      var identityMatches := head.Some? && routing == Some(head.value.lease);
      var ownsTarget := head.Some? && live == Some(head.value.lease);
      if !identityMatches { Drop(k); }
      if !ownsTarget || !Acceptable(head.value, a) {
        if identityMatches && head.value.id == a.id && head.value.shown.Some? && head.value.shown.value.expires <= a.at {
          ShiftHead(k, false, now);
        }
        return false;
      }
      pending := pending[k := [head.value.(state := Claimed)] + pending[k][1..]];
      claims := claims[r := Claim(k, head.value.id)];
      return true;
    }

    /** The upstream accepted the answer, or the request failed. */
    method Settle(r: Request, accepted: bool, now: int)
      requires Valid()
      modifies this
      ensures Valid() && closed == old(closed)
      ensures View() == Finished(old(View()), r, accepted, closed, limits, now)
    {
      hide Sound;
      FinishedSound(View(), r, accepted, closed, limits, now);
      if r !in claims { return; }
      var c := claims[r];
      claims := claims - {r};
      if c.key !in pending || pending[c.key] == [] || pending[c.key][0].id != c.id || pending[c.key][0].state != Claimed { return; }
      if accepted {
        ShiftHead(c.key, true, now);
        return;
      }
      if closed { return; }
      var head := pending[c.key][0];
      if head.shown.Some? && head.shown.value.expires > now {
        pending := pending[c.key := [head.(state := Pending)] + pending[c.key][1..]];
      } else {
        ShiftHead(c.key, false, now);
      }
    }

    /** Drops every queue that holds an approval of the lease. */
    method PurgePendingLease(lease: Token)
      requires Valid()
      modifies this`pending, this`gone
      ensures Valid() && forall k, i :: k in pending && 0 <= i < |pending[k]| ==> pending[k][i].lease != lease
      ensures forall k :: k in pending ==> k in old(pending) && pending[k] == old(pending[k])
      ensures forall k :: k in old(pending) && k !in pending ==>
        exists i :: 0 <= i < |old(pending)[k]| && old(pending)[k][i].lease == lease
    {
      hide Sound;
      var todo := pending.Keys;
      while todo != {}
        invariant Valid() && todo <= old(pending).Keys
        invariant forall k :: k in todo ==> k in pending
        invariant forall k :: k in pending ==> k in old(pending) && pending[k] == old(pending[k])
        invariant forall k, i :: k in pending && k !in todo && 0 <= i < |pending[k]| ==> pending[k][i].lease != lease
        invariant forall k :: k in old(pending) && k !in pending ==>
          exists i :: 0 <= i < |old(pending)[k]| && old(pending)[k][i].lease == lease
        decreases todo
      {
        var k :| k in todo;
        if exists i :: 0 <= i < |pending[k]| && pending[k][i].lease == lease {
          DroppedSound(View(), k);
          Drop(k);
        }
        todo := todo - {k};
      }
    }

    method Shutdown()
      requires Valid()
      modifies this`pending, this`closed, this`gone
      ensures Valid() && closed && pending == map[] && claims == old(claims)
    {
      if closed { return; }
      hide Sound;
      var todo := pending.Keys;
      while todo != {}
        invariant Sound(View()) && pending.Keys == todo && !closed
        decreases todo
      {
        var k :| k in todo;
        DroppedSound(View(), k);
        Drop(k);
        todo := todo - {k};
      }
      closed := true;
    }
  }
}
