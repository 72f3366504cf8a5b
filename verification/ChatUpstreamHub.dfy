/**
 ChatUpstreamHub: the buffer of early events with its running counters, the tombstones, and the
 generation bookkeeping around them, each method proved against the step of EarlyEvents it takes.
 */
module ChatUpstreamHubs {
  import opened Outcomes
  import opened EarlyEvents
  import opened FiniteSequences

  class ChatUpstreamHub {
    const maxEventBytes: nat
    var order: seq<LiveId>                  // insertion order of `unbound`
    var unbound: map<LiveId, Buffered>
    var droppedUnbound: set<LiveId>
    var unboundEventCount: int
    var unboundBytes: int
    var linked: bool                        // a connection is open or being opened
    var resetting: Resetting
    var generation: nat
    var stopping: bool
    var routes: map<LiveId, Owner>          // the coordinator's live ids
    var subscribers: set<Owner>
    var sent: seq<Delivery>                 // what subscribers were handed
    ghost var routed: Ledger

    function View(): Hub
      reads this
    {
      Hub(order, unbound, droppedUnbound, resetting, linked, generation, stopping, routes, subscribers, maxEventBytes)
    }

    /** The counters are the sums they stand for, and the buffer is within its limits. */
    ghost predicate Valid()
      reads this
    {
      Within(View()) && unboundEventCount == Count(View()) && unboundBytes == Bytes(View())
    }

    constructor (maxEventBytes: nat)
      ensures Valid() && Faithful(View(), routed) && routed == map[] && sent == []
      ensures View() == Hub([], map[], {}, Idle, false, 0, false, map[], {}, if maxEventBytes > 4096 then maxEventBytes else 4096)
    {
      this.maxEventBytes := if maxEventBytes > 4096 then maxEventBytes else 4096;
      order, unbound, droppedUnbound, unboundEventCount, unboundBytes := [], map[], {}, 0, 0;
      linked, resetting, generation, stopping := false, Idle, 0, false;
      routes, subscribers, sent, routed := map[], {}, [], map[];
    }

    method DiscardBuffered(id: LiveId)
      requires Valid()
      modifies this`order, this`unbound, this`unboundEventCount, this`unboundBytes
      ensures Valid() && View() == Discarded(old(View()), id)
      ensures id !in unbound && unbound.Keys <= old(unbound).Keys
      ensures id in old(unbound) ==> |order| == |old(order)| - 1
    {
      hide Within, EventSum, ByteSum, Indexed;
      WithinIndexed(View());
      DiscardedWithin(View(), id);
      if id !in unbound { return; }
      DiscardedTotals(View(), id);
      unboundEventCount, unboundBytes := unboundEventCount - |unbound[id].events|, unboundBytes - unbound[id].bytes;
      order, unbound := Without(order, id), unbound - {id};
    }

    method ClearBuffered()
      modifies this`order, this`unbound, this`droppedUnbound, this`unboundEventCount, this`unboundBytes
      ensures Valid() && View() == Cleared(old(View()))
    {
      order, unbound, droppedUnbound, unboundEventCount, unboundBytes := [], map[], {}, 0, 0;
    }

    method UpstreamUnavailable(generation: nat)
      requires Valid()
      modifies this
      ensures Valid() && View() == Unavailable(old(View()), generation) && sent == old(sent) && routed == old(routed)
    {
      if stopping || generation != this.generation { return; }
      this.generation := this.generation + 1;
      linked := false;
      ClearBuffered();
      routes := map[];
    }

    /** The asynchronous part runs at once when there is nothing to wait for, and finds no record to
        clear; the record made after it then stays. */
    method ResetGeneration(generation: nat)
      requires Valid()
      modifies this
      ensures Valid() && View() == Reset(old(View()), generation) && sent == old(sent) && routed == old(routed)
    {
      if resetting != Idle || stopping || generation != this.generation { return; }
      var waits := linked;
      UpstreamUnavailable(generation);
      resetting := if waits then Running else Stuck;
    }

    method MarkDropped(id: LiveId) returns (marked: bool)
      requires Valid() && id !in unbound && !stopping
      modifies this
      ensures Valid() && sent == old(sent) && routed == old(routed)
      ensures marked == (id in old(droppedUnbound) || |old(droppedUnbound)| < MAX_TOMBSTONES)
      ensures View() == if marked then old(View()).(tombstones := old(droppedUnbound) + {id}) else Reset(old(View()), old(generation))
    {
      if id in droppedUnbound {
        assert droppedUnbound + {id} == droppedUnbound;
        return true;
      }
      if |droppedUnbound| >= MAX_TOMBSTONES {
        ResetGeneration(generation);
        return false;
      }
      droppedUnbound := droppedUnbound + {id};
      return true;
    }

    /** Rewrites one buffer in place and moves the counters with it. */
    method Rewrite(id: LiveId, buffered: Buffered)
      requires Valid() && id in unbound && Within(Replaced(View(), id, buffered))
      modifies this`unbound, this`unboundEventCount, this`unboundBytes
      ensures Valid() && View() == Replaced(old(View()), id, buffered)
    {
      hide Within, EventSum, ByteSum, Indexed;
      WithinIndexed(View());
      ReplacedTotals(View(), id, buffered);
      unboundEventCount := unboundEventCount - |unbound[id].events| + |buffered.events|;
      unboundBytes := unboundBytes - unbound[id].bytes + buffered.bytes;
      unbound := unbound[id := buffered];
    }

    /** The tail of #bufferUnbound: the session has a buffer. */
    method Append(id: LiveId, event: Event)
      requires Valid() && id in unbound
      modifies this`unbound, this`unboundEventCount, this`unboundBytes
      ensures Valid() && View() == Grown(old(View()), id, event)
    {
      hide Within, EventSum, ByteSum, Replaced;
      GrownWithin(View(), id, event);
      var buffered := unbound[id];
      if buffered.dropped { return; }
      var bytes := Size(maxEventBytes, event);
      if bytes > maxEventBytes || |buffered.events| >= MAX_EVENTS_PER_SESSION
        || unboundEventCount >= MAX_UNBOUND_EVENTS || unboundBytes + bytes > MAX_UNBOUND_BYTES
      {
        Rewrite(id, Buffered([], 0, true));
        return;
      }
      Rewrite(id, Buffered(buffered.events + [event], buffered.bytes + bytes, false));
    }

    method BufferUnbound(id: LiveId, event: Event)
      requires Valid() && !stopping
      modifies this
      ensures Valid() && View() == Stored(old(View()), id, event) && sent == old(sent) && routed == old(routed)
    {
      hide Within, EventSum, ByteSum, Grown, Discarded, Reset, Indexed, Bounded;
      WithinIndexed(View());
      if id in droppedUnbound { return; }
      if id !in unbound {
        if |order| >= MAX_UNBOUND_SESSIONS {
          var oldest := order[0];
          OldestBuffered(View());
          DiscardBuffered(oldest);
          var marked := MarkDropped(oldest);
          if !marked { return; }
        }
        Open(id);
      }
      Append(id, event);
    }

    method Open(id: LiveId)
      requires Valid() && |order| < MAX_UNBOUND_SESSIONS && id !in unbound && id !in droppedUnbound
      modifies this`order, this`unbound
      ensures Valid() && View() == Opened(old(View()), id)
    {
      hide Within, EventSum, ByteSum, Indexed;
      WithinIndexed(View());
      OpenedWithin(View(), id);
      OpenedTotals(View(), id);
      order, unbound := order + [id], unbound[id := Buffered([], 0, false)];
    }

    method TakeBuffered(id: LiveId) returns (taken: Option<Buffered>)
      requires Valid()
      modifies this`order, this`unbound, this`unboundEventCount, this`unboundBytes, this`droppedUnbound
      ensures Valid() && View() == Forgotten(old(View()), id)
      ensures taken == if id in old(droppedUnbound) then Some(Buffered([], 0, true))
                       else if id in old(unbound) then Some(old(unbound)[id]) else None
      ensures id in old(droppedUnbound) ==> id !in old(unbound)   // the tombstone's precedence never matters
    {
      ForgottenWithin(View(), id);
      var buffered := if id in unbound then Some(unbound[id]) else None;
      if buffered.Some? { DiscardBuffered(id); }
      var wasDropped := id in droppedUnbound;
      droppedUnbound := droppedUnbound - {id};
      taken := if wasDropped then Some(Buffered([], 0, true)) else buffered;
    }

    method RouteEvent(generation: nat, sessionId: Option<LiveId>, event: Event)
      requires Valid()
      modifies this
      ensures Valid()
      ensures sessionId.None? ==> View() == old(View()) && sent == old(sent) && routed == old(routed)
      ensures sessionId.Some? ==>
        Took(old(View()), old(sent), old(routed), Route(generation, sessionId.value, event), View(), sent, routed)
    {
      if stopping || generation != this.generation || sessionId.None? { return; }
      var id := sessionId.value;
      ghost var op := Route(generation, id, event);
      if id in routes {
        if routes[id] in subscribers { sent := sent + [Delivery(routes[id], id, event)]; }
        return;
      }
      BufferUnbound(id, event);
      routed := LedgerAfter(routed, old(View()), op);
    }

    method FlushLiveSession(id: LiveId)
      requires Valid()
      modifies this
      ensures Valid() && Took(old(View()), old(sent), old(routed), Flush(id), View(), sent, routed)
    {
      hide Within, EventSum, ByteSum, Forgotten;
      var buffered := TakeBuffered(id);
      routed := routed - {id};
      if id !in routes || routes[id] !in subscribers || buffered.None? { return; }
      if buffered.value.dropped {
        sent := sent + [Resync(routes[id], id)];
        return;
      }
      Deliver(routes[id], id, buffered.value.events);
    }

    method Deliver(owner: Owner, id: LiveId, events: seq<Event>)
      modifies this`sent
      ensures sent == old(sent) + Addressed(owner, id, events)
    {
      for i := 0 to |events|
        invariant sent == old(sent) + Addressed(owner, id, events[..i])
      {
        sent := sent + [Delivery(owner, id, events[i])];
        assert Addressed(owner, id, events[..i + 1]) == Addressed(owner, id, events[..i]) + [Delivery(owner, id, events[i])];
      }
      assert events[..|events|] == events;
    }

    method DiscardBufferedSession(id: LiveId)
      requires Valid()
      modifies this
      ensures Valid() && Took(old(View()), old(sent), old(routed), Discard(id), View(), sent, routed)
    {
      hide Within, EventSum, ByteSum, Deliveries, LedgerAfter, Discarded;
      ForgottenWithin(View(), id);
      QuietStep(View(), routed, Discard(id));
      DiscardBuffered(id);
      droppedUnbound := droppedUnbound - {id};
      routed := routed - {id};
    }

    method ResetRequested(generation: nat)
      requires Valid()
      modifies this
      ensures Valid() && Took(old(View()), old(sent), old(routed), ResetRequest(generation), View(), sent, routed)
    {
      hide Within, EventSum, ByteSum, Deliveries, LedgerAfter, Reset;
      QuietStep(View(), routed, ResetRequest(generation));
      ResetGeneration(generation);
      routed := LedgerAfter(routed, old(View()), ResetRequest(generation));
    }

    method TransportClosed(generation: nat)
      requires Valid()
      modifies this
      ensures Valid() && Took(old(View()), old(sent), old(routed), LinkLost(generation), View(), sent, routed)
    {
      hide Within, EventSum, ByteSum, Deliveries, LedgerAfter, Unavailable;
      QuietStep(View(), routed, LinkLost(generation));
      UpstreamUnavailable(generation);
      routed := LedgerAfter(routed, old(View()), LinkLost(generation));
    }

    method Close()
      requires Valid()
      modifies this
      ensures Valid() && Took(old(View()), old(sent), old(routed), Op.Close, View(), sent, routed)
    {
      hide Within, EventSum, ByteSum, Deliveries, LedgerAfter, Cleared;
      StepWithin(View(), Op.Close);
      QuietStep(View(), routed, Op.Close);
      if stopping { return; }
      ClearBuffered();
      stopping, generation, linked, resetting := true, generation + 1, false, Idle;
      routes, subscribers, routed := map[], {}, map[];
    }

    /** The steps that leave the buffer alone: a reset that ends, the connection, the routes and the subscribers. */
    method Turn(op: Op)
      requires Valid() && (op.ResetDone? || op.Link? || op.Bind? || op.Unbind? || op.Attach? || op.Detach?)
      modifies this`resetting, this`linked, this`generation, this`routes, this`subscribers
      ensures Valid() && Took(old(View()), old(sent), old(routed), op, View(), sent, routed)
    {
      hide Within, EventSum, ByteSum, Deliveries, LedgerAfter;
      StepWithin(View(), op);
      QuietStep(View(), routed, op);
      match op {
        case ResetDone => if resetting == Running { resetting := Idle; }
        case Link(up, next) =>
          linked := up;
          if next > generation { generation := next; }
        case Bind(id, owner) => routes := routes[id := owner];
        case Unbind(id) => routes := routes - {id};
        case Attach(owner) => subscribers := subscribers + {owner};
        case Detach(owner) => subscribers := subscribers - {owner};
      }
    }

    method Do(op: Op)
      requires Valid()
      modifies this
      ensures Valid() && Took(old(View()), old(sent), old(routed), op, View(), sent, routed)
      ensures old(Faithful(View(), routed)) ==> (Faithful(View(), routed) <==> !Loses(old(View()), op))
    {
      if Faithful(View(), routed) { StepFaithful(View(), routed, op); }
      hide Within, EventSum, ByteSum, Faithful, Loses, Step, LedgerAfter, Deliveries;
      match op {
        case Route(generation, id, event) => RouteEvent(generation, Some(id), event);
        case Flush(id) => FlushLiveSession(id);
        case Discard(id) => DiscardBufferedSession(id);
        case ResetRequest(generation) => ResetRequested(generation);
        case LinkLost(generation) => TransportClosed(generation);
        case Close => Close();
        case _ => Turn(op);
      }
    }

    /** Any run: what it sends, and what it still owes, are those of the specified steps. */
    method Run(ops: seq<Op>)
      requires Valid()
      modifies this
      ensures Valid() && View() == Steps(old(View()), ops)
      ensures sent == old(sent) + Sent(old(View()), ops) && routed == LedgerOf(old(routed), old(View()), ops)
      decreases |ops|
    {
      hide Within, EventSum, ByteSum, Faithful, Loses, Step, LedgerAfter, Deliveries;
      if ops != [] {
        Do(ops[0]);
        Run(ops[1..]);
      }
    }
  }

  /** The state and the deliveries after a step, and the ledger of early events beside them. */
  ghost predicate Took(s: Hub, sent: seq<Delivery>, l: Ledger, op: Op, s': Hub, sent': seq<Delivery>, l': Ledger) {
    s' == Step(s, op) && sent' == sent + Deliveries(s, op) && l' == LedgerAfter(l, s, op)
  }
}
