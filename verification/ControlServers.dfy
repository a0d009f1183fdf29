/** The control server as an object updated in place. Each method is proved to perform the operation
    of `Server` it names on the object's whole state. Machines are owned by the connection table, as
    values; `Connection.ConnectionMachine` is the same automaton as an object. */
module ControlServers {
  import opened Optional
  import opened Frames
  import opened Protocol
  import opened Server

  lemma InterestsPush(s: Server, seen: set<nat>, id: nat)
    requires id in s.connections
    ensures InterestsOf(s, seen + {id}) ==
            InterestsOf(s, seen) + if PeerInterest(s, id).Some? then {PeerInterest(s, id).value} else {}
  {
    var more := if PeerInterest(s, id).Some? then {PeerInterest(s, id).value} else {};
    forall i | i in InterestsOf(s, seen) + more ensures i in InterestsOf(s, seen + {id}) {
      if i in InterestsOf(s, seen) {
        var j :| j in seen && j in s.connections && PeerInterest(s, j).Some? && PeerInterest(s, j).value == i;
        assert j in seen + {id};
      }
    }
  }

  lemma PublishedPush(connections: map<nat, Peer>, ids: set<nat>, id: nat, now: Instant, frame: Bytes)
    requires id in connections && id !in ids
    ensures var n := PublishTo(connections[id], now, frame);
            Published(connections, ids + {id}, now, frame) ==
              if n.action.Close? then Published(connections, ids, now, frame) - {id}
              else Published(connections, ids, now, frame)[id := connections[id].(machine := n.machine)]
    ensures id in Published(connections, ids, now, frame) && Published(connections, ids, now, frame)[id] == connections[id]
  {}

  lemma PublishedNone(connections: map<nat, Peer>, now: Instant, frame: Bytes)
    ensures Published(connections, {}, now, frame) == connections
  {}

  /** Offering the frame to the subscribers is offering it to all. */
  lemma PublishedSubscribers(s: Server, now: Instant, frame: Bytes)
    ensures Published(s.connections, Subscribers(s), now, frame) == Published(s.connections, s.connections.Keys, now, frame)
  {
    var a := Published(s.connections, Subscribers(s), now, frame);
    var b := Published(s.connections, s.connections.Keys, now, frame);
    forall id | id in s.connections ensures (id in a <==> id in b) && (id in a ==> a[id] == b[id]) {
      assert id in Subscribers(s) <==> Listens(s.connections[id]);
    }
  }

  lemma DropMore(cs: map<nat, Peer>, due: set<nat>, left: set<nat>, id: nat)
    requires left <= due && id in left
    ensures cs - (due - left) - {id} == cs - (due - (left - {id}))
  {}

  /** Every connection not in `left` has been told of the shutdown. */
  ghost predicate ToldOf(w: Wire, was: map<nat, Peer>, now: Instant, left: set<nat>, cs: map<nat, Peer>) {
    cs == map id | id in was && (id in left || !BeginShutdown(w, was[id].machine, now).action.Close?) ::
            if id in left then was[id] else was[id].(machine := BeginShutdown(w, was[id].machine, now).machine)
  }

  lemma ToldNext(w: Wire, was: map<nat, Peer>, now: Instant, left: set<nat>, cs: map<nat, Peer>, id: nat)
    requires left <= was.Keys && id in left && ToldOf(w, was, now, left, cs)
    ensures id in cs && cs[id] == was[id]
    ensures var n := BeginShutdown(w, was[id].machine, now);
            ToldOf(w, was, now, left - {id}, if n.action.Close? then cs - {id} else cs[id := was[id].(machine := n.machine)])
  {}

  class ControlServer {
    const wire: Wire
    var connections: map<nat, Peer>
    var nextConnectionId: Option<nat>
    var nextToken: Option<nat>
    var barrier: Option<Receipt>
    var shuttingDown: bool

    ghost function View(): (s: Server)
      reads this
    {
      Server(connections, nextConnectionId, nextToken, barrier, shuttingDown)
    }

    constructor (wire: Wire)
      ensures this.wire == wire
      ensures View() == NewServer()
    {
      this.wire := wire;
      connections := map[];
      nextConnectionId, nextToken := Some(1), Some(1);
      barrier, shuttingDown := None, false;
    }

    method InterestIn(id: nat) returns (interest: Option<Interest>)
      requires id in connections
      ensures interest == PeerInterest(View(), id)
    {
      var peer := connections[id];
      var readable := false;
      match barrier {
        case Some(receipt) =>
          if !(receipt.connection == id && peer.pendingResponse == Some(receipt.sequence)) {
            return None;
          }
        case None => readable := InputEnabled(peer.machine);
      }
      interest := Some(Interest(peer.token, readable, peer.machine.output.Some?));
    }

    method Interests() returns (interests: set<Interest>)
      ensures interests == PollInterests(View())
    {
      interests := PeerInterests();
      if !shuttingDown && barrier.None? {
        interests := {Interest(LISTENER_TOKEN, true, false)} + interests;
      }
    }

    method PeerInterests() returns (interests: set<Interest>)
      ensures interests == InterestsOf(View(), connections.Keys)
    {
      interests := {};
      var seen: set<nat> := {};
      while connections.Keys - seen != {}
        invariant seen <= connections.Keys
        invariant interests == InterestsOf(View(), seen)
        decreases connections.Keys - seen
      {
        var id :| id in connections.Keys - seen;
        var interest := InterestIn(id);
        InterestsPush(View(), seen, id);
        interests := interests + if interest.Some? then {interest.value} else {};
        seen := seen + {id};
      }
      assert seen == connections.Keys;
    }

    method ServiceOnce(now: Instant, ready: ReadyEvent, io: Io) returns (delivery: Option<Delivery>, error: Option<ControlError>)
      requires TokensDistinct(connections)
      modifies this
      ensures Outcome(View(), delivery, None, error) == ServiceOne(wire, old(View()), now, ready, io)
    {
      ExpireNow(now);
      delivery, error := None, None;
      if barrier.Some? {
        var receipt := barrier.value;
        var settlement := SettlementOf(receipt);
        if settlement != Pending {
          return;
        }
        if connections[receipt.connection].token != ready.token {
          return;
        }
        if ready.terminal {
          connections := connections - {receipt.connection};
          return;
        }
        if ready.writable {
          delivery, error := SendTo(now, receipt.connection, io.send);
        }
        return;
      }
      if ready.token == LISTENER_TOKEN {
        if shuttingDown {
          return;
        }
        if ready.terminal {
          error := Some(ListenerTerminal);
          return;
        }
        if ready.readable {
          error := AcceptFrom(now, io.accept);
        }
        return;
      }
      var known := IdForToken(ready.token);
      if known.None? {
        return;
      }
      var id := known.value;
      var readEnabled := InputEnabled(connections[id].machine);
      var writeEnabled := connections[id].machine.output.Some?;
      if ready.readable && readEnabled {
        delivery, error := ReceiveFrom(now, id, io.receive);
      } else if ready.terminal {
        connections := connections - {id};
      } else if ready.writable && writeEnabled {
        delivery, error := SendTo(now, id, io.send);
      }
    }

    method AcceptFrom(now: Instant, result: AcceptResult) returns (error: Option<ControlError>)
      modifies this
      ensures Outcome(View(), None, None, error) == AcceptOne(old(View()), now, result)
    {
      error := None;
      match result {
        case AcceptRetry =>
        case AcceptExhausted => error := Some(ResourceExhausted);
        case AcceptFailed => error := Some(ListenerIo);
        case Accepted(sameUser) =>
          if !sameUser || |connections| == CONNECTION_LIMIT {
            return;
          }
          if nextConnectionId.None? || nextToken.None? {
            return;
          }
          var id, token := nextConnectionId.value, nextToken.value;
          nextConnectionId := CheckedAdd(id);
          nextToken := CheckedAdd(token);
          connections := connections[id := Peer(token, New(now), Some(1), None, None)];
      }
    }

    method IdForToken(token: nat) returns (id: Option<nat>)
      requires TokensDistinct(connections)
      ensures id == FindToken(View(), token)
    {
      var ids := connections.Keys;
      while ids != {}
        invariant ids <= connections.Keys
        invariant forall k :: k in connections && k !in ids ==> connections[k].token != token
        decreases |ids|
      {
        var k :| k in ids;
        if connections[k].token == token {
          assert HasToken(View(), k, token);
          return Some(k);
        }
        ids := ids - {k};
      }
      return None;
    }

    method ReceiveFrom(now: Instant, id: nat, result: ReceiveResult) returns (delivery: Option<Delivery>, error: Option<ControlError>)
      requires id in connections
      modifies this
      ensures Outcome(View(), delivery, None, error) == ReceiveOne(wire, old(View()), now, id, result)
    {
      delivery, error := None, None;
      var next: Next;
      match result {
        case ReceiveRetry => return;
        case ReceiveReset =>
          connections := connections - {id};
          return;
        case ReceiveFailed =>
          connections := connections - {id};
          error := Some(PeerIo(id));
          return;
        case EndOfFile => next := ReadEof(connections[id].machine);
        case Received(bytes) => next := Ingest(wire, connections[id].machine, now, bytes);
      }
      connections := connections[id := connections[id].(machine := next.machine)];
      delivery := Apply(id, next.action);
    }

    method SendTo(now: Instant, id: nat, result: SendResult) returns (delivery: Option<Delivery>, error: Option<ControlError>)
      requires id in connections
      modifies this
      ensures Outcome(View(), delivery, None, error) == SendOne(wire, old(View()), now, id, result)
    {
      delivery, error := None, None;
      match result {
        case SendRetry => return;
        case SendReset =>
          connections := connections - {id};
          return;
        case SendFailed =>
          connections := connections - {id};
          error := Some(PeerIo(id));
          return;
        case Taken(count) =>
          var next := AdvanceOutput(wire, connections[id].machine, now, count);
          var peer := connections[id].(machine := next.machine);
          if !next.action.Close? && peer.machine.output.None? && peer.pendingResponse.Some? {
            peer := peer.(pendingResponse := None, lastDrained := peer.pendingResponse);
          }
          connections := connections[id := peer];
          delivery := Apply(id, next.action);
      }
    }

    method Apply(id: nat, action: Action) returns (delivery: Option<Delivery>)
      modifies this
      ensures Outcome(View(), delivery, None, None) == ApplyAction(old(View()), id, action)
    {
      delivery := None;
      match action {
        case NoAction =>
        case Emit(request) => delivery := Some(Delivery(id, request));
        case OutboundFrameTooLarge => connections := connections - {id};
        case Close(_) => connections := connections - {id};
      }
    }

    /** The earliest moment the event loop must wake for. */
    method NextWake() returns (deadline: Option<Instant>)
      ensures deadline.None? <==> Deadlines(View()) == {}
      ensures deadline.Some? ==> deadline.value in Deadlines(View()) && forall d :: d in Deadlines(View()) ==> deadline.value <= d
    {
      if barrier.Some? {
        var receipt := barrier.value;
        if receipt.connection in connections && connections[receipt.connection].pendingResponse == Some(receipt.sequence) {
          deadline := NextDeadline(connections[receipt.connection].machine);
          assert deadline.Some? ==> Wakes(View(), receipt.connection) && deadline.value in Deadlines(View());
          assert forall id :: id in connections && Wakes(View(), id) ==> id == receipt.connection;
        } else {
          deadline := None;
        }
        return;
      }
      deadline := None;
      var ids := connections.Keys;
      while ids != {}
        invariant ids <= connections.Keys
        invariant deadline.Some? ==> deadline.value in Deadlines(View())
        invariant forall id :: id in connections && id !in ids && Wakes(View(), id) ==>
                    deadline.Some? && deadline.value <= NextDeadline(connections[id].machine).value
        decreases |ids|
      {
        var id :| id in ids;
        var candidate := NextDeadline(connections[id].machine);
        assert candidate.Some? ==> Wakes(View(), id);
        deadline := Min(deadline, candidate);
        ids := ids - {id};
      }
    }

    method ExpireNow(now: Instant)
      modifies this
      ensures View() == ExpireAll(old(View()), now)
    {
      var due := DueNow(now);
      assert connections - due == ExpireAll(View(), now).connections;
      DropThese(due);
    }

    method DueNow(now: Instant) returns (due: set<nat>)
      ensures due == set id | id in connections && Due(connections[id], now)
    {
      due := {};
      var ids := connections.Keys;
      while ids != {}
        invariant ids <= connections.Keys
        invariant due == set id | id in connections && id !in ids && Due(connections[id], now)
        decreases |ids|
      {
        var id :| id in ids;
        if Expire(connections[id].machine, now).action.Close? {
          due := due + {id};
        }
        ids := ids - {id};
      }
    }

    method DropThese(due: set<nat>)
      modifies this
      ensures View() == old(View()).(connections := old(connections) - due)
    {
      var left := due;
      assert connections - {} == connections;
      while left != {}
        invariant left <= due
        invariant View() == old(View()).(connections := old(connections) - (due - left))
        decreases |left|
      {
        var id :| id in left;
        DropMore(old(connections), due, left, id);
        connections := connections - {id};
        left := left - {id};
      }
      assert due - left == due;
    }

    method Respond(now: Instant, id: nat, response: Text) returns (receipt: Option<Receipt>, error: Option<ControlError>)
      modifies this
      ensures Outcome(View(), None, receipt, error) == CompleteOne(old(View()), now, id, response)
    {
      receipt, error := None, None;
      if shuttingDown {
        error := Some(ShuttingDown);
        return;
      }
      if id !in connections {
        error := Some(StaleConnection(id));
        return;
      }
      var peer := connections[id];
      if peer.nextSequence.None? {
        connections := connections - {id};
        error := Some(ResponseSequenceExhausted(id));
        return;
      }
      var sequence := peer.nextSequence.value;
      var next := CompleteRequest(peer.machine, now, response);
      if next.action.OutboundFrameTooLarge? {
        connections := connections - {id};
        error := Some(OversizedFrame({id}));
        return;
      }
      connections := connections[id := peer.(machine := next.machine, pendingResponse := Some(sequence),
                                             nextSequence := CheckedAdd(sequence))];
      receipt := Some(Receipt(id, sequence));
    }

    method SettlementOf(receipt: Receipt) returns (settlement: Settlement)
      ensures settlement == ResponseSettlement(View(), receipt)
    {
      if receipt.connection !in connections {
        return Closed;
      }
      var peer := connections[receipt.connection];
      if peer.pendingResponse == Some(receipt.sequence) {
        return Pending;
      }
      if peer.lastDrained.Some? && receipt.sequence <= peer.lastDrained.value {
        return Drained;
      }
      return Closed;
    }

    method WaitFor(receipt: Receipt) returns (settlement: Settlement, error: Option<ControlError>)
      modifies this
      ensures settlement == ResponseSettlement(old(View()), receipt)
      ensures Outcome(View(), None, None, error) == BeginBarrier(old(View()), receipt)
    {
      error := None;
      settlement := SettlementOf(receipt);
      if settlement != Pending {
        return;
      }
      match barrier {
        case Some(active) =>
          if active != receipt {
            error := Some(BarrierConflict(active, receipt));
          }
        case None => barrier := Some(receipt);
      }
    }

    method Subscribe(now: Instant, id: nat, state: Text) returns (error: Option<ControlError>)
      modifies this
      ensures Outcome(View(), None, None, error) == AcceptSubscription(old(View()), now, id, state)
    {
      if shuttingDown {
        return Some(ShuttingDown);
      }
      if id !in connections {
        return Some(StaleConnection(id));
      }
      var next := CompleteSubscribe(connections[id].machine, now, state);
      if next.action.OutboundFrameTooLarge? {
        connections := connections - {id};
        return Some(OversizedFrame({id}));
      }
      connections := connections[id := connections[id].(machine := next.machine)];
      error := None;
    }

    method PublishNow(now: Instant, state: Text) returns (error: Option<ControlError>)
      modifies this
      ensures Outcome(View(), None, None, error) == PublishAll(old(View()), now, state)
    {
      if shuttingDown {
        return Some(ShuttingDown);
      }
      var subscribers := set id | id in connections && connections[id].machine.phase.Subscriber?;
      assert subscribers == Subscribers(View());
      if subscribers == {} {
        return None;
      }
      var encoded := Encode(state);
      if encoded.None? {
        connections := connections - subscribers;
        return Some(OversizedFrame(subscribers));
      }
      PublishedSubscribers(View(), now, encoded.value);
      Offer(subscribers, now, encoded.value);
      error := None;
    }

    method Offer(subscribers: set<nat>, now: Instant, frame: Bytes)
      requires subscribers <= connections.Keys
      requires forall id :: id in subscribers ==> Listens(connections[id])
      modifies this
      ensures View() == old(View()).(connections := Published(old(connections), subscribers, now, frame))
    {
      var left := subscribers;
      assert subscribers - left == {};
      PublishedNone(connections, now, frame);
      while left != {}
        invariant left <= subscribers
        invariant connections == Published(old(connections), subscribers - left, now, frame)
        invariant View() == old(View()).(connections := connections)
        decreases |left|
      {
        var id :| id in left;
        PublishedPush(old(connections), subscribers - left, id, now, frame);
        assert subscribers - (left - {id}) == subscribers - left + {id};
        var next := PublishState(connections[id].machine, now, frame);
        if next.action.Close? {
          connections := connections - {id};
        } else {
          connections := connections[id := connections[id].(machine := next.machine)];
        }
        left := left - {id};
      }
      assert subscribers - left == subscribers;
    }

    method ShutdownNow(now: Instant)
      modifies this
      ensures View() == ShutdownAll(wire, old(View()), now)
    {
      if shuttingDown {
        return;
      }
      barrier := None;
      shuttingDown := true;
      var left := connections.Keys;
      while left != {}
        invariant left <= old(connections).Keys
        invariant ToldOf(wire, old(connections), now, left, connections)
        invariant View() == old(View()).(connections := connections, barrier := None, shuttingDown := true)
        decreases |left|
      {
        var id :| id in left;
        ToldNext(wire, old(connections), now, left, connections, id);
        var next := BeginShutdown(wire, connections[id].machine, now);
        if next.action.Close? {
          connections := connections - {id};
        } else {
          connections := connections[id := connections[id].(machine := next.machine)];
        }
        left := left - {id};
      }
    }
  }
}
