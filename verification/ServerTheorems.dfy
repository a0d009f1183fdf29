/** What holds of every run of the control server. */
module ServerTheorems {
  import opened Optional
  import opened Frames
  import opened Protocol
  import opened ConnectionRuns
  import opened Server
  import opened ServerRuns

  // ---- how one call moves one connection ------------------------------------------------

  /** The event a call brings to one connection, if any. */
  function EventFor(s: Server, c: Call, id: nat): (e: Option<Stimulus>)
    requires id in s.connections
  {
    var p := s.connections[id];
    match c
    case Service(now, ready, io) =>
      if p.token != ready.token then None
      else if s.barrier.Some? then
        if s.barrier.value.connection == id && p.pendingResponse == Some(s.barrier.value.sequence)
        then SendEvent(now, ready, io) else None
      else if ready.readable && InputEnabled(p.machine) then
        match io.receive
        case Received(bytes) => Some(At(now, Read(bytes)))
        case EndOfFile => Some(At(now, Eof))
        case _ => None
      else if p.machine.output.Some? then SendEvent(now, ready, io)
      else None
    case Completes(now, i, response) => 
      if i == id && !s.shuttingDown && p.nextSequence.Some? then Some(At(now, Respond(response))) else None
    case Subscribes(now, i, state) => if i == id && !s.shuttingDown then Some(At(now, AcceptSubscriber(state))) else None
    case Publishes(now, state) =>
      if Listens(p) && !s.shuttingDown && Encode(state).Some? then Some(At(now, Publish(Encode(state).value))) else None
    case Shuts(now) => if s.shuttingDown then None else Some(At(now, StartShutdown))
    case _ => None
  }

  function SendEvent(now: Instant, ready: ReadyEvent, io: Io): (e: Option<Stimulus>) {
    if !ready.terminal && ready.writable && io.send.Taken? then Some(At(now, Sent(io.send.count))) else None
  }

  /** The machine takes that one permitted step, or none. */
  predicate Steps(w: Wire, m: Machine, m': Machine, e: Option<Stimulus>) {
    match e
    case None => m' == m
    case Some(At(now, event)) => Allowed(m, event) && m' == Step(w, m, now, event).machine
  }

  function Value(n: Option<nat>): (r: nat) { if n.Some? then n.value else 0 }

  /** Receipts are issued in order and what has drained stays drained. */
  predicate Evolves(p: Peer, p': Peer) {
    && p'.token == p.token
    && Bound(p.nextSequence) <= Bound(p'.nextSequence)
    && Value(p.lastDrained) <= Value(p'.lastDrained)
    && (p'.pendingResponse.Some? && p'.pendingResponse != p.pendingResponse ==> p'.pendingResponse == p.nextSequence)
  }

  ghost predicate Moves(w: Wire, s: Server, c: Call, id: nat, p': Peer)
    requires id in s.connections
  {
    Steps(w, s.connections[id].machine, p'.machine, EventFor(s, c, id)) && Evolves(s.connections[id], p')
  }

  lemma ReceivedMoves(w: Wire, s: Server, now: Instant, id: nat, r: ReceiveResult, j: nat)
    requires id in s.connections && j in ReceiveOne(w, s, now, id, r).server.connections
    ensures j in s.connections
    ensures var p, p' := s.connections[j], ReceiveOne(w, s, now, id, r).server.connections[j];
            if j != id then p' == p
            else
              && p' == p.(machine := p'.machine)
              && p'.machine == (match r
                                case Received(bytes) => Step(w, p.machine, now, Read(bytes)).machine
                                case EndOfFile => Step(w, p.machine, now, Eof).machine
                                case _ => p.machine)
  {}

  lemma SentMoves(w: Wire, s: Server, now: Instant, id: nat, r: SendResult, j: nat)
    requires id in s.connections && j in SendOne(w, s, now, id, r).server.connections
    ensures j in s.connections
    ensures var p, p' := s.connections[j], SendOne(w, s, now, id, r).server.connections[j];
            if j != id then p' == p
            else
              && (p' == p.(machine := p'.machine) || p' == Settle(p.(machine := p'.machine)))
              && p'.machine == if r.Taken? then Step(w, p.machine, now, Sent(r.count)).machine else p.machine
  {}

  lemma PeerServed(w: Wire, s: Server, now: Instant, id: nat, ready: ReadyEvent, io: Io, j: nat)
    requires s.barrier.None? && HasToken(s, id, ready.token) && SequencesOk(s.connections[id])
    requires io.send.Taken? ==> io.send.count <= |Remaining(s.connections[id].machine)|
    requires j in ServicePeer(w, s, now, id, ready, io).server.connections
    requires j in s.connections && s.connections[j].token == ready.token ==> j == id
    ensures j in s.connections && Moves(w, s, Service(now, ready, io), j, ServicePeer(w, s, now, id, ready, io).server.connections[j])
  {
    var m := s.connections[id].machine;
    if ready.readable && InputEnabled(m) {
      ReceivedMoves(w, s, now, id, io.receive, j);
    } else if !ready.terminal && ready.writable && m.output.Some? {
      SentMoves(w, s, now, id, io.send, j);
    }
  }

  lemma BarrierServed(w: Wire, s: Server, now: Instant, ready: ReadyEvent, io: Io, j: nat)
    requires s.barrier.Some?
    requires var id := s.barrier.value.connection;
             && (HasToken(s, id, ready.token) ==> SequencesOk(s.connections[id]))
             && (io.send.Taken? && HasToken(s, id, ready.token) ==>
                   io.send.count <= |Remaining(s.connections[id].machine)|)
    requires j in ServiceBarrier(w, s, now, s.barrier.value, ready, io).server.connections
    ensures j in s.connections &&
            Moves(w, s, Service(now, ready, io), j, ServiceBarrier(w, s, now, s.barrier.value, ready, io).server.connections[j])
  {
    var r := s.barrier.value;
    if ResponseSettlement(s, r) == Pending && s.connections[r.connection].token == ready.token &&
       !ready.terminal && ready.writable {
      SentMoves(w, s, now, r.connection, io.send, j);
    }
  }

  lemma ListenerServed(s: Server, now: Instant, ready: ReadyEvent, io: Io, j: nat)
    requires j in ServiceListener(s, now, ready, io).server.connections
    ensures j in s.connections || s.nextConnectionId == Some(j)
    ensures s.nextConnectionId != Some(j) ==>
              ServiceListener(s, now, ready, io).server.connections[j] == s.connections[j]
    ensures j !in s.connections ==>
              ServiceListener(s, now, ready, io).server.connections[j].machine == New(now)
  {}

  lemma ServiceMoves(w: Wire, x: World, now: Instant, ready: ReadyEvent, io: Io, id: nat)
    requires WorldInv(x) && Permitted(x, Service(now, ready, io))
    requires id in ServiceOne(w, x.server, now, ready, io).server.connections && id in x.server.connections
    ensures Moves(w, x.server, Service(now, ready, io), id, ServiceOne(w, x.server, now, ready, io).server.connections[id])
  {
    var s, s1, c := x.server, ExpireAll(x.server, now), Service(now, ready, io);
    var o := ServiceOne(w, s, now, ready, io);
    PermittedAfterExpiry(x, now, ready, io);
    assert id in s1.connections ==> EventFor(s1, c, id) == EventFor(s, c, id);
    assert PeerOk(s, id);
    if s1.barrier.Some? {
      var r := s1.barrier.value.connection;
      assert r in s1.connections ==> PeerOk(s, r);
      BarrierServed(w, s1, now, ready, io, id);
    } else if ready.token == LISTENER_TOKEN {
      ListenerServed(s1, now, ready, io, id);
    } else if FindToken(s1, ready.token).Some? {
      var j := FindToken(s1, ready.token).value;
      assert PeerOk(s, j);
      PeerServed(w, s1, now, j, ready, io, id);
    } else {
      assert !HasToken(s1, id, ready.token);
    }
  }

  lemma PublishMoves(w: Wire, s: Server, now: Instant, state: Text, id: nat)
    requires id in PublishAll(s, now, state).server.connections
    ensures id in s.connections
    ensures Moves(w, s, Publishes(now, state), id, PublishAll(s, now, state).server.connections[id])
  {
    var p := s.connections[id];
    assert Listens(p) ==> id in Subscribers(s);
  }

  lemma CallMoves(w: Wire, s: Server, c: Call, id: nat)
    requires !c.Service? && id in Perform(w, s, c).server.connections
    requires id in s.connections ==> SequencesOk(s.connections[id])
    ensures id in s.connections && Moves(w, s, c, id, Perform(w, s, c).server.connections[id])
  {
    match c
    case Completes(now, i, response) =>
    case Subscribes(now, i, state) =>
    case ExpireDue(now) =>
    case Fences(r) =>
    case Publishes(now, state) => PublishMoves(w, s, now, state, id);
    case Shuts(now) =>
  }

  /** Every call moves every surviving connection by at most one permitted event. */
  lemma PerformMoves(w: Wire, x: World, c: Call, id: nat)
    requires WorldInv(x) && Permitted(x, c)
    requires id in Perform(w, x.server, c).server.connections && id in x.server.connections
    ensures Moves(w, x.server, c, id, Perform(w, x.server, c).server.connections[id])
  {
    if c.Service? {
      ServiceMoves(w, x, c.now, c.ready, c.io, id);
    } else {
      assert PeerOk(x.server, id);
      CallMoves(w, x.server, c, id);
    }
  }

  lemma NoneAddedOtherwise(w: Wire, s: Server, c: Call, id: nat)
    requires !c.Service? && id in Perform(w, s, c).server.connections
    ensures id in s.connections
  {}

  /** Only an accept adds a connection, under an identity never used before. */
  lemma OnlyAcceptAdds(w: Wire, s: Server, c: Call, id: nat)
    requires id in Perform(w, s, c).server.connections && id !in s.connections
    ensures c.Service? && !s.shuttingDown && s.barrier.None?
    ensures s.nextConnectionId == Some(id)
    ensures Perform(w, s, c).server.connections[id].machine == New(c.now)
  {
    if c.Service? {
      var s1 := ExpireAll(s, c.now);
      if s1.barrier.Some? {
        NoneAddedByBarrier(w, s1, c.now, c.ready, c.io, id);
      } else if c.ready.token == LISTENER_TOKEN {
        ListenerServed(s1, c.now, c.ready, c.io, id);
      } else if FindToken(s1, c.ready.token).Some? {
        NoneAddedByPeer(w, s1, c.now, FindToken(s1, c.ready.token).value, c.ready, c.io, id);
      }
    } else {
      NoneAddedOtherwise(w, s, c, id);
    }
  }

  lemma NoneAddedByBarrier(w: Wire, s: Server, now: Instant, ready: ReadyEvent, io: Io, j: nat)
    requires s.barrier.Some? && j in ServiceBarrier(w, s, now, s.barrier.value, ready, io).server.connections
    ensures j in s.connections
  {}

  lemma NoneAddedByPeer(w: Wire, s: Server, now: Instant, id: nat, ready: ReadyEvent, io: Io, j: nat)
    requires id in s.connections && j in ServicePeer(w, s, now, id, ready, io).server.connections
    ensures j in s.connections
  {}

  // ---- receipts ---------------------------------------------------------------------------

  /** What a settlement may turn into. */
  predicate MayBecome(before: Settlement, after: Settlement) {
    match before
    case Pending => true
    case Drained => after != Pending
    case Closed => after == Closed
  }

  /** An issued receipt of a live connection is pending or drained; of any other it is closed. */
  lemma LiveReceipts(x: World, r: Receipt)
    requires WorldInv(x) && r in x.issued
    ensures ResponseSettlement(x.server, r) == Closed <==> r.connection !in x.server.connections
    ensures r.connection in x.server.connections ==>
              var p := x.server.connections[r.connection];
              (ResponseSettlement(x.server, r) == Pending <==> r.sequence == Bound(p.nextSequence) - 1 && p.machine.output.Some?
                                                                && p.machine.phase.Ready?)
  {
    assert ReceiptOk(x.server, r);
    if r.connection in x.server.connections {
      assert PeerOk(x.server, r.connection);
    }
  }

  /** A completion queues a reply exactly when the connection waits for one, but a receipt is issued
      either way: only an application that completes what it was handed gets receipts that can drain. */
  lemma ReceiptBacked(s: Server, now: Instant, id: nat, response: Text)
    requires ServerInv(s) && !s.shuttingDown && id in s.connections
    requires CompleteOne(s, now, id, response).receipt.Some?
    ensures var p, p' := s.connections[id], CompleteOne(s, now, id, response).server.connections[id];
            && ResponseSettlement(CompleteOne(s, now, id, response).server, CompleteOne(s, now, id, response).receipt.value) == Pending
            && (p.machine.requestPending && !p.machine.pendingSubscribe <==> p.machine.output.None? && p'.machine.output.Some?)
  {
    assert PeerOk(s, id);
  }

  lemma SettlementStep(w: Wire, x: World, c: Call, r: Receipt)
    requires w.Fits() && WorldInv(x) && Permitted(x, c) && r in x.issued
    ensures r in Advance(w, x, c).issued
    ensures MayBecome(ResponseSettlement(x.server, r), ResponseSettlement(Advance(w, x, c).server, r))
  {
    var x', id := Advance(w, x, c), r.connection;
    CallKeeps(w, x, c);
    LiveReceipts(x, r);
    assert ReceiptOk(x.server, r);
    if id in x'.server.connections {
      if id !in x.server.connections {
        OnlyAcceptAdds(w, x.server, c, id);
      } else {
        PerformMoves(w, x, c, id);
        assert PeerOk(x.server, id);
        assert PeerOk(x'.server, id);
        LiveReceipts(x', r);
      }
    }
  }

  /** Over any run a receipt settles once: pending, then drained, then closed, never back. */
  lemma {:induction false} SettlementMonotone(w: Wire, x: World, cs: seq<Call>, r: Receipt)
    requires w.Fits() && WorldInv(x) && PermittedRun(w, x, cs) && r in x.issued
    ensures r in RunFrom(w, x, cs).issued
    ensures MayBecome(ResponseSettlement(x.server, r), ResponseSettlement(RunFrom(w, x, cs).server, r))
    ensures ResponseSettlement(RunFrom(w, x, cs).server, r) == Closed <==>
              r.connection !in RunFrom(w, x, cs).server.connections
  {
    if cs == [] {
      LiveReceipts(x, r);
    } else {
      var p := cs[..|cs| - 1];
      SettlementMonotone(w, x, p, r);
      RunFromKeeps(w, x, p);
      SettlementStep(w, RunFrom(w, x, p), cs[|cs| - 1], r);
      RunFromKeeps(w, x, cs);
      LiveReceipts(RunFrom(w, x, cs), r);
    }
  }
}
