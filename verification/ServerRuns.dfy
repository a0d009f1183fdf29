/** Runs of the control server: what the application and the kernel owe it, and what every
    reachable server keeps. */
module ServerRuns {
  import opened Optional
  import opened Frames
  import opened Protocol
  import opened ConnectionRuns
  import CT = ConnectionTheorems
  import opened Server

  datatype Call =
    | Service(now: Instant, ready: ReadyEvent, io: Io)
    | ExpireDue(now: Instant)
    | Completes(now: Instant, id: nat, response: Text)
    | Subscribes(now: Instant, id: nat, state: Text)
    | Fences(receipt: Receipt)
    | Publishes(now: Instant, state: Text)
    | Shuts(now: Instant)

  ghost function Perform(w: Wire, s: Server, c: Call): (o: Outcome) {
    match c
    case Service(now, ready, io) => ServiceOne(w, s, now, ready, io)
    case ExpireDue(now) => Done(ExpireAll(s, now))
    case Completes(now, id, response) => CompleteOne(s, now, id, response)
    case Subscribes(now, id, state) => AcceptSubscription(s, now, id, state)
    case Fences(receipt) => BeginBarrier(s, receipt)
    case Publishes(now, state) => PublishAll(s, now, state)
    case Shuts(now) => Done(ShutdownAll(w, s, now))
  }

  /** The server and what its application knows: the requests it was handed and has not
      completed, and the receipts it was given. */
  datatype World = World(server: Server, outstanding: map<nat, Request>, issued: set<Receipt>)

  /** Sockets take no more than they were offered and deliver at least one byte. The application
      completes a request it was handed, once and with the matching call, and waits only for
      receipts it was given. */
  ghost predicate Permitted(x: World, c: Call) {
    match c
    case Service(now, ready, io) =>
      && (io.receive.Received? ==> io.receive.bytes != [])
      && (io.send.Taken? ==> forall id :: HasToken(x.server, id, ready.token) ==>
            io.send.count <= |Remaining(x.server.connections[id].machine)|)
    case Completes(_, id, _) => id in x.outstanding && !x.outstanding[id].Subscribe?
    case Subscribes(_, id, _) => id in x.outstanding && x.outstanding[id].Subscribe?
    case Fences(receipt) => receipt in x.issued
    case _ => true
  }

  /** The application notes what it was handed. */
  function Noted(x: World, o: Outcome): (r: World) {
    World(o.server,
          if o.delivery.Some? then x.outstanding[o.delivery.value.connection := o.delivery.value.request]
          else x.outstanding,
          if o.receipt.Some? then x.issued + {o.receipt.value} else x.issued)
  }

  ghost function Advance(w: Wire, x: World, c: Call): (r: World) {
    var left := if c.Completes? || c.Subscribes? then x.outstanding - {c.id} else x.outstanding;
    Noted(x.(outstanding := left), Perform(w, x.server, c))
  }

  ghost function RunFrom(w: Wire, x: World, cs: seq<Call>): (r: World) {
    if cs == [] then x else Advance(w, RunFrom(w, x, cs[..|cs| - 1]), cs[|cs| - 1])
  }

  ghost predicate PermittedRun(w: Wire, x: World, cs: seq<Call>) {
    cs == [] ||
    (PermittedRun(w, x, cs[..|cs| - 1]) && Permitted(RunFrom(w, x, cs[..|cs| - 1]), cs[|cs| - 1]))
  }

  const Begin: World := World(NewServer(), map[], {})

  // ---- what every reachable server keeps -------------------------------------------

  function Bound(n: Option<nat>): (r: nat) { if n.Some? then n.value else U64_MAX + 1 }

  /** Sequences are handed out one by one: all but the pending one have drained. */
  predicate SequencesOk(p: Peer) {
    var n := Bound(p.nextSequence);
    && 1 <= n <= U64_MAX + 1 && (p.nextSequence.Some? ==> n <= U64_MAX)
    && (p.pendingResponse.Some? ==> p.pendingResponse.value == n - 1 && n >= 2)
    && var drained := if p.pendingResponse.Some? then n - 2 else n - 1;
       p.lastDrained == if drained == 0 then None else Some(drained)
  }

  predicate PeerInv(p: Peer) {
    && WellFormed(p.machine) && !p.machine.phase.Closing?
    && SequencesOk(p)
    && (p.pendingResponse.Some? <==> p.machine.phase.Ready? && p.machine.output.Some?)
  }

  predicate PeerOk(s: Server, id: nat)
    requires id in s.connections
  {
    var p := s.connections[id];
    && id < Bound(s.nextConnectionId)
    && 1 <= p.token < Bound(s.nextToken)
    && PeerInv(p)
    && p.machine.shuttingDown == s.shuttingDown
    && (s.shuttingDown ==> p.machine.phase.Subscriber?)
  }

  predicate ServerInv(s: Server) {
    && (s.shuttingDown ==> s.barrier.None?)
    && (s.nextConnectionId.Some? ==> s.nextConnectionId.value <= U64_MAX)
    && (s.nextToken.Some? ==> 1 <= s.nextToken.value <= U64_MAX)
    && |s.connections| <= CONNECTION_LIMIT
    && (forall id :: id in s.connections ==> PeerOk(s, id))
    && TokensDistinct(s.connections)
  }

  /** The application's view agrees with the machines. */
  predicate ViewOk(x: World, id: nat)
    requires id in x.server.connections
  {
    var m := x.server.connections[id].machine;
    && (m.requestPending <==> id in x.outstanding)
    && (id in x.outstanding ==> (m.pendingSubscribe <==> x.outstanding[id].Subscribe?))
  }

  predicate ReceiptOk(s: Server, r: Receipt) {
    && r.sequence >= 1
    && r.connection < Bound(s.nextConnectionId)
    && (r.connection in s.connections ==> r.sequence < Bound(s.connections[r.connection].nextSequence))
  }

  predicate WorldInv(x: World) {
    && ServerInv(x.server)
    && (forall id :: id in x.server.connections ==> ViewOk(x, id))
    && (forall id :: id in x.outstanding ==> id < Bound(x.server.nextConnectionId))
    && (forall r :: r in x.issued ==> ReceiptOk(x.server, r))
  }

  // ---- one connection under one event --------------------------------------------------

  lemma {:induction false} FeedEmits(w: Wire, m: Machine, now: Instant, bytes: Bytes)
    requires WellFormed(m) && Reading(m)
    ensures var n := Feed(w, m, now, bytes);
            && !n.action.OutboundFrameTooLarge?
            && n.machine.shuttingDown == m.shuttingDown
            && (n.action.Emit? ==> n.machine.requestPending && (n.machine.pendingSubscribe <==> n.action.request.Subscribe?))
            && (n.action.NoAction? ==> !n.machine.requestPending)
            && (n.machine.phase.Ready? ==> n.machine.output.None?)
    decreases |bytes|
  {
    if bytes != [] {
      OnByteKeeps(w, m, now, bytes[0], |bytes| == 1);
      match OnByte(w, m, now, bytes[0], |bytes| == 1)
      case Halt(_) =>
      case Go(m') => FeedEmits(w, m', now, bytes[1..]);
    }
  }

  /** What a socket event does to the pending request. */
  lemma EventEmits(w: Wire, m: Machine, now: Instant, e: Event)
    requires WellFormed(m) && Allowed(m, e) && (e.Read? || e.Eof? || e.Sent?)
    ensures var n := Step(w, m, now, e);
            && !n.action.OutboundFrameTooLarge?
            && n.machine.shuttingDown == m.shuttingDown
            && (n.action.Emit? ==> n.machine.requestPending && (n.machine.pendingSubscribe <==> n.action.request.Subscribe?))
            && (n.action.NoAction? ==> n.machine.requestPending == m.requestPending &&
                                       (m.requestPending ==> n.machine.pendingSubscribe == m.pendingSubscribe))
            && (!n.action.Close? && m.phase.Subscriber? ==> n.machine.phase.Subscriber?)
  {
    match e
    case Read(bytes) =>
      if Reading(m) {
        FeedEmits(w, m, now, bytes);
      }
    case Sent(count) =>
      if m.output.Some? && m.output.value.offset + count == |m.output.value.bytes| {
        assert Step(w, m, now, e) == Finish(w, Emptied(m), now, m.output.value.kind);
      }
    case Eof =>
  }

  lemma ReceivingPeer(w: Wire, p: Peer, now: Instant, e: Event)
    requires w.Fits() && PeerInv(p) && InputEnabled(p.machine) && (e.Read? || e.Eof?)
    requires !Step(w, p.machine, now, e).action.Close?
    ensures PeerInv(p.(machine := Step(w, p.machine, now, e).machine))
  {
    var n := Step(w, p.machine, now, e);
    StepKeeps(w, p.machine, now, e);
    CT.ClosingIsReported(w, p.machine, now, e);
    if e.Read? && Reading(p.machine) {
      FeedEmits(w, p.machine, now, e.bytes);
    }
  }

  lemma SendingPeer(w: Wire, p: Peer, now: Instant, count: nat)
    requires w.Fits() && PeerInv(p) && count <= |Remaining(p.machine)|
    requires !AdvanceOutput(w, p.machine, now, count).action.Close?
    ensures PeerInv(Settle(p.(machine := AdvanceOutput(w, p.machine, now, count).machine)))
  {
    var m := p.machine;
    StepKeeps(w, m, now, Sent(count));
    CT.ClosingIsReported(w, m, now, Sent(count));
    if m.output.Some? && m.output.value.offset + count == |m.output.value.bytes| {
      assert AdvanceOutput(w, m, now, count) == Finish(w, Emptied(m), now, m.output.value.kind);
    }
  }

  // ---- the two ways a call changes the set of connections -------------------------------

  lemma Shrunk(x: World, s': Server)
    requires WorldInv(x) && s' == x.server.(connections := s'.connections)
    requires forall id :: id in s'.connections ==>
               id in x.server.connections && s'.connections[id] == x.server.connections[id]
    ensures WorldInv(x.(server := s'))
  {
    assert s'.connections.Keys <= x.server.connections.Keys;
    SmallerSet(s'.connections.Keys, x.server.connections.Keys);
    forall id | id in s'.connections ensures PeerOk(s', id) && ViewOk(x.(server := s'), id) {
      assert PeerOk(x.server, id) && ViewOk(x, id);
    }
    forall r | r in x.issued ensures ReceiptOk(s', r) {
      assert ReceiptOk(x.server, r);
    }
  }

  lemma {:induction false} SmallerSet(a: set<nat>, b: set<nat>)
    requires a <= b
    ensures |a| <= |b|
  {
    assert b == a + (b - a) && a !! (b - a);
  }

  lemma TokensPut(cs: map<nat, Peer>, id: nat, p': Peer)
    requires TokensDistinct(cs)
    requires if id in cs then p'.token == cs[id].token else forall j :: j in cs ==> cs[j].token != p'.token
    ensures TokensDistinct(cs[id := p'])
  {}

  lemma ReplacedServer(s: Server, id: nat, p': Peer)
    requires ServerInv(s) && id in s.connections
    requires PeerOk(Put(s, id, p'), id) && p'.token == s.connections[id].token
    ensures ServerInv(Put(s, id, p'))
  {
    var s' := Put(s, id, p');
    assert s'.connections.Keys == s.connections.Keys;
    TokensPut(s.connections, id, p');
    forall j | j in s'.connections ensures PeerOk(s', j) {
      if j != id {
        assert PeerOk(s, j);
      }
    }
  }

  /** One connection moves on; the application's view moves with it. */
  lemma Replaced(x: World, id: nat, p': Peer, x': World)
    requires WorldInv(x) && id in x.server.connections && x'.server == Put(x.server, id, p')
    requires p'.token == x.server.connections[id].token
    requires PeerOk(x'.server, id)
    requires Bound(x.server.connections[id].nextSequence) <= Bound(p'.nextSequence)
    requires x'.outstanding - {id} == x.outstanding - {id} && ViewOk(x', id)
    requires forall r :: r in x'.issued ==> r in x.issued || ReceiptOk(x'.server, r)
    ensures WorldInv(x')
  {
    ReplacedServer(x.server, id, p');
    forall j | j in x'.server.connections ensures ViewOk(x', j) {
      if j != id {
        assert ViewOk(x, j);
        SameElsewhere(x.outstanding, x'.outstanding, id, j);
      }
    }
    forall j | j in x'.outstanding ensures j < Bound(x'.server.nextConnectionId) {
      if j != id {
        SameElsewhere(x.outstanding, x'.outstanding, id, j);
      }
    }
    forall r | r in x'.issued ensures ReceiptOk(x'.server, r) {
      if r in x.issued {
        assert ReceiptOk(x.server, r);
      }
    }
  }

  lemma SameElsewhere(a: map<nat, Request>, b: map<nat, Request>, id: nat, j: nat)
    requires a - {id} == b - {id} && j != id
    ensures (j in a <==> j in b) && (j in a ==> a[j] == b[j])
  {
    assert (j in a - {id} <==> j in a) && (j in b - {id} <==> j in b);
    if j in a {
      assert (a - {id})[j] == a[j] && (b - {id})[j] == b[j];
    }
  }

  // ---- every call keeps the invariant ---------------------------------------------------

  lemma ExpireKeeps(x: World, now: Instant)
    requires WorldInv(x)
    ensures WorldInv(x.(server := ExpireAll(x.server, now)))
  {
    Shrunk(x, ExpireAll(x.server, now));
  }

  lemma DropKeeps(x: World, id: nat)
    requires WorldInv(x)
    ensures WorldInv(x.(server := Drop(x.server, id)))
  {
    Shrunk(x, Drop(x.server, id));
  }

  lemma DropPut(s: Server, id: nat, p: Peer)
    ensures Drop(Put(s, id, p), id) == Drop(s, id)
  {
    assert s.connections[id := p] - {id} == s.connections - {id};
  }

  /** A socket event on one connection, `p'` being what is left of it unless it closes. */
  lemma SocketEvent(w: Wire, x: World, now: Instant, id: nat, e: Event, p': Peer)
    requires WorldInv(x) && id in x.server.connections
    requires Allowed(x.server.connections[id].machine, e) && (e.Read? || e.Eof? || e.Sent?)
    requires var p := x.server.connections[id];
             var n := Step(w, p.machine, now, e);
             && p'.machine == n.machine && p'.token == p.token && p'.nextSequence == p.nextSequence
             && (!n.action.Close? ==> PeerInv(p'))
    ensures var n := Step(w, x.server.connections[id].machine, now, e);
            WorldInv(Noted(x, ApplyAction(Put(x.server, id, p'), id, n.action)))
  {
    var p := x.server.connections[id];
    var n := Step(w, p.machine, now, e);
    assert PeerOk(x.server, id) && ViewOk(x, id);
    EventEmits(w, p.machine, now, e);
    if n.action.Close? {
      DropPut(x.server, id, p');
      DropKeeps(x, id);
    } else {
      EventNoted(x, id, p', n.action);
    }
  }

  /** The machine's action is noted and its connection moved on. */
  lemma EventNoted(x: World, id: nat, p': Peer, a: Action)
    requires WorldInv(x) && id in x.server.connections && (a.NoAction? || a.Emit?)
    requires PeerInv(p') && p'.token == x.server.connections[id].token
    requires p'.nextSequence == x.server.connections[id].nextSequence
    requires PeerOk(Put(x.server, id, p'), id)
    requires ViewOk(World(Put(x.server, id, p'), if a.Emit? then x.outstanding[id := a.request] else x.outstanding, x.issued), id)
    ensures WorldInv(Noted(x, ApplyAction(Put(x.server, id, p'), id, a)))
  {
    var x' := World(Put(x.server, id, p'), if a.Emit? then x.outstanding[id := a.request] else x.outstanding, x.issued);
    assert x' == Noted(x, ApplyAction(Put(x.server, id, p'), id, a));
    assert x'.outstanding - {id} == x.outstanding - {id};
    Replaced(x, id, p', x');
  }

  lemma ReceiveKeeps(w: Wire, x: World, now: Instant, id: nat, r: ReceiveResult)
    requires w.Fits() && WorldInv(x) && id in x.server.connections && InputEnabled(x.server.connections[id].machine)
    ensures WorldInv(Noted(x, ReceiveOne(w, x.server, now, id, r)))
  {
    var p := x.server.connections[id];
    assert PeerOk(x.server, id);
    match r
    case ReceiveRetry =>
    case ReceiveReset => DropKeeps(x, id);
    case ReceiveFailed => DropKeeps(x, id);
    case EndOfFile =>
      var n := Step(w, p.machine, now, Eof);
      if !n.action.Close? { ReceivingPeer(w, p, now, Eof); }
      SocketEvent(w, x, now, id, Eof, p.(machine := n.machine));
    case Received(bytes) =>
      var n := Step(w, p.machine, now, Read(bytes));
      if !n.action.Close? { ReceivingPeer(w, p, now, Read(bytes)); }
      SocketEvent(w, x, now, id, Read(bytes), p.(machine := n.machine));
  }

  lemma SendKeeps(w: Wire, x: World, now: Instant, id: nat, r: SendResult)
    requires w.Fits() && WorldInv(x) && id in x.server.connections
    requires r.Taken? ==> r.count <= |Remaining(x.server.connections[id].machine)|
    ensures WorldInv(Noted(x, SendOne(w, x.server, now, id, r)))
  {
    var p := x.server.connections[id];
    assert PeerOk(x.server, id);
    match r
    case SendRetry =>
    case SendReset => DropKeeps(x, id);
    case SendFailed => DropKeeps(x, id);
    case Taken(count) => TakenKeeps(w, x, now, id, count);
  }

  lemma TakenKeeps(w: Wire, x: World, now: Instant, id: nat, count: nat)
    requires w.Fits() && WorldInv(x) && id in x.server.connections
    requires count <= |Remaining(x.server.connections[id].machine)|
    ensures WorldInv(Noted(x, SendOne(w, x.server, now, id, Taken(count))))
  {
    var p := x.server.connections[id];
    assert PeerOk(x.server, id);
    var n := Step(w, p.machine, now, Sent(count));
    var p1 := p.(machine := n.machine);
    if !n.action.Close? { SendingPeer(w, p, now, count); }
    SocketEvent(w, x, now, id, Sent(count), if n.action.Close? then p1 else Settle(p1));
  }

  /** The connection an accept adds: identity and token are new, and both counters move past them. */
  lemma AdmittedPeer(s: Server, now: Instant)
    requires ServerInv(s) && !s.shuttingDown && s.nextConnectionId.Some? && s.nextToken.Some?
    requires |s.connections| < CONNECTION_LIMIT
    ensures var (id, s') := (s.nextConnectionId.value, AcceptOne(s, now, Accepted(true)).server);
            && id !in s.connections && s'.connections == s.connections[id := Peer(s.nextToken.value, New(now), Some(1), None, None)]
            && PeerOk(s', id) && Bound(s'.nextConnectionId) == id + 1 && Bound(s'.nextToken) == s.nextToken.value + 1
            && s' == s.(connections := s'.connections, nextConnectionId := s'.nextConnectionId, nextToken := s'.nextToken)
            && (s'.nextConnectionId.Some? ==> s'.nextConnectionId.value <= U64_MAX)
            && (s'.nextToken.Some? ==> s'.nextToken.value <= U64_MAX)
  {
    assert s.nextConnectionId.value in s.connections ==> PeerOk(s, s.nextConnectionId.value);
  }

  lemma Admitted(s: Server, now: Instant)
    requires ServerInv(s) && !s.shuttingDown && |s.connections| < CONNECTION_LIMIT
    requires s.nextConnectionId.Some? && s.nextToken.Some?
    ensures ServerInv(AcceptOne(s, now, Accepted(true)).server)
    ensures s.nextConnectionId.value !in s.connections
  {
    AdmittedPeer(s, now);
    var id, s' := s.nextConnectionId.value, AcceptOne(s, now, Accepted(true)).server;
    forall j | j in s.connections ensures s.connections[j].token != s.nextToken.value {
      assert PeerOk(s, j);
    }
    WithNewPeer(s, s', id, s'.connections[id]);
  }

  lemma WithNewPeer(s: Server, s': Server, id: nat, p: Peer)
    requires ServerInv(s) && |s.connections| < CONNECTION_LIMIT && id !in s.connections
    requires s'.connections == s.connections[id := p] && s'.shuttingDown == s.shuttingDown && s'.barrier == s.barrier
    requires Bound(s.nextConnectionId) <= Bound(s'.nextConnectionId) && Bound(s.nextToken) <= Bound(s'.nextToken)
    requires s'.nextConnectionId.Some? ==> s'.nextConnectionId.value <= U64_MAX
    requires s'.nextToken.Some? ==> 1 <= s'.nextToken.value <= U64_MAX
    requires PeerOk(s', id) && forall j :: j in s.connections ==> s.connections[j].token != p.token
    ensures ServerInv(s')
  {
    assert s'.connections.Keys == s.connections.Keys + {id};
    TokensPut(s.connections, id, p);
    forall j | j in s'.connections ensures PeerOk(s', j) {
      if j != id {
        assert PeerOk(s, j);
      }
    }
  }

  lemma AcceptKeeps(x: World, now: Instant, a: AcceptResult)
    requires WorldInv(x) && !x.server.shuttingDown
    ensures WorldInv(Noted(x, AcceptOne(x.server, now, a)))
  {
    var s, s' := x.server, AcceptOne(x.server, now, a).server;
    if s' == s {
      assert Noted(x, AcceptOne(s, now, a)) == x;
    } else {
      var id := s.nextConnectionId.value;
      Admitted(s, now);
      assert Noted(x, AcceptOne(s, now, a)) == x.(server := s');
      forall j | j in s'.connections ensures ViewOk(x.(server := s'), j) {
        if j != id {
          assert ViewOk(x, j);
        }
      }
      forall r | r in x.issued ensures ReceiptOk(s', r) {
        assert ReceiptOk(s, r);
      }
    }
  }

  lemma PeerKeeps(w: Wire, x: World, now: Instant, id: nat, ready: ReadyEvent, io: Io)
    requires w.Fits() && WorldInv(x) && HasToken(x.server, id, ready.token) && Permitted(x, Service(now, ready, io))
    ensures WorldInv(Noted(x, ServicePeer(w, x.server, now, id, ready, io)))
  {
    var m := x.server.connections[id].machine;
    if ready.readable && InputEnabled(m) {
      ReceiveKeeps(w, x, now, id, io.receive);
    } else if ready.terminal {
      DropKeeps(x, id);
    } else if ready.writable && m.output.Some? {
      SendKeeps(w, x, now, id, io.send);
    }
  }

  lemma BarrierKeeps(w: Wire, x: World, now: Instant, r: Receipt, ready: ReadyEvent, io: Io)
    requires w.Fits() && WorldInv(x) && Permitted(x, Service(now, ready, io))
    ensures WorldInv(Noted(x, ServiceBarrier(w, x.server, now, r, ready, io)))
  {
    var o := ServiceBarrier(w, x.server, now, r, ready, io);
    if ResponseSettlement(x.server, r) != Pending || !HasToken(x.server, r.connection, ready.token) {
      assert o == Done(x.server) && Noted(x, o) == x;
    } else if ready.terminal {
      assert Noted(x, o) == x.(server := Drop(x.server, r.connection));
      DropKeeps(x, r.connection);
    } else if ready.writable {
      assert o == SendOne(w, x.server, now, r.connection, io.send);
      SendKeeps(w, x, now, r.connection, io.send);
    } else {
      assert Noted(x, o) == x;
    }
  }

  lemma PermittedAfterExpiry(x: World, now: Instant, ready: ReadyEvent, io: Io)
    requires Permitted(x, Service(now, ready, io))
    ensures Permitted(x.(server := ExpireAll(x.server, now)), Service(now, ready, io))
  {
    var s1 := ExpireAll(x.server, now);
    forall id | HasToken(s1, id, ready.token) ensures HasToken(x.server, id, ready.token) {}
  }

  lemma ServiceKeeps(w: Wire, x: World, now: Instant, ready: ReadyEvent, io: Io)
    requires w.Fits() && WorldInv(x) && Permitted(x, Service(now, ready, io))
    ensures WorldInv(Noted(x, ServiceOne(w, x.server, now, ready, io)))
  {
    var s1, o := ExpireAll(x.server, now), ServiceOne(w, x.server, now, ready, io);
    var x1 := x.(server := s1);
    ExpireKeeps(x, now);
    PermittedAfterExpiry(x, now, ready, io);
    assert Noted(x, o) == Noted(x1, o);
    if s1.barrier.Some? {
      assert o == ServiceBarrier(w, s1, now, s1.barrier.value, ready, io);
      BarrierKeeps(w, x1, now, s1.barrier.value, ready, io);
    } else if ready.token == LISTENER_TOKEN {
      if !s1.shuttingDown && !ready.terminal && ready.readable {
        assert o == AcceptOne(s1, now, io.accept);
        AcceptKeeps(x1, now, io.accept);
      } else {
        assert Noted(x1, o) == x1;
      }
    } else if FindToken(s1, ready.token).Some? {
      var id := FindToken(s1, ready.token).value;
      assert o == ServicePeer(w, s1, now, id, ready, io);
      PeerKeeps(w, x1, now, id, ready, io);
    } else {
      assert Noted(x1, o) == x1;
    }
  }

  lemma RespondingPeer(p: Peer, now: Instant, response: Text)
    requires PeerInv(p) && p.nextSequence.Some? && p.machine.requestPending && !p.machine.pendingSubscribe
    requires !p.machine.shuttingDown && |response| < MAX_FRAME_BYTES
    ensures var n := CompleteRequest(p.machine, now, response);
            var q := p.nextSequence.value;
            && PeerInv(p.(machine := n.machine, pendingResponse := Some(q), nextSequence := CheckedAdd(q)))
            && !n.machine.requestPending && !n.machine.shuttingDown && n.action.NoAction?
  {}

  lemma CompleteKeeps(w: Wire, x: World, now: Instant, id: nat, response: Text)
    requires WorldInv(x) && Permitted(x, Completes(now, id, response))
    ensures WorldInv(Advance(w, x, Completes(now, id, response)))
  {
    var s, x' := x.server, Advance(w, x, Completes(now, id, response));
    if id !in s.connections || s.shuttingDown {
      ForgetKeeps(x, id);
    } else {
      assert PeerOk(s, id) && ViewOk(x, id);
      var p := s.connections[id];
      if p.nextSequence.None? || |response| >= MAX_FRAME_BYTES {
        DropKeeps(x, id);
        ForgetKeeps(x.(server := Drop(s, id)), id);
      } else {
        RespondingPeer(p, now, response);
        assert x'.outstanding - {id} == x.outstanding - {id};
        Replaced(x, id, x'.server.connections[id], x');
      }
    }
  }

  /** The application may forget a request whose connection no longer waits for it. */
  lemma ForgetKeeps(x: World, id: nat)
    requires WorldInv(x) && (id in x.server.connections ==> x.server.shuttingDown)
    ensures WorldInv(x.(outstanding := x.outstanding - {id}))
  {
    var x' := x.(outstanding := x.outstanding - {id});
    forall j | j in x'.server.connections ensures ViewOk(x', j) {
      assert ViewOk(x, j) && PeerOk(x.server, j);
    }
  }

  lemma SubscribedKeeps(w: Wire, x: World, now: Instant, id: nat, state: Text)
    requires WorldInv(x) && Permitted(x, Subscribes(now, id, state)) && |state| < MAX_FRAME_BYTES
    requires id in x.server.connections && !x.server.shuttingDown
    ensures WorldInv(Advance(w, x, Subscribes(now, id, state)))
  {
    var p := x.server.connections[id];
    assert PeerOk(x.server, id) && ViewOk(x, id);
    StepKeeps(w, p.machine, now, AcceptSubscriber(state));
    var p' := p.(machine := CompleteSubscribe(p.machine, now, state).machine);
    var x' := World(Put(x.server, id, p'), x.outstanding - {id}, x.issued);
    assert x' == Advance(w, x, Subscribes(now, id, state));
    assert x'.outstanding - {id} == x.outstanding - {id};
    Replaced(x, id, p', x');
  }

  lemma SubscribeKeeps(w: Wire, x: World, now: Instant, id: nat, state: Text)
    requires WorldInv(x) && Permitted(x, Subscribes(now, id, state))
    ensures WorldInv(Advance(w, x, Subscribes(now, id, state)))
  {
    var s := x.server;
    if id !in s.connections || s.shuttingDown {
      ForgetKeeps(x, id);
    } else {
      assert PeerOk(s, id) && ViewOk(x, id);
      if |state| >= MAX_FRAME_BYTES {
        DropKeeps(x, id);
        ForgetKeeps(x.(server := Drop(s, id)), id);
      } else {
        SubscribedKeeps(w, x, now, id, state);
      }
    }
  }

  /** Every surviving connection takes one step of its own that leaves its receipts and its
      pending request alone. */
  lemma Swept(x: World, s': Server)
    requires WorldInv(x)
    requires s'.nextConnectionId == x.server.nextConnectionId && s'.nextToken == x.server.nextToken
    requires s'.shuttingDown ==> s'.barrier.None?
    requires forall id :: id in s'.connections ==>
               && id in x.server.connections && PeerOk(s', id)
               && s'.connections[id] == x.server.connections[id].(machine := s'.connections[id].machine)
               && s'.connections[id].machine.requestPending == x.server.connections[id].machine.requestPending
               && s'.connections[id].machine.pendingSubscribe == x.server.connections[id].machine.pendingSubscribe
    ensures WorldInv(x.(server := s'))
  {
    assert s'.connections.Keys <= x.server.connections.Keys;
    SmallerSet(s'.connections.Keys, x.server.connections.Keys);
    forall id | id in s'.connections ensures ViewOk(x.(server := s'), id) {
      assert ViewOk(x, id);
    }
    forall r | r in x.issued ensures ReceiptOk(s', r) {
      assert ReceiptOk(x.server, r);
    }
  }

  lemma PendingMeansRunning(s: Server, r: Receipt)
    requires ServerInv(s) && ResponseSettlement(s, r) == Pending
    ensures !s.shuttingDown
  {
    assert PeerOk(s, r.connection);
  }

  lemma BarrierSet(x: World, b: Option<Receipt>)
    requires WorldInv(x) && !x.server.shuttingDown
    ensures WorldInv(x.(server := x.server.(barrier := b)))
  {
    var s' := x.server.(barrier := b);
    forall id | id in s'.connections ensures PeerOk(s', id) {
      assert PeerOk(x.server, id);
    }
    assert ServerInv(s');
    forall id | id in s'.connections ensures ViewOk(x.(server := s'), id) {
      assert ViewOk(x, id);
    }
    forall q | q in x.issued ensures ReceiptOk(s', q) {
      assert ReceiptOk(x.server, q);
    }
  }

  lemma FenceOnly(w: Wire, x: World, r: Receipt)
    ensures Advance(w, x, Fences(r)) == x.(server := BeginBarrier(x.server, r).server)
  {}

  lemma FenceKeeps(w: Wire, x: World, r: Receipt)
    requires WorldInv(x)
    ensures WorldInv(Advance(w, x, Fences(r)))
  {
    var s := x.server;
    FenceOnly(w, x, r);
    if ResponseSettlement(s, r) == Pending && s.barrier.None? {
      PendingMeansRunning(s, r);
      BarrierSet(x, Some(r));
    } else {
      assert BeginBarrier(s, r).server == s;
    }
  }

  lemma PublishedPeer(p: Peer, now: Instant, frame: Bytes)
    requires PeerInv(p) && !p.machine.shuttingDown && IsFrame(frame)
    ensures var n := PublishTo(p, now, frame);
            !n.action.Close? ==>
              && PeerInv(p.(machine := n.machine)) && !n.machine.shuttingDown
              && n.machine.requestPending == p.machine.requestPending
              && n.machine.pendingSubscribe == p.machine.pendingSubscribe
  {}

  lemma PublishKeeps(w: Wire, x: World, now: Instant, state: Text)
    requires WorldInv(x)
    ensures WorldInv(Advance(w, x, Publishes(now, state)))
  {
    var s, s' := x.server, PublishAll(x.server, now, state).server;
    assert Advance(w, x, Publishes(now, state)) == x.(server := s');
    if s.shuttingDown || Subscribers(s) == {} {
      assert s' == s;
    } else if |state| >= MAX_FRAME_BYTES {
      Shrunk(x, s');
    } else {
      var frame := Encode(state).value;
      forall id | id in s'.connections
        ensures id in s.connections && PeerOk(s', id) &&
                s'.connections[id] == s.connections[id].(machine := s'.connections[id].machine) &&
                s'.connections[id].machine.requestPending == s.connections[id].machine.requestPending &&
                s'.connections[id].machine.pendingSubscribe == s.connections[id].machine.pendingSubscribe
      {
        assert PeerOk(s, id);
        PublishedPeer(s.connections[id], now, frame);
      }
      Swept(x, s');
    }
  }

  lemma ShutPeer(w: Wire, p: Peer, now: Instant)
    requires w.Fits() && PeerInv(p) && !p.machine.shuttingDown
    ensures var n := BeginShutdown(w, p.machine, now);
            !n.action.Close? ==>
              && PeerInv(p.(machine := n.machine)) && n.machine.shuttingDown && n.machine.phase.Subscriber?
              && n.machine.shutdownDeadline == Some(now + TERMINAL_TIMEOUT)
              && n.machine.requestPending == p.machine.requestPending
              && n.machine.pendingSubscribe == p.machine.pendingSubscribe
  {
    StepKeeps(w, p.machine, now, StartShutdown);
  }

  lemma ShutdownKeeps(w: Wire, x: World, now: Instant)
    requires w.Fits() && WorldInv(x)
    ensures WorldInv(Advance(w, x, Shuts(now)))
  {
    var s, s' := x.server, ShutdownAll(w, x.server, now);
    assert Advance(w, x, Shuts(now)) == x.(server := s');
    if !s.shuttingDown {
      forall id | id in s'.connections
        ensures id in s.connections && PeerOk(s', id) &&
                s'.connections[id] == s.connections[id].(machine := s'.connections[id].machine) &&
                s'.connections[id].machine.requestPending == s.connections[id].machine.requestPending &&
                s'.connections[id].machine.pendingSubscribe == s.connections[id].machine.pendingSubscribe
      {
        assert PeerOk(s, id);
        ShutPeer(w, s.connections[id], now);
      }
      Swept(x, s');
    }
  }

  lemma CallKeeps(w: Wire, x: World, c: Call)
    requires w.Fits() && WorldInv(x) && Permitted(x, c)
    ensures WorldInv(Advance(w, x, c))
  {
    match c
    case Service(now, ready, io) => ServiceKeeps(w, x, now, ready, io);
    case ExpireDue(now) => ExpireKeeps(x, now);
    case Completes(now, id, response) => CompleteKeeps(w, x, now, id, response);
    case Subscribes(now, id, state) => SubscribeKeeps(w, x, now, id, state);
    case Fences(receipt) => FenceKeeps(w, x, receipt);
    case Publishes(now, state) => PublishKeeps(w, x, now, state);
    case Shuts(now) => ShutdownKeeps(w, x, now);
  }

  lemma {:induction false} RunFromKeeps(w: Wire, x: World, cs: seq<Call>)
    requires w.Fits() && WorldInv(x) && PermittedRun(w, x, cs)
    ensures WorldInv(RunFrom(w, x, cs))
  {
    if cs != [] {
      RunFromKeeps(w, x, cs[..|cs| - 1]);
      CallKeeps(w, RunFrom(w, x, cs[..|cs| - 1]), cs[|cs| - 1]);
    }
  }

  /** Every reachable server: bounded, fresh identities, open well-formed machines, receipts and
      application view in step. */
  lemma ReachableInv(w: Wire, cs: seq<Call>)
    requires w.Fits() && PermittedRun(w, Begin, cs)
    ensures WorldInv(RunFrom(w, Begin, cs))
  {
    RunFromKeeps(w, Begin, cs);
  }
}
