/** What the server lets happen to one connection, up to and including the event that ends it. */
module ServerEvents {
  import opened Optional
  import opened Protocol
  import opened ConnectionRuns
  import opened Server
  import opened ServerRuns
  import opened ServerTheorems

  predicate Expires(s: Server, c: Call, id: nat)
    requires id in s.connections
  {
    (c.Service? || c.ExpireDue?) && Due(s.connections[id], c.now)
  }

  /** What a call brings to one connection, whether or not it survives the call: its expiry, or else
      the event meant for it. */
  function Seen(s: Server, c: Call, id: nat): (e: Option<Stimulus>)
    requires id in s.connections
  {
    if Expires(s, c, id) then Some(At(c.now, Tick)) else EventFor(s, c, id)
  }

  function ActionOf(w: Wire, m: Machine, e: Option<Stimulus>): (a: Action) {
    if e.Some? then Step(w, m, e.value.now, e.value.event).action else NoAction
  }

  /** The gate: every event the server feeds a machine, its last one included, is one the machine
      permits. */
  lemma GateHolds(x: World, c: Call, id: nat)
    requires WorldInv(x) && Permitted(x, c) && id in x.server.connections
    ensures Seen(x.server, c, id).Some? ==> Allowed(x.server.connections[id].machine, Seen(x.server, c, id).value.event)
  {
    var m, e := x.server.connections[id].machine, EventFor(x.server, c, id);
    assert PeerOk(x.server, id);
    match c
    case Service(now, ready, io) => assert e.Some? ==> HasToken(x.server, id, ready.token);
    case _ =>
  }

  // ---- who survives a call -----------------------------------------------------------------

  /** A connection that survives the call survived its expiry. */
  lemma SurvivorNotDue(w: Wire, x: World, c: Call, id: nat)
    requires WorldInv(x) && id in x.server.connections && id in Perform(w, x.server, c).server.connections
    ensures !Expires(x.server, c, id) && (c.Service? ==> id in ExpireAll(x.server, c.now).connections)
  {
    if c.Service? {
      var s1 := ExpireAll(x.server, c.now);
      assert PeerOk(x.server, id);
      if s1.barrier.Some? {
        NoneAddedByBarrier(w, s1, c.now, c.ready, c.io, id);
      } else if c.ready.token == LISTENER_TOKEN {
        ListenerServed(s1, c.now, c.ready, c.io, id);
      } else if FindToken(s1, c.ready.token).Some? {
        NoneAddedByPeer(w, s1, c.now, FindToken(s1, c.ready.token).value, c.ready, c.io, id);
      }
    }
  }

  predicate Ends(a: Action) { a.Close? || a.OutboundFrameTooLarge? }

  lemma PeerRemoves(w: Wire, s: Server, now: Instant, id: nat, ready: ReadyEvent, io: Io, j: nat)
    requires s.barrier.None? && HasToken(s, id, ready.token) && j in s.connections
    requires s.connections[j].token == ready.token ==> j == id
    requires EventFor(s, Service(now, ready, io), j).Some?
    ensures j !in ServicePeer(w, s, now, id, ready, io).server.connections <==>
            Ends(ActionOf(w, s.connections[j].machine, EventFor(s, Service(now, ready, io), j)))
  {}

  lemma BarrierRemoves(w: Wire, s: Server, now: Instant, ready: ReadyEvent, io: Io, j: nat)
    requires s.barrier.Some? && j in s.connections
    requires EventFor(s, Service(now, ready, io), j).Some?
    ensures j !in ServiceBarrier(w, s, now, s.barrier.value, ready, io).server.connections <==>
            Ends(ActionOf(w, s.connections[j].machine, EventFor(s, Service(now, ready, io), j)))
  {}

  lemma ServiceRemoves(w: Wire, s: Server, now: Instant, ready: ReadyEvent, io: Io, id: nat)
    requires id in s.connections && s.connections[id].token != LISTENER_TOKEN && TokensDistinct(s.connections)
    requires !Due(s.connections[id], now) && EventFor(s, Service(now, ready, io), id).Some?
    ensures id !in ServiceOne(w, s, now, ready, io).server.connections <==>
            Ends(ActionOf(w, s.connections[id].machine, EventFor(s, Service(now, ready, io), id)))
  {
    var s1 := ExpireAll(s, now);
    assert EventFor(s1, Service(now, ready, io), id) == EventFor(s, Service(now, ready, io), id);
    if s1.barrier.Some? {
      BarrierRemoves(w, s1, now, ready, io, id);
      assert ServiceOne(w, s, now, ready, io) == ServiceBarrier(w, s1, now, s1.barrier.value, ready, io);
    } else {
      assert HasToken(s1, id, ready.token);
      var j := FindToken(s1, ready.token).value;
      PeerRemoves(w, s1, now, j, ready, io, id);
      assert ServiceOne(w, s, now, ready, io) == ServicePeer(w, s1, now, j, ready, io);
    }
  }

  /** An event the machine answers with a close, or a completion too large to send, is the
      connection's last; after any other event it lives on. */
  lemma LastEvent(w: Wire, x: World, c: Call, id: nat)
    requires WorldInv(x) && id in x.server.connections && Seen(x.server, c, id).Some?
    ensures id !in Perform(w, x.server, c).server.connections <==>
            Ends(ActionOf(w, x.server.connections[id].machine, Seen(x.server, c, id)))
  {
    if Expires(x.server, c, id) {
      if id in Perform(w, x.server, c).server.connections {
        SurvivorNotDue(w, x, c, id);
      }
    } else if c.Service? {
      assert PeerOk(x.server, id);
      ServiceRemoves(w, x.server, c.now, c.ready, c.io, id);
    } else {
      OtherRemoves(w, x.server, c, id);
    }
  }

  lemma OtherRemoves(w: Wire, s: Server, c: Call, id: nat)
    requires !c.Service? && id in s.connections && EventFor(s, c, id).Some?
    ensures id !in Perform(w, s, c).server.connections <==>
            Ends(ActionOf(w, s.connections[id].machine, EventFor(s, c, id)))
  {
    if c.Publishes? {
      assert id in Subscribers(s);
    }
  }

  // ---- requests reach the application exactly as the machines emit them --------------------

  lemma SocketDeliveryLives(w: Wire, s: Server, now: Instant, id: nat, r: ReceiveResult, t: SendResult)
    requires id in s.connections
    ensures ReceiveOne(w, s, now, id, r).delivery.Some? ==>
              ReceiveOne(w, s, now, id, r).delivery.value.connection == id && id in ReceiveOne(w, s, now, id, r).server.connections
    ensures SendOne(w, s, now, id, t).delivery.Some? ==>
              SendOne(w, s, now, id, t).delivery.value.connection == id && id in SendOne(w, s, now, id, t).server.connections
  {}

  lemma DeliveryLives(w: Wire, s: Server, c: Call)
    requires Perform(w, s, c).delivery.Some?
    ensures Perform(w, s, c).delivery.value.connection in Perform(w, s, c).server.connections
  {
    if c.Service? {
      var s1 := ExpireAll(s, c.now);
      if s1.barrier.Some? {
        var id := s1.barrier.value.connection;
        assert Perform(w, s, c) == ServiceBarrier(w, s1, c.now, s1.barrier.value, c.ready, c.io);
        SocketDeliveryLives(w, s1, c.now, id, c.io.receive, c.io.send);
      } else if c.ready.token != LISTENER_TOKEN {
        var id := FindToken(s1, c.ready.token).value;
        assert Perform(w, s, c) == ServicePeer(w, s1, c.now, id, c.ready, c.io);
        SocketDeliveryLives(w, s1, c.now, id, c.io.receive, c.io.send);
      }
    }
  }

  predicate Hands(o: Outcome, id: nat, a: Action) {
    if a.Emit? then o.delivery == Some(Delivery(id, a.request))
    else o.delivery.Some? ==> o.delivery.value.connection != id
  }

  /** The application is handed what the machine emitted, and nothing else of this connection. */
  ghost predicate Delivers(w: Wire, s: Server, c: Call, id: nat)
    requires id in s.connections
  {
    Hands(Perform(w, s, c), id, ActionOf(w, s.connections[id].machine, Seen(s, c, id)))
  }

  lemma ReceivedDelivers(w: Wire, s: Server, now: Instant, id: nat, r: ReceiveResult)
    requires id in s.connections
    ensures var o := ReceiveOne(w, s, now, id, r);
            var e := match r
                     case Received(bytes) => Some(At(now, Read(bytes)))
                     case EndOfFile => Some(At(now, Eof))
                     case _ => None;
            var a := ActionOf(w, s.connections[id].machine, e);
            if a.Emit? then o.delivery == Some(Delivery(id, a.request)) else o.delivery.None?
  {}

  lemma SentDelivers(w: Wire, s: Server, now: Instant, id: nat, r: SendResult)
    requires id in s.connections
    ensures var o := SendOne(w, s, now, id, r);
            var a := ActionOf(w, s.connections[id].machine, if r.Taken? then Some(At(now, Sent(r.count))) else None);
            if a.Emit? then o.delivery == Some(Delivery(id, a.request)) else o.delivery.None?
  {}

  lemma PeerDelivers(w: Wire, s: Server, now: Instant, id: nat, ready: ReadyEvent, io: Io, j: nat)
    requires s.barrier.None? && HasToken(s, id, ready.token) && j in s.connections
    requires s.connections[j].token == ready.token ==> j == id
    ensures var o := ServicePeer(w, s, now, id, ready, io);
            var a := ActionOf(w, s.connections[j].machine, EventFor(s, Service(now, ready, io), j));
            if a.Emit? then o.delivery == Some(Delivery(j, a.request))
            else o.delivery.Some? ==> o.delivery.value.connection != j
  {
    ReceivedDelivers(w, s, now, id, io.receive);
    SentDelivers(w, s, now, id, io.send);
  }

  lemma BarrierDelivers(w: Wire, s: Server, now: Instant, ready: ReadyEvent, io: Io, j: nat)
    requires s.barrier.Some? && j in s.connections
    ensures var o := ServiceBarrier(w, s, now, s.barrier.value, ready, io);
            var a := ActionOf(w, s.connections[j].machine, EventFor(s, Service(now, ready, io), j));
            if a.Emit? then o.delivery == Some(Delivery(j, a.request))
            else o.delivery.Some? ==> o.delivery.value.connection != j
  {
    var r := s.barrier.value;
    if r.connection in s.connections {
      SentDelivers(w, s, now, r.connection, io.send);
    }
  }

  lemma ServiceHands(w: Wire, s: Server, now: Instant, ready: ReadyEvent, io: Io, id: nat)
    requires id in s.connections && s.connections[id].token != LISTENER_TOKEN && TokensDistinct(s.connections)
    requires !Due(s.connections[id], now)
    ensures Hands(ServiceOne(w, s, now, ready, io), id, ActionOf(w, s.connections[id].machine, EventFor(s, Service(now, ready, io), id)))
  {
    var s1, o := ExpireAll(s, now), ServiceOne(w, s, now, ready, io);
    assert EventFor(s1, Service(now, ready, io), id) == EventFor(s, Service(now, ready, io), id);
    if s1.barrier.Some? {
      BarrierDelivers(w, s1, now, ready, io, id);
      assert o == ServiceBarrier(w, s1, now, s1.barrier.value, ready, io);
    } else if ready.token == LISTENER_TOKEN {
      assert o == ServiceListener(s1, now, ready, io) && o.delivery.None?;
    } else if FindToken(s1, ready.token).Some? {
      var j := FindToken(s1, ready.token).value;
      PeerDelivers(w, s1, now, j, ready, io, id);
      assert o == ServicePeer(w, s1, now, j, ready, io);
    } else {
      assert !HasToken(s1, id, ready.token);
      assert o.delivery.None?;
    }
  }

  lemma ServiceDelivers(w: Wire, x: World, c: Call, id: nat)
    requires WorldInv(x) && c.Service? && id in x.server.connections && !Expires(x.server, c, id)
    ensures Delivers(w, x.server, c, id)
  {
    assert PeerOk(x.server, id);
    ServiceHands(w, x.server, c.now, c.ready, c.io, id);
  }

  lemma NoDeliveryOtherwise(w: Wire, m: Machine, s: Server, c: Call, id: nat)
    requires !c.Service? && id in s.connections
    ensures Perform(w, s, c).delivery.None?
    ensures !ActionOf(w, m, EventFor(s, c, id)).Emit?
  {}

  lemma ExpiredGetsNothing(w: Wire, x: World, c: Call, id: nat)
    requires WorldInv(x) && id in x.server.connections && Expires(x.server, c, id)
    requires Perform(w, x.server, c).delivery.Some?
    ensures Perform(w, x.server, c).delivery.value.connection != id
  {
    DeliveryLives(w, x.server, c);
    if Perform(w, x.server, c).delivery.value.connection == id {
      SurvivorNotDue(w, x, c, id);
    }
  }

  lemma HandsNothing(o: Outcome, id: nat, m: Machine, now: Instant)
    requires o.delivery.Some? ==> o.delivery.value.connection != id
    ensures Hands(o, id, Expire(m, now).action)
  {}

  lemma ExpiredDelivers(w: Wire, x: World, c: Call, id: nat)
    requires WorldInv(x) && id in x.server.connections && Expires(x.server, c, id)
    ensures Hands(Perform(w, x.server, c), id, Expire(x.server.connections[id].machine, c.now).action)
  {
    if Perform(w, x.server, c).delivery.Some? {
      ExpiredGetsNothing(w, x, c, id);
    }
    HandsNothing(Perform(w, x.server, c), id, x.server.connections[id].machine, c.now);
  }

  lemma OtherDelivers(w: Wire, s: Server, c: Call, id: nat)
    requires !c.Service? && id in s.connections && !Expires(s, c, id)
    ensures Delivers(w, s, c, id)
  {
    NoDeliveryOtherwise(w, s.connections[id].machine, s, c, id);
  }

  lemma DeliversAll(w: Wire, x: World, c: Call, id: nat)
    requires WorldInv(x) && id in x.server.connections
    ensures Delivers(w, x.server, c, id)
  {
    if Expires(x.server, c, id) {
      assert Seen(x.server, c, id) == Some(At(c.now, Tick));
      ExpiredDelivers(w, x, c, id);
    } else if c.Service? {
      ServiceDelivers(w, x, c, id);
    } else {
      OtherDelivers(w, x.server, c, id);
    }
  }
}
