/** What each call of the server does, told by who is admitted, who is removed and what is reported. */
module ServerEffects {
  import opened Optional
  import opened Frames
  import opened Protocol
  import opened ConnectionRuns
  import opened Server
  import opened ServerRuns
  import opened ServerTheorems
  import opened ServerEvents
  import opened ServerPhases
  import opened ServerTraces

  // ---- admission ---------------------------------------------------------------------------------

  /** The listener reports to a server that still takes peers. */
  predicate ListenerHeard(s: Server, ready: ReadyEvent) {
    ready.token == LISTENER_TOKEN && s.barrier.None? && !s.shuttingDown
  }

  /** A peer of the same user is there, and there is room and an identity and a token for it. */
  predicate Admits(s: Server, c: Call) {
    && c.Service? && ListenerHeard(s, c.ready) && c.ready.readable && !c.ready.terminal
    && c.io.accept == Accepted(true)
    && |ExpireAll(s, c.now).connections| < CONNECTION_LIMIT && s.nextConnectionId.Some? && s.nextToken.Some?
  }

  lemma AcceptAdds(s: Server, now: Instant, a: AcceptResult, id: nat)
    requires |s.connections| <= CONNECTION_LIMIT && (s.nextConnectionId.Some? ==> s.nextConnectionId.value !in s.connections)
    ensures id in AcceptOne(s, now, a).server.connections && id !in s.connections <==>
            a == Accepted(true) && |s.connections| < CONNECTION_LIMIT && s.nextToken.Some? && s.nextConnectionId == Some(id)
  {}

  lemma FreshAfterExpiry(x: World, now: Instant)
    requires WorldInv(x)
    ensures var s1 := ExpireAll(x.server, now);
            |s1.connections| <= CONNECTION_LIMIT && (s1.nextConnectionId.Some? ==> s1.nextConnectionId.value !in x.server.connections)
  {
    var s, s1 := x.server, ExpireAll(x.server, now);
    SmallerSet(s1.connections.Keys, s.connections.Keys);
    assert |s1.connections| == |s1.connections.Keys| && |s.connections| == |s.connections.Keys|;
    assert forall id :: id in s.connections ==> PeerOk(s, id);
  }

  lemma ListenerAdds(w: Wire, x: World, c: Call, id: nat)
    requires WorldInv(x) && c.Service? && c.ready.token == LISTENER_TOKEN && x.server.barrier.None? && id !in x.server.connections
    ensures id in Perform(w, x.server, c).server.connections <==> Admits(x.server, c) && x.server.nextConnectionId == Some(id)
  {
    var s1 := ExpireAll(x.server, c.now);
    FreshAfterExpiry(x, c.now);
    AcceptAdds(s1, c.now, c.io.accept, id);
    assert Perform(w, x.server, c) == ServiceListener(s1, c.now, c.ready, c.io);
  }

  /** A call admits a connection if and only if a peer of the same user is at a listening server's door
      and there is room for it after expiry; it gets the next identity. */
  lemma AdmitsExactly(w: Wire, x: World, c: Call, id: nat)
    requires WorldInv(x)
    ensures id in Perform(w, x.server, c).server.connections && id !in x.server.connections <==>
            Admits(x.server, c) && x.server.nextConnectionId == Some(id)
  {
    if id !in x.server.connections {
      if c.Service? && c.ready.token == LISTENER_TOKEN && x.server.barrier.None? {
        ListenerAdds(w, x, c, id);
      } else {
        NotAdded(w, x.server, c, id);
      }
    } else if x.server.nextConnectionId == Some(id) {
      assert PeerOk(x.server, id);
    }
  }

  lemma NotAdded(w: Wire, s: Server, c: Call, id: nat)
    requires id !in s.connections && !(c.Service? && c.ready.token == LISTENER_TOKEN && s.barrier.None?)
    ensures id !in Perform(w, s, c).server.connections
  {
    if id in Perform(w, s, c).server.connections {
      if c.Service? {
        var s1 := ExpireAll(s, c.now);
        if s1.barrier.Some? {
          NoneAddedByBarrier(w, s1, c.now, c.ready, c.io, id);
        } else if FindToken(s1, c.ready.token).Some? {
          NoneAddedByPeer(w, s1, c.now, FindToken(s1, c.ready.token).value, c.ready, c.io, id);
        }
      } else {
        NoneAddedOtherwise(w, s, c, id);
      }
    }
  }

  /** The call that admitted a connection. */
  predicate AdmittedBy(t: Trace, c: Call) { c.Service? && c.io.accept == Accepted(true) && t.start == c.now }

  /** Every connection ever traced came from an accept of the same user, at the instant its trace starts. */
  lemma {:induction false} EveryoneSameUser(w: Wire, cs: seq<Call>, id: nat) returns (k: nat)
    requires w.Fits() && PermittedRun(w, Begin, cs) && id in Traces(w, cs)
    ensures k < |cs| && AdmittedBy(Traces(w, cs)[id], cs[k]) && Admits(RunFrom(w, Begin, cs[..k]).server, cs[k])
  {
    k := |cs| - 1;
    var p, c := cs[..k], cs[k];
    if id in Traces(w, p) {
      var j := EveryoneSameUser(w, p, id);
      assert p[..j] == cs[..j] && p[j] == cs[j];
      k := j;
    } else {
      ReachableInv(w, p);
      AdmitsExactly(w, RunFrom(w, Begin, p), c, id);
    }
  }

  // ---- whom a readiness event reaches --------------------------------------------------------------

  /** The event makes the server read from this connection. */
  predicate ReadsFrom(s: Server, now: Instant, ready: ReadyEvent, id: nat)
    requires id in s.connections
  {
    && !Due(s.connections[id], now) && s.barrier.None? && s.connections[id].token == ready.token
    && ready.readable && InputEnabled(s.connections[id].machine)
  }

  /** Under a barrier only the connection whose response is awaited is served at all. */
  predicate Served(s: Server, now: Instant, ready: ReadyEvent, id: nat)
    requires id in s.connections
  {
    && !Due(s.connections[id], now) && s.connections[id].token == ready.token && !ReadsFrom(s, now, ready, id)
    && (s.barrier.Some? ==> ResponseSettlement(s, s.barrier.value) == Pending && s.barrier.value.connection == id)
  }

  predicate WritesTo(s: Server, now: Instant, ready: ReadyEvent, id: nat)
    requires id in s.connections
  {
    && Served(s, now, ready, id) && !ready.terminal && ready.writable
    && (s.barrier.None? ==> s.connections[id].machine.output.Some?)
  }

  /** The connection goes without its machine having a say: its socket failed or hung up, its receipts
      ran out, or a state cannot be encoded. */
  predicate Severed(s: Server, c: Call, id: nat)
    requires id in s.connections
  {
    match c
    case Service(now, ready, io) =>
      || (ReadsFrom(s, now, ready, id) && io.receive in {ReceiveReset, ReceiveFailed})
      || (Served(s, now, ready, id) && ready.terminal)
      || (WritesTo(s, now, ready, id) && io.send in {SendReset, SendFailed})
    case Completes(_, i, _) => i == id && !s.shuttingDown && s.connections[id].nextSequence.None?
    case Publishes(_, state) => Listens(s.connections[id]) && !s.shuttingDown && Encode(state).None?
    case _ => false
  }

  lemma PeerSevered(w: Wire, s: Server, now: Instant, id: nat, ready: ReadyEvent, io: Io, j: nat)
    requires s.barrier.None? && HasToken(s, id, ready.token) && j in s.connections && !Due(s.connections[j], now)
    requires s.connections[j].token == ready.token ==> j == id
    requires EventFor(s, Service(now, ready, io), j).None?
    ensures j !in ServicePeer(w, s, now, id, ready, io).server.connections <==> Severed(s, Service(now, ready, io), j)
  {}

  lemma BarrierSevered(w: Wire, s: Server, now: Instant, ready: ReadyEvent, io: Io, j: nat)
    requires s.barrier.Some? && j in s.connections && !Due(s.connections[j], now)
    requires EventFor(s, Service(now, ready, io), j).None?
    ensures j !in ServiceBarrier(w, s, now, s.barrier.value, ready, io).server.connections <==>
            Severed(s, Service(now, ready, io), j)
  {}

  lemma SeveredAfterExpiry(s: Server, now: Instant, ready: ReadyEvent, io: Io, id: nat)
    requires id in s.connections && !Due(s.connections[id], now)
    ensures id in ExpireAll(s, now).connections
    ensures Severed(ExpireAll(s, now), Service(now, ready, io), id) <==> Severed(s, Service(now, ready, io), id)
    ensures EventFor(ExpireAll(s, now), Service(now, ready, io), id) == EventFor(s, Service(now, ready, io), id)
  {}

  lemma ServiceSevered(w: Wire, s: Server, now: Instant, ready: ReadyEvent, io: Io, id: nat)
    requires id in s.connections && s.connections[id].token != LISTENER_TOKEN && TokensDistinct(s.connections)
    requires !Due(s.connections[id], now) && EventFor(s, Service(now, ready, io), id).None?
    ensures id !in ServiceOne(w, s, now, ready, io).server.connections <==> Severed(s, Service(now, ready, io), id)
  {
    var s1, o := ExpireAll(s, now), ServiceOne(w, s, now, ready, io);
    SeveredAfterExpiry(s, now, ready, io, id);
    if s1.barrier.Some? {
      BarrierSevered(w, s1, now, ready, io, id);
      assert o == ServiceBarrier(w, s1, now, s1.barrier.value, ready, io);
    } else if ready.token == LISTENER_TOKEN {
      assert o == ServiceListener(s1, now, ready, io);
    } else if FindToken(s1, ready.token).Some? {
      var j := FindToken(s1, ready.token).value;
      PeerSevered(w, s1, now, j, ready, io, id);
      assert o == ServicePeer(w, s1, now, j, ready, io);
    } else {
      assert !HasToken(s1, id, ready.token);
      assert o == Done(s1);
    }
  }

  lemma OtherSevered(w: Wire, s: Server, c: Call, id: nat)
    requires !c.Service? && id in s.connections && !Expires(s, c, id) && EventFor(s, c, id).None?
    ensures id !in Perform(w, s, c).server.connections <==> Severed(s, c, id)
  {
    if c.Publishes? && Listens(s.connections[id]) {
      assert id in Subscribers(s);
    }
  }

  /** A call removes a connection exactly when its machine answers the event with a close, or a
      completion is too large to send, or it is severed; nobody else goes. */
  lemma RemovedExactly(w: Wire, x: World, c: Call, id: nat)
    requires WorldInv(x) && id in x.server.connections
    ensures var e := Seen(x.server, c, id);
            id !in Perform(w, x.server, c).server.connections <==>
              if e.Some? then Ends(ActionOf(w, x.server.connections[id].machine, e)) else Severed(x.server, c, id)
  {
    if Seen(x.server, c, id).Some? {
      LastEvent(w, x, c, id);
    } else if c.Service? {
      assert PeerOk(x.server, id);
      ServiceSevered(w, x.server, c.now, c.ready, c.io, id);
    } else {
      OtherSevered(w, x.server, c, id);
    }
  }

  // ---- errors ---------------------------------------------------------------------------------------------

  predicate PeerFails(s: Server, now: Instant, ready: ReadyEvent, io: Io, id: nat) {
    && id in s.connections
    && ((ReadsFrom(s, now, ready, id) && io.receive.ReceiveFailed?) || (WritesTo(s, now, ready, id) && io.send.SendFailed?))
  }

  /** The error a readiness event may come to. */
  predicate Reports(s: Server, now: Instant, ready: ReadyEvent, io: Io, e: ControlError) {
    match e
    case ListenerTerminal => ListenerHeard(s, ready) && ready.terminal
    case ResourceExhausted => ListenerHeard(s, ready) && !ready.terminal && ready.readable && io.accept.AcceptExhausted?
    case ListenerIo => ListenerHeard(s, ready) && !ready.terminal && ready.readable && io.accept.AcceptFailed?
    case PeerIo(id) => PeerFails(s, now, ready, io, id)
    case _ => false
  }

  lemma PeerReports(w: Wire, s: Server, now: Instant, id: nat, ready: ReadyEvent, io: Io, e: ControlError)
    requires s.barrier.None? && HasToken(s, id, ready.token) && ready.token != LISTENER_TOKEN && TokensDistinct(s.connections)
    requires !Due(s.connections[id], now)
    ensures ServicePeer(w, s, now, id, ready, io).error == Some(e) <==> Reports(s, now, ready, io, e)
  {}

  lemma BarrierReports(w: Wire, s: Server, now: Instant, ready: ReadyEvent, io: Io, e: ControlError)
    requires s.barrier.Some? && forall id :: id in s.connections ==> !Due(s.connections[id], now)
    ensures ServiceBarrier(w, s, now, s.barrier.value, ready, io).error == Some(e) <==> Reports(s, now, ready, io, e)
  {}

  lemma ReportsAfterExpiry(s: Server, now: Instant, ready: ReadyEvent, io: Io, e: ControlError)
    ensures Reports(ExpireAll(s, now), now, ready, io, e) <==> Reports(s, now, ready, io, e)
  {
    if e.PeerIo? && e.connection in s.connections && !Due(s.connections[e.connection], now) {
      assert e.connection in ExpireAll(s, now).connections;
    }
  }

  /** A readiness event is reported as an error exactly when the listener hung up, could not accept, or
      the connection it reached failed. */
  lemma ServiceReports(w: Wire, x: World, now: Instant, ready: ReadyEvent, io: Io, e: ControlError)
    requires WorldInv(x)
    ensures ServiceOne(w, x.server, now, ready, io).error == Some(e) <==> Reports(x.server, now, ready, io, e)
  {
    var s1, o := ExpireAll(x.server, now), ServiceOne(w, x.server, now, ready, io);
    ReportsAfterExpiry(x.server, now, ready, io, e);
    assert TokensDistinct(s1.connections);
    if s1.barrier.Some? {
      BarrierReports(w, s1, now, ready, io, e);
    } else if ready.token == LISTENER_TOKEN {
      ListenerReports(x, now, ready, io, e);
    } else if FindToken(s1, ready.token).Some? {
      PeerReports(w, s1, now, FindToken(s1, ready.token).value, ready, io, e);
    } else {
      forall id | id in x.server.connections && !Due(x.server.connections[id], now)
        ensures x.server.connections[id].token != ready.token
      {
        assert !HasToken(s1, id, ready.token);
      }
      assert o.error.None?;
    }
  }

  lemma NoPeerAtListener(x: World, now: Instant, ready: ReadyEvent, io: Io, id: nat)
    requires WorldInv(x) && ready.token == LISTENER_TOKEN
    ensures !PeerFails(x.server, now, ready, io, id)
  {
    if id in x.server.connections {
      assert PeerOk(x.server, id);
    }
  }

  lemma ListenerError(s: Server, now: Instant, ready: ReadyEvent, io: Io, e: ControlError)
    requires s.barrier.None? && ready.token == LISTENER_TOKEN && !e.PeerIo?
    ensures ServiceListener(s, now, ready, io).error == Some(e) <==> Reports(s, now, ready, io, e)
  {
    match io.accept
    case Accepted(_) =>
    case AcceptRetry =>
    case AcceptExhausted =>
    case AcceptFailed =>
  }

  lemma ListenerReports(x: World, now: Instant, ready: ReadyEvent, io: Io, e: ControlError)
    requires WorldInv(x) && x.server.barrier.None? && ready.token == LISTENER_TOKEN
    ensures ServiceListener(ExpireAll(x.server, now), now, ready, io).error == Some(e) <==> Reports(x.server, now, ready, io, e)
  {
    ReportsAfterExpiry(x.server, now, ready, io, e);
    if e.PeerIo? {
      NoPeerAtListener(x, now, ready, io, e.connection);
    } else {
      ListenerError(ExpireAll(x.server, now), now, ready, io, e);
    }
  }

  /** A completion is refused exactly for one of four reasons, and otherwise gets the next receipt. */
  lemma RespondReports(s: Server, now: Instant, id: nat, response: Text)
    requires ServerInv(s)
    ensures var o := CompleteOne(s, now, id, response);
            var waits := id in s.connections && s.connections[id].machine.requestPending && !s.connections[id].machine.pendingSubscribe;
            if s.shuttingDown then o == Failed(s, ShuttingDown)
            else if id !in s.connections then o == Failed(s, StaleConnection(id))
            else
              var p := s.connections[id];
              && (o.error == Some(ResponseSequenceExhausted(id)) <==> p.nextSequence.None?)
              && (o.error == Some(OversizedFrame({id})) <==> p.nextSequence.Some? && waits && |response| >= MAX_FRAME_BYTES)
              && (o.error.Some? ==> o.receipt.None? && o.server == Drop(s, id))
              && (o.error.None? ==> o.receipt == Some(Receipt(id, p.nextSequence.value)) && o.server.connections.Keys == s.connections.Keys)
  {
    if id in s.connections {
      assert PeerOk(s, id);
    }
  }

  lemma SubscribeReports(s: Server, now: Instant, id: nat, state: Text)
    requires ServerInv(s)
    ensures var o := AcceptSubscription(s, now, id, state);
            var waits := id in s.connections && s.connections[id].machine.requestPending && s.connections[id].machine.pendingSubscribe;
            if s.shuttingDown then o == Failed(s, ShuttingDown)
            else if id !in s.connections then o == Failed(s, StaleConnection(id))
            else
              && (o.error == Some(OversizedFrame({id})) <==> waits && |state| >= MAX_FRAME_BYTES)
              && (o.error.Some? ==> o.server == Drop(s, id))
              && (o.error.None? ==> o.server.connections.Keys == s.connections.Keys)
  {
    if id in s.connections {
      assert PeerOk(s, id);
    }
  }

  /** A publication fails while shutting down, or when there is somebody to tell and the state is too large. */
  lemma PublishReports(s: Server, now: Instant, state: Text)
    ensures var o := PublishAll(s, now, state);
            && (o.error == Some(ShuttingDown) <==> s.shuttingDown)
            && (o.error == Some(OversizedFrame(Subscribers(s))) <==>
                  !s.shuttingDown && |state| >= MAX_FRAME_BYTES && exists id :: id in s.connections && Listens(s.connections[id]))
            && (o.error.Some? ==> o.error.value in {ShuttingDown, OversizedFrame(Subscribers(s))})
  {
    assert Subscribers(s) != {} <==> exists id :: id in s.connections && Listens(s.connections[id]) by {
      if exists id :: id in s.connections && Listens(s.connections[id]) {
        var id :| id in s.connections && Listens(s.connections[id]);
        assert id in Subscribers(s);
      }
      if Subscribers(s) != {} {
        var id :| id in Subscribers(s);
      }
    }
  }

  // ---- what is polled -----------------------------------------------------------------------------------------

  function OnlyReadable(token: nat): (r: ReadyEvent) { ReadyEvent(token, true, false, false) }

  function OnlyWritable(token: nat): (r: ReadyEvent) { ReadyEvent(token, false, false, true) }

  /** What is polled of a connection is what a service call would act on: readable exactly when bytes
      that arrive would be read, writable exactly when a frame would be offered. */
  lemma PollMatchesService(s: Server, id: nat, now: Instant, io: Io)
    requires id in s.connections && !Due(s.connections[id], now) && s.barrier.None?
    requires io.receive.Received? && io.send.Taken?
    ensures var i := PeerInterest(s, id);
            && i.Some? && i.value in PollInterests(s) && i.value.token == s.connections[id].token
            && (i.value.readable <==>
                  Seen(s, Service(now, OnlyReadable(i.value.token), io), id) == Some(At(now, Read(io.receive.bytes))))
            && (i.value.writable <==>
                  Seen(s, Service(now, OnlyWritable(i.value.token), io), id) == Some(At(now, Sent(io.send.count))))
  {}

  /** The listener is polled exactly while a peer could be admitted, room permitting. */
  lemma ListenerPolled(x: World)
    requires WorldInv(x)
    ensures Interest(LISTENER_TOKEN, true, false) in PollInterests(x.server) <==> x.server.barrier.None? && !x.server.shuttingDown
    ensures forall c :: Admits(x.server, c) ==> Interest(LISTENER_TOKEN, true, false) in PollInterests(x.server)
  {
    forall id | id in x.server.connections ensures x.server.connections[id].token != LISTENER_TOKEN {
      assert PeerOk(x.server, id);
    }
  }

  /** Without a barrier the wake-up times are exactly when expiry would remove somebody. */
  lemma WakesExactly(s: Server, now: Instant)
    requires s.barrier.None?
    ensures ExpireAll(s, now) == s <==> forall d :: d in Deadlines(s) ==> now < d
  {
    if ExpireAll(s, now) == s {
      forall d | d in Deadlines(s) ensures now < d {
        var id :| id in s.connections && Wakes(s, id) && NextDeadline(s.connections[id].machine).value == d;
        assert id in ExpireAll(s, now).connections;
      }
    }
    if forall d :: d in Deadlines(s) ==> now < d {
      forall id | id in s.connections ensures !Due(s.connections[id], now) {
        if NextDeadline(s.connections[id].machine).Some? {
          assert Wakes(s, id);
          assert NextDeadline(s.connections[id].machine).value in Deadlines(s);
        }
      }
      assert ExpireAll(s, now).connections == s.connections;
    }
  }

  // ---- receipts -------------------------------------------------------------------------------------------------

  /** Of a live connection a receipt is pending while its response is, drained if it was issued before,
      and closed if it was never issued. */
  lemma SettlementExactly(s: Server, r: Receipt)
    requires ServerInv(s) && r.connection in s.connections && r.sequence >= 1
    ensures var (p, x) := (s.connections[r.connection], ResponseSettlement(s, r));
            && (x == Pending <==> p.pendingResponse == Some(r.sequence))
            && (x == Drained <==> r.sequence < Bound(p.nextSequence) && p.pendingResponse != Some(r.sequence))
            && (x == Closed <==> r.sequence >= Bound(p.nextSequence))
  {
    assert PeerOk(s, r.connection);
  }

  // ---- from the barrier on --------------------------------------------------------------------------------------

  /** Waiting for a pending receipt mutes the server until shutdown, whatever is called in between. */
  lemma BarrierFromCall(w: Wire, x: World, r: Receipt, cs: seq<Call>)
    requires w.Fits() && WorldInv(x) && r in x.issued && ResponseSettlement(x.server, r) == Pending
    requires x.server.barrier.None? || x.server.barrier == Some(r)
    requires PermittedRun(w, Advance(w, x, Fences(r)), cs) && forall k :: 0 <= k < |cs| ==> !cs[k].Shuts?
    ensures var x1 := Advance(w, x, Fences(r));
            && Perform(w, x.server, Fences(r)).error.None? && OneInterest(RunFrom(w, x1, cs).server, r)
            && forall k :: 0 <= k < |cs| ==> Muted(w, RunFrom(w, x1, cs[..k]).server, cs[k], r)
  {
    var x1 := Advance(w, x, Fences(r));
    CallKeeps(w, x, Fences(r));
    FenceOnly(w, x, r);
    BarrierRun(w, x1, cs, r);
  }

  /** A second wait for another pending receipt is refused and changes nothing; waiting for a settled
      one raises nothing. */
  lemma BarrierOtherwise(s: Server, r: Receipt)
    ensures ResponseSettlement(s, r) != Pending ==> BeginBarrier(s, r) == Done(s)
    ensures ResponseSettlement(s, r) == Pending && s.barrier.Some? && s.barrier != Some(r) ==>
              BeginBarrier(s, r) == Failed(s, BarrierConflict(s.barrier.value, r))
  {}
}
