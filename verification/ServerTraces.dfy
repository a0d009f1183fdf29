/** The composition: inside the server every connection runs exactly as a single connection may,
    so what holds of every connection run holds of every connection of every server run. */
module ServerTraces {
  import opened Optional
  import opened Frames
  import opened Protocol
  import opened ConnectionRuns
  import CS = ConnectionStreams
  import CO = ConnectionOutput
  import CT = ConnectionTheorems
  import opened Server
  import opened ServerRuns
  import opened ServerTheorems
  import opened ServerEvents

  /** When a connection was accepted and the events it has seen since. */
  datatype Trace = Trace(start: Instant, events: seq<Stimulus>)

  function Extend(t: Trace, e: Option<Stimulus>): (r: Trace) {
    if e.Some? then t.(events := t.events + [e.value]) else t
  }

  /** The trace of every connection ever admitted, collected from the calls; the last event of one
      that is gone is the one that ended it. */
  ghost function Traces(w: Wire, cs: seq<Call>): (ts: map<nat, Trace>) {
    if cs == [] then map[]
    else
      var p, c := cs[..|cs| - 1], cs[|cs| - 1];
      var s, s' := RunFrom(w, Begin, p).server, RunFrom(w, Begin, cs).server;
      var before := Traces(w, p);
      map id | id in before.Keys + s'.connections.Keys ::
        if id !in before then Trace(if c.Service? then c.now else 0, [])
        else if id in s.connections then Extend(before[id], Seen(s, c, id))
        else before[id]
  }

  /** The requests handed to the application for one connection. */
  ghost function Handed(w: Wire, cs: seq<Call>, id: nat): (rs: seq<Request>) {
    if cs == [] then []
    else
      var p, c := cs[..|cs| - 1], cs[|cs| - 1];
      HandedNext(Handed(w, p, id), Perform(w, RunFrom(w, Begin, p).server, c).delivery, id)
  }

  function HandedNext(handed: seq<Request>, d: Option<Delivery>, id: nat): (rs: seq<Request>) {
    if d.Some? && d.value.connection == id then handed + [d.value.request] else handed
  }

  /** The trace is a permitted run that emits exactly these requests. */
  ghost predicate IsConversation(w: Wire, t: Trace, handed: seq<Request>) {
    CS.LegalRun(w, t.start, t.events) && CS.Run(w, t.start, t.events).log.emitted == handed
  }

  ghost predicate IsRun(w: Wire, t: Trace, m: Machine, handed: seq<Request>) {
    IsConversation(w, t, handed) && CS.Run(w, t.start, t.events).machine == m
  }

  /** One more permitted event, or none. */
  lemma ExtendRun(w: Wire, t: Trace, m: Machine, e: Option<Stimulus>, handed: seq<Request>)
    requires IsRun(w, t, m, handed) && (e.Some? ==> Allowed(m, e.value.event))
    ensures var a := ActionOf(w, m, e);
            IsRun(w, Extend(t, e), if e.Some? then Step(w, m, e.value.now, e.value.event).machine else m,
                  if a.Emit? then handed + [a.request] else handed)
  {
    if e.Some? {
      assert (t.events + [e.value])[..|t.events|] == t.events;
    }
  }

  /** A connection not yet accepted has been handed nothing. */
  lemma {:induction false} NotYetHanded(w: Wire, cs: seq<Call>, id: nat)
    requires w.Fits() && PermittedRun(w, Begin, cs) && id >= Bound(RunFrom(w, Begin, cs).server.nextConnectionId)
    ensures Handed(w, cs, id) == []
  {
    if cs != [] {
      var p, c := cs[..|cs| - 1], cs[|cs| - 1];
      ReachableInv(w, p);
      ReachableInv(w, cs);
      var x, x' := RunFrom(w, Begin, p), RunFrom(w, Begin, cs);
      BoundGrows(w, x.server, c);
      NotYetHanded(w, p, id);
      if Perform(w, x.server, c).delivery.Some? {
        assert Perform(w, x.server, c).delivery.value.connection in x'.outstanding;
      }
    }
  }

  lemma BoundGrows(w: Wire, s: Server, c: Call)
    requires s.nextConnectionId.Some? ==> s.nextConnectionId.value <= U64_MAX
    ensures Bound(s.nextConnectionId) <= Bound(Perform(w, s, c).server.nextConnectionId)
  {
    if c.Service? {
      var s1 := ExpireAll(s, c.now);
      if s1.barrier.Some? {
        BarrierBound(w, s1, c.now, s1.barrier.value, c.ready, c.io);
      } else if c.ready.token != LISTENER_TOKEN && FindToken(s1, c.ready.token).Some? {
        PeerBound(w, s1, c.now, FindToken(s1, c.ready.token).value, c.ready, c.io);
      }
    }
  }

  lemma PeerBound(w: Wire, s: Server, now: Instant, id: nat, ready: ReadyEvent, io: Io)
    requires id in s.connections
    ensures ServicePeer(w, s, now, id, ready, io).server.nextConnectionId == s.nextConnectionId
  {}

  lemma BarrierBound(w: Wire, s: Server, now: Instant, r: Receipt, ready: ReadyEvent, io: Io)
    ensures ServiceBarrier(w, s, now, r, ready, io).server.nextConnectionId == s.nextConnectionId
  {}

  lemma {:induction false} TracedBelow(w: Wire, cs: seq<Call>, id: nat)
    requires w.Fits() && PermittedRun(w, Begin, cs) && id in Traces(w, cs)
    ensures id < Bound(RunFrom(w, Begin, cs).server.nextConnectionId)
  {
    if cs != [] {
      var p, c := cs[..|cs| - 1], cs[|cs| - 1];
      ReachableInv(w, p);
      ReachableInv(w, cs);
      BoundGrows(w, RunFrom(w, Begin, p).server, c);
      if id in Traces(w, p) {
        TracedBelow(w, p, id);
      } else {
        assert PeerOk(RunFrom(w, Begin, cs).server, id);
      }
    }
  }

  /** Every connection ever admitted has a trace. */
  lemma {:induction false} EveryoneTraced(w: Wire, cs: seq<Call>, k: nat, id: nat)
    requires k <= |cs| && id in RunFrom(w, Begin, cs[..k]).server.connections
    ensures id in Traces(w, cs)
    decreases |cs|
  {
    if k == |cs| {
      assert cs[..k] == cs;
    } else {
      var p := cs[..|cs| - 1];
      assert p[..k] == cs[..k];
      EveryoneTraced(w, p, k, id);
    }
  }

  /** The trace and what was handed out agree, and the machine of a live connection is where the
      trace leads. */
  ghost predicate Follows(w: Wire, t: Trace, handed: seq<Request>, s: Server, id: nat) {
    && IsConversation(w, t, handed)
    && (id in s.connections ==> CS.Run(w, t.start, t.events).machine == s.connections[id].machine)
  }

  /** A call on a connection that is there, whether or not it survives. */
  lemma LiveFollows(w: Wire, x: World, c: Call, id: nat, t: Trace, handed: seq<Request>)
    requires w.Fits() && WorldInv(x) && Permitted(x, c) && id in x.server.connections
    requires Follows(w, t, handed, x.server, id)
    ensures var o := Perform(w, x.server, c);
            Follows(w, Extend(t, Seen(x.server, c, id)), HandedNext(handed, o.delivery, id), o.server, id)
  {
    var m, e := x.server.connections[id].machine, Seen(x.server, c, id);
    GateHolds(x, c, id);
    DeliversAll(w, x, c, id);
    ExtendRun(w, t, m, e, handed);
    StaysInStep(w, x, c, id);
  }

  lemma StaysInStep(w: Wire, x: World, c: Call, id: nat)
    requires w.Fits() && WorldInv(x) && Permitted(x, c) && id in x.server.connections
    ensures id in Perform(w, x.server, c).server.connections ==>
              Steps(w, x.server.connections[id].machine, Perform(w, x.server, c).server.connections[id].machine, Seen(x.server, c, id))
  {
    if id in Perform(w, x.server, c).server.connections {
      SurvivorNotDue(w, x, c, id);
      PerformMoves(w, x, c, id);
    }
  }

  /** A call after it is gone: identities are not used again. */
  lemma StaysGone(w: Wire, x: World, c: Call, id: nat)
    requires WorldInv(x) && id !in x.server.connections && id < Bound(x.server.nextConnectionId)
    ensures id !in Perform(w, x.server, c).server.connections
    ensures HandedNext([], Perform(w, x.server, c).delivery, id) == []
  {
    if id in Perform(w, x.server, c).server.connections {
      OnlyAcceptAdds(w, x.server, c, id);
    }
    if Perform(w, x.server, c).delivery.Some? {
      DeliveryLives(w, x.server, c);
    }
  }

  /** The call that admits it. */
  lemma StartsFresh(w: Wire, x: World, c: Call, id: nat)
    requires WorldInv(x) && id in Perform(w, x.server, c).server.connections && id !in x.server.connections
    ensures c.Service? && Follows(w, Trace(c.now, []), HandedNext([], Perform(w, x.server, c).delivery, id), Perform(w, x.server, c).server, id)
  {
    OnlyAcceptAdds(w, x.server, c, id);
    NewIsSilent(w, x, c, id);
  }

  /** Every connection ever admitted, gone or not, has seen only permitted events, the one that ended
      it included; the application was handed exactly what that run emits; and while the connection
      lives, its machine is in the state the run leads to. */
  lemma {:induction false} ConnectionsAreRuns(w: Wire, cs: seq<Call>, id: nat)
    requires w.Fits() && PermittedRun(w, Begin, cs) && id in Traces(w, cs)
    ensures Follows(w, Traces(w, cs)[id], Handed(w, cs, id), RunFrom(w, Begin, cs).server, id)
  {
    if cs != [] {
      var p, c := cs[..|cs| - 1], cs[|cs| - 1];
      var x := RunFrom(w, Begin, p);
      ReachableInv(w, p);
      assert RunFrom(w, Begin, cs).server == Perform(w, x.server, c).server;
      if id !in Traces(w, p) {
        StartsFresh(w, x, c, id);
        OnlyAcceptAdds(w, x.server, c, id);
        NotYetHanded(w, p, id);
      } else {
        ConnectionsAreRuns(w, p, id);
        if id in x.server.connections {
          LiveFollows(w, x, c, id, Traces(w, p)[id], Handed(w, p, id));
        } else {
          TracedBelow(w, p, id);
          StaysGone(w, x, c, id);
        }
      }
    }
  }

  /** The call that admits a connection hands out nothing. */
  lemma NewIsSilent(w: Wire, x: World, c: Call, id: nat)
    requires id in Perform(w, x.server, c).server.connections && id !in x.server.connections
    ensures Perform(w, x.server, c).delivery.None?
  {
    OnlyAcceptAdds(w, x.server, c, id);
    var s1 := ExpireAll(x.server, c.now);
    if c.ready.token != LISTENER_TOKEN && FindToken(s1, c.ready.token).Some? {
      NoneAddedByPeer(w, s1, c.now, FindToken(s1, c.ready.token).value, c.ready, c.io, id);
    }
  }

  /** So each peer ever admitted has received a legal conversation, finished or not, and every request
      the application was handed is what one frame after a matching Hello decodes to, in order. */
  lemma EveryConversationLegal(w: Wire, cs: seq<Call>, k: nat, id: nat)
    requires w.Fits() && PermittedRun(w, Begin, cs) && k <= |cs| && id in RunFrom(w, Begin, cs[..k]).server.connections
    ensures id in Traces(w, cs)
    ensures var t := Traces(w, cs)[id];
            var log := CS.Run(w, t.start, t.events).log;
            || (exists f :: Partial(log.sent) <= f && CO.Legal(w, log.story, Complete(log.sent) + [f]))
            || (Partial(log.sent) == [] && CO.Legal(w, log.story, Complete(log.sent)))
    ensures var t := Traces(w, cs)[id];
            Handed(w, cs, id) != [] ==>
              CS.Matches(w, Complete(CS.Run(w, t.start, t.events).log.received), Handed(w, cs, id))
  {
    EveryoneTraced(w, cs, k, id);
    ConnectionsAreRuns(w, cs, id);
    var t := Traces(w, cs)[id];
    CT.OutgoingStream(w, t.start, t.events);
    CT.RequestsInOrder(w, t.start, t.events);
  }
}
