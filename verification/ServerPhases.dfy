/** The two phases in which the server stops taking work: a response barrier and shutdown. */
module ServerPhases {
  import opened Optional
  import opened Protocol
  import opened ConnectionRuns
  import ConnectionTiming
  import opened Server
  import opened ServerRuns
  import opened ServerTheorems
  import opened ServerEvents

  /** What a delivery names is live and waiting for its completion. */
  lemma DeliveredIsPending(w: Wire, x: World, c: Call)
    requires w.Fits() && WorldInv(x) && Permitted(x, c)
    requires Perform(w, x.server, c).delivery.Some?
    ensures var id := Perform(w, x.server, c).delivery.value.connection;
            id in Advance(w, x, c).server.connections && Advance(w, x, c).server.connections[id].machine.requestPending
  {
    var x', id := Advance(w, x, c), Perform(w, x.server, c).delivery.value.connection;
    CallKeeps(w, x, c);
    DeliveryLives(w, x.server, c);
    assert ViewOk(x', id);
  }

  // ---- shutdown ---------------------------------------------------------------------------

  /** Shutdown began at `t`: every connection left has until `t` + 100 ms. */
  predicate ShutBy(s: Server, t: Instant) {
    s.shuttingDown &&
    forall id :: id in s.connections ==> s.connections[id].machine.shutdownDeadline == Some(t + TERMINAL_TIMEOUT)
  }

  lemma AllShut(w: Wire, s: Server, t: Instant)
    requires w.Fits() && ServerInv(s) && !s.shuttingDown
    ensures ShutBy(ShutdownAll(w, s, t), t)
  {
    var s' := ShutdownAll(w, s, t);
    forall id | id in s'.connections
      ensures s'.connections[id].machine.shutdownDeadline == Some(t + TERMINAL_TIMEOUT)
    {
      assert PeerOk(s, id);
      ShutPeer(w, s.connections[id], t);
    }
  }

  lemma ShutdownBegins(w: Wire, x: World, t: Instant)
    requires w.Fits() && WorldInv(x) && !x.server.shuttingDown
    ensures ShutBy(Advance(w, x, Shuts(t)).server, t)
  {
    AllShut(w, x.server, t);
    assert Advance(w, x, Shuts(t)).server == ShutdownAll(w, x.server, t);
  }

  lemma ShutdownDeadlineStays(w: Wire, x: World, c: Call, id: nat)
    requires w.Fits() && WorldInv(x) && Permitted(x, c) && WorldInv(Advance(w, x, c)) && x.server.shuttingDown
    requires id in Advance(w, x, c).server.connections
    ensures id in x.server.connections
    ensures Advance(w, x, c).server.connections[id].machine.shutdownDeadline == x.server.connections[id].machine.shutdownDeadline
  {
    if id !in x.server.connections {
      OnlyAcceptAdds(w, x.server, c, id);
    }
    PerformMoves(w, x, c, id);
    assert PeerOk(x.server, id) && PeerOk(Advance(w, x, c).server, id);
    var e := EventFor(x.server, c, id);
    if e.Some? {
      ConnectionTiming.DeadlineStep(w, x.server.connections[id].machine, e.value.now, e.value.event);
    }
  }

  lemma ShutMeansIdle(s: Server, id: nat)
    requires ServerInv(s) && s.shuttingDown && id in s.connections
    ensures !s.connections[id].machine.requestPending
  {
    assert PeerOk(s, id);
  }

  /** While shutting down no call hands out a request, admits a peer or moves the bound. */
  lemma ShutdownStep(w: Wire, x: World, c: Call, t: Instant)
    requires w.Fits() && WorldInv(x) && Permitted(x, c) && ShutBy(x.server, t)
    ensures ShutBy(Advance(w, x, c).server, t)
    ensures Perform(w, x.server, c).delivery.None?
    ensures Advance(w, x, c).server.connections.Keys <= x.server.connections.Keys
  {
    var s' := Advance(w, x, c).server;
    CallKeeps(w, x, c);
    StaysShut(w, x.server, c);
    forall id | id in s'.connections
      ensures id in x.server.connections
      ensures s'.connections[id].machine.shutdownDeadline == Some(t + TERMINAL_TIMEOUT)
    {
      ShutdownDeadlineStays(w, x, c, id);
    }
    if Perform(w, x.server, c).delivery.Some? {
      DeliveredIsPending(w, x, c);
      ShutMeansIdle(s', Perform(w, x.server, c).delivery.value.connection);
    }
  }

  lemma SocketFrame(w: Wire, s: Server, now: Instant, id: nat, r: ReceiveResult, t: SendResult)
    requires id in s.connections
    ensures ReceiveOne(w, s, now, id, r).server.shuttingDown == s.shuttingDown
    ensures SendOne(w, s, now, id, t).server.shuttingDown == s.shuttingDown
    ensures SendOne(w, s, now, id, t).server.barrier == s.barrier
  {}

  lemma StaysShut(w: Wire, s: Server, c: Call)
    requires s.shuttingDown
    ensures Perform(w, s, c).server.shuttingDown
  {
    if c.Service? {
      var s1 := ExpireAll(s, c.now);
      if s1.barrier.Some? {
        var id := s1.barrier.value.connection;
        if id in s1.connections {
          SocketFrame(w, s1, c.now, id, c.io.receive, c.io.send);
        }
      } else if c.ready.token != LISTENER_TOKEN && FindToken(s1, c.ready.token).Some? {
        SocketFrame(w, s1, c.now, FindToken(s1, c.ready.token).value, c.io.receive, c.io.send);
      }
    }
  }

  lemma ExpiryCompletes(s: Server, t: Instant, now: Instant)
    requires ServerInv(s) && ShutBy(s, t) && now >= t + TERMINAL_TIMEOUT
    ensures ShutdownComplete(ExpireAll(s, now))
  {
    forall id | id in s.connections ensures Due(s.connections[id], now) {
      assert PeerOk(s, id);
    }
    assert ExpireAll(s, now).connections == map[];
  }

  /** Shut since `t`, with no connection beyond `ids`. */
  ghost predicate ShutSince(x: World, t: Instant, ids: set<nat>) {
    WorldInv(x) && ShutBy(x.server, t) && x.server.connections.Keys <= ids
  }

  lemma ShutdownCall(w: Wire, x: World, c: Call, t: Instant, ids: set<nat>)
    requires w.Fits() && Permitted(x, c) && ShutSince(x, t, ids)
    ensures ShutSince(Advance(w, x, c), t, ids)
  {
    ShutdownStep(w, x, c, t);
    CallKeeps(w, x, c);
  }

  /** Every run after shutdown began keeps its bound and admits nobody. */
  lemma {:induction false} ShutdownRun(w: Wire, x: World, t: Instant, cs: seq<Call>, ids: set<nat>)
    requires w.Fits() && ShutSince(x, t, ids) && PermittedRun(w, x, cs)
    ensures ShutSince(RunFrom(w, x, cs), t, ids)
  {
    if cs != [] {
      var p := cs[..|cs| - 1];
      ShutdownRun(w, x, t, p, ids);
      var xp := RunFrom(w, x, p);
      assert RunFrom(w, x, cs) == Advance(w, xp, cs[|p|]);
      ShutdownCall(w, xp, cs[|p|], t, ids);
    }
  }

  lemma {:induction false} PermittedPrefix(w: Wire, x: World, cs: seq<Call>, k: nat)
    requires PermittedRun(w, x, cs) && k < |cs|
    ensures PermittedRun(w, x, cs[..k]) && Permitted(RunFrom(w, x, cs[..k]), cs[k])
  {
    var p := cs[..|cs| - 1];
    if k < |p| {
      PermittedPrefix(w, x, p, k);
      assert p[..k] == cs[..k] && p[k] == cs[k];
    }
  }

  lemma ShutdownSilent(w: Wire, x: World, t: Instant, cs: seq<Call>, k: nat)
    requires w.Fits() && WorldInv(x) && ShutBy(x.server, t) && PermittedRun(w, x, cs) && k < |cs|
    ensures Perform(w, RunFrom(w, x, cs[..k]).server, cs[k]).delivery.None?
  {
    PermittedPrefix(w, x, cs, k);
    ShutdownRun(w, x, t, cs[..k], x.server.connections.Keys);
    ShutdownStep(w, RunFrom(w, x, cs[..k]), cs[k], t);
  }

  /** From any reachable server, whatever is called after shutdown began at `t`: nothing more is
      handed out, nobody is admitted, and any expiry from `t` + 100 ms on completes it. */
  lemma ShutdownBounded(w: Wire, x: World, t: Instant, cs: seq<Call>, now: Instant)
    requires w.Fits() && WorldInv(x) && !x.server.shuttingDown
    requires PermittedRun(w, Advance(w, x, Shuts(t)), cs)
    ensures var x1 := Advance(w, x, Shuts(t));
            var x' := RunFrom(w, x1, cs);
            && ShutBy(x'.server, t) && WorldInv(x')
            && x'.server.connections.Keys <= x1.server.connections.Keys
            && (forall k :: 0 <= k < |cs| ==> Perform(w, RunFrom(w, x1, cs[..k]).server, cs[k]).delivery.None?)
            && (now >= t + TERMINAL_TIMEOUT ==> ShutdownComplete(ExpireAll(x'.server, now)))
  {
    var x1 := Advance(w, x, Shuts(t));
    CallKeeps(w, x, Shuts(t));
    ShutdownBegins(w, x, t);
    ShutdownRun(w, x1, t, cs, x1.server.connections.Keys);
    forall k | 0 <= k < |cs| ensures Perform(w, RunFrom(w, x1, cs[..k]).server, cs[k]).delivery.None? {
      ShutdownSilent(w, x1, t, cs, k);
    }
    if now >= t + TERMINAL_TIMEOUT {
      ExpiryCompletes(RunFrom(w, x1, cs).server, t, now);
    }
  }

  // ---- the response barrier ------------------------------------------------------------------

  lemma BarrierStands(w: Wire, s: Server, c: Call, r: Receipt)
    requires s.barrier == Some(r) && !c.Shuts?
    ensures Perform(w, s, c).server.barrier == Some(r)
  {
    if c.Service? {
      var s1 := ExpireAll(s, c.now);
      if r.connection in s1.connections {
        SocketFrame(w, s1, c.now, r.connection, c.io.receive, c.io.send);
      }
    }
  }

  /** Nothing but the receipt's connection is served, and that only by sending; others may expire. */
  predicate OnlySends(s: Server, c: Call, r: Receipt) {
    c.Service? ==>
      forall id :: id in s.connections && Seen(s, c, id).Some? ==>
        Seen(s, c, id).value.event.Tick? || (id == r.connection && Seen(s, c, id).value.event.Sent?)
  }

  /** Under a barrier a service call accepts nobody, reads from nobody and hands out nothing: it
      can only send to the receipt's own connection. */
  lemma BarrierStep(w: Wire, x: World, c: Call, r: Receipt)
    requires WorldInv(x) && x.server.barrier == Some(r) && c.Service?
    ensures Perform(w, x.server, c).delivery.None?
    ensures Perform(w, x.server, c).server.connections.Keys <= x.server.connections.Keys
    ensures OnlySends(x.server, c, r)
  {
    forall id | id in Perform(w, x.server, c).server.connections ensures id in x.server.connections {
      if id !in x.server.connections {
        OnlyAcceptAdds(w, x.server, c, id);
      }
    }
    BarrierSilent(w, x, c, r);
  }

  lemma BarrierSilent(w: Wire, x: World, c: Call, r: Receipt)
    requires WorldInv(x) && x.server.barrier == Some(r) && c.Service?
    ensures Perform(w, x.server, c).delivery.None?
  {
    if Perform(w, x.server, c).delivery.Some? {
      var id := Perform(w, x.server, c).delivery.value.connection;
      DeliveryLives(w, x.server, c);
      if id !in x.server.connections {
        OnlyAcceptAdds(w, x.server, c, id);
      }
      SurvivorNotDue(w, x, c, id);
      DeliversAll(w, x, c, id);
      assert PeerOk(x.server, id);
      OrdinaryEmitsNothing(w, x.server.connections[id].machine, EventFor(x.server, c, id));
    }
  }

  lemma OrdinaryEmitsNothing(w: Wire, m: Machine, e: Option<Stimulus>)
    requires e.Some? ==> m.phase.Ready? && m.output.Some? && WellFormed(m) && e.value.event.Sent?
    ensures !ActionOf(w, m, e).Emit?
  {}

  predicate OneInterest(s: Server, r: Receipt) {
    PollInterests(s) == if ResponseSettlement(s, r) == Pending
                        then {Interest(s.connections[r.connection].token, false, true)} else {}
  }

  /** At most one interest remains under a barrier: to write to the receipt's connection while its
      response is pending, and nothing at all once it has settled. */
  lemma BarrierInterests(x: World, r: Receipt)
    requires WorldInv(x) && x.server.barrier == Some(r)
    ensures OneInterest(x.server, r)
  {
    var s := x.server;
    if r.connection in s.connections {
      assert PeerOk(s, r.connection);
    }
    assert forall id :: id in s.connections && id != r.connection ==> PeerInterest(s, id).None?;
    if ResponseSettlement(s, r) == Pending {
      assert PeerInterest(s, r.connection) == Some(Interest(s.connections[r.connection].token, false, true));
      assert Interest(s.connections[r.connection].token, false, true) in PollInterests(s);
    }
  }

  lemma QuietCall(w: Wire, s: Server, c: Call)
    requires !c.Service?
    ensures Perform(w, s, c).delivery.None?
    ensures Perform(w, s, c).server.connections.Keys <= s.connections.Keys
  {}

  /** The barrier for `r` stands, with no connection beyond `ids`. */
  ghost predicate Fenced(x: World, r: Receipt, ids: set<nat>) {
    WorldInv(x) && x.server.barrier == Some(r) && x.server.connections.Keys <= ids
  }

  lemma BarrierCall(w: Wire, x: World, c: Call, r: Receipt, ids: set<nat>)
    requires w.Fits() && Permitted(x, c) && Fenced(x, r, ids) && !c.Shuts?
    ensures Fenced(Advance(w, x, c), r, ids)
  {
    CallKeeps(w, x, c);
    BarrierStands(w, x.server, c, r);
    if c.Service? {
      BarrierStep(w, x, c, r);
    } else {
      QuietCall(w, x.server, c);
    }
  }

  lemma {:induction false} StaysFenced(w: Wire, x: World, cs: seq<Call>, r: Receipt, ids: set<nat>)
    requires w.Fits() && Fenced(x, r, ids) && PermittedRun(w, x, cs)
    requires forall k :: 0 <= k < |cs| ==> !cs[k].Shuts?
    ensures Fenced(RunFrom(w, x, cs), r, ids)
  {
    if cs != [] {
      var p := cs[..|cs| - 1];
      assert forall k :: 0 <= k < |p| ==> p[k] == cs[k];
      StaysFenced(w, x, p, r, ids);
      var xp := RunFrom(w, x, p);
      assert RunFrom(w, x, cs) == Advance(w, xp, cs[|p|]);
      BarrierCall(w, xp, cs[|p|], r, ids);
    }
  }

  /** What one call of such a run does. */
  ghost predicate Muted(w: Wire, s: Server, c: Call, r: Receipt) {
    && Perform(w, s, c).delivery.None? && Perform(w, s, c).server.connections.Keys <= s.connections.Keys
    && OnlySends(s, c, r) && OneInterest(s, r)
  }

  lemma BarrierMutes(w: Wire, x: World, c: Call, r: Receipt)
    requires WorldInv(x) && x.server.barrier == Some(r)
    ensures Muted(w, x.server, c, r)
  {
    BarrierInterests(x, r);
    if c.Service? {
      BarrierStep(w, x, c, r);
    } else {
      QuietCall(w, x.server, c);
    }
  }

  /** From the barrier until shutdown, whatever is called in between: every call accepts nobody, reads
      nothing, hands out nothing and only sends to the receipt's connection, and before each of them,
      as at the end, at most that one interest is polled. */
  lemma BarrierRun(w: Wire, x: World, cs: seq<Call>, r: Receipt)
    requires w.Fits() && WorldInv(x) && x.server.barrier == Some(r) && PermittedRun(w, x, cs)
    requires forall k :: 0 <= k < |cs| ==> !cs[k].Shuts?
    ensures Fenced(RunFrom(w, x, cs), r, x.server.connections.Keys) && OneInterest(RunFrom(w, x, cs).server, r)
    ensures forall k :: 0 <= k < |cs| ==> Muted(w, RunFrom(w, x, cs[..k]).server, cs[k], r)
  {
    var ids := x.server.connections.Keys;
    StaysFenced(w, x, cs, r, ids);
    BarrierInterests(RunFrom(w, x, cs), r);
    forall k | 0 <= k < |cs| ensures Muted(w, RunFrom(w, x, cs[..k]).server, cs[k], r) {
      BarrierAt(w, x, cs, r, k);
    }
  }

  lemma BarrierAt(w: Wire, x: World, cs: seq<Call>, r: Receipt, k: nat)
    requires w.Fits() && WorldInv(x) && x.server.barrier == Some(r) && PermittedRun(w, x, cs) && k < |cs|
    requires forall i :: 0 <= i < |cs| ==> !cs[i].Shuts?
    ensures Muted(w, RunFrom(w, x, cs[..k]).server, cs[k], r)
  {
    PermittedPrefix(w, x, cs, k);
    StaysFenced(w, x, cs[..k], r, x.server.connections.Keys);
    BarrierMutes(w, RunFrom(w, x, cs[..k]), cs[k], r);
  }
}
