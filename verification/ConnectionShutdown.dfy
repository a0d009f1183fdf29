/** What a subscriber is told of a shutdown. */
module ConnectionShutdown {
  import opened Optional
  import opened Frames
  import opened Protocol
  import opened ConnectionRuns
  import opened ConnectionStreams
  import opened ConnectionOutput
  import opened ConnectionTheorems

  /** Part of the frame in flight is out. */
  predicate MidFrame(m: Machine) { m.output.Some? && m.output.value.offset > 0 }

  function Queued(m: Machine): (fs: seq<Bytes>) { Waiting(m.output) + Waiting(m.latest) }

  predicate Listening(m: Machine) { m.phase.Subscriber? && !m.shuttingDown }

  /** What is left to send to a subscriber once a shutdown began: a frame already begun and nothing
      else, or else an initial state not yet begun, and the event. A state not yet begun is not sent. */
  function Farewell(w: Wire, m: Machine): (fs: seq<Bytes>) {
    if MidFrame(m) then [m.output.value.bytes]
    else if m.output.Some? && m.output.value.kind.InitialState? then [m.output.value.bytes, FrameOf(w.shutdown)]
    else [FrameOf(w.shutdown)]
  }

  lemma ShutdownQueues(w: Wire, m: Machine, now: Instant)
    requires w.Fits() && WellFormed(m) && Listening(m)
    ensures var n := BeginShutdown(w, m, now);
            && n.action.NoAction? && n.machine.phase.Subscriber? && n.machine.shuttingDown
            && Queued(n.machine) == Farewell(w, m)
  {
    var n := BeginShutdown(w, m, now);
    if m.output.Some? && m.output.value.kind.InitialState? && m.output.value.offset == 0 {
      assert Waiting(n.machine.latest) == [FrameOf(w.shutdown)];
    }
  }

  // ---- afterwards -----------------------------------------------------------------------------

  /** The stream stands where the plan says: still draining, or closed somewhere along it. */
  predicate Along(sent: Bytes, m: Machine, plan: seq<Bytes>) {
    if m.phase.Closing? then Complete(sent) <= plan
    else m.phase.Subscriber? && m.shuttingDown && Complete(sent) + Queued(m) == plan
  }

  /** While shutting down the event is the last thing queued, so nothing waits behind it. */
  lemma EventIsLast(w: Wire, m: Machine, now: Instant, e: Event)
    requires WellFormed(m) && Allowed(m, e) && EventLast(m)
    ensures EventLast(Step(w, m, now, e).machine)
  {
    match e
    case Sent(count) => SentEventLast(w, m, now, count);
    case Read(bytes) => if Reading(m) { FeedEventLast(w, m, now, bytes); }
    case _ =>
  }

  predicate EventLast(m: Machine) {
    m.output.Some? && m.output.value.kind.Shutdown? ==> m.latest.None?
  }

  lemma SentEventLast(w: Wire, m: Machine, now: Instant, count: nat)
    requires WellFormed(m) && count <= |Remaining(m)| && EventLast(m)
    ensures EventLast(AdvanceOutput(w, m, now, count).machine)
  {
    if m.output.Some? {
      match m.phase
      case SendingHello =>
      case Ready =>
      case Subscriber =>
      case CloseAfterReply =>
    }
  }

  lemma {:induction false} FeedEventLast(w: Wire, m: Machine, now: Instant, bytes: Bytes)
    requires WellFormed(m) && Reading(m)
    ensures Feed(w, m, now, bytes).machine.latest.None?
    decreases |bytes|
  {
    if bytes != [] {
      OnByteKeeps(w, m, now, bytes[0], |bytes| == 1);
      match OnByte(w, m, now, bytes[0], |bytes| == 1)
      case Halt(_) =>
      case Go(m') => FeedEventLast(w, m', now, bytes[1..]);
    }
  }

  lemma {:induction false} RunEventLast(w: Wire, start: Instant, es: seq<Stimulus>)
    requires LegalRun(w, start, es)
    ensures EventLast(Run(w, start, es).machine)
  {
    if es != [] {
      var p, s := es[..|es| - 1], es[|es| - 1];
      RunEventLast(w, start, p);
      RunShape(w, start, p);
      EventIsLast(w, Run(w, start, p).machine, s.now, s.event);
    }
  }

  /** Taking part of a frame leaves the queue; taking the rest of it leaves what waits behind, or ends. */
  lemma SentQueue(w: Wire, m: Machine, now: Instant, count: nat)
    requires WellFormed(m) && EventLast(m) && m.phase.Subscriber? && m.shuttingDown && count <= |Remaining(m)|
    ensures var (n, c) := (AdvanceOutput(w, m, now, count), m.output.value);
            if c.offset + count < |c.bytes|
            then n.machine.phase.Subscriber? && n.machine.shuttingDown && Queued(n.machine) == Queued(m)
            else if m.latest.Some?
            then n.machine.phase.Subscriber? && n.machine.shuttingDown && Queued(n.machine) == Waiting(m.latest)
            else n == CloseWith(n.machine, ShutdownDone) && n.machine.phase.Closing?
  {
    var c := m.output.value;
    if c.offset + count == |c.bytes| {
      match c.kind
      case InitialState =>
      case State =>
      case Shutdown =>
    }
  }

  lemma QueueSplit(done: seq<Bytes>, m: Machine)
    requires m.output.Some?
    ensures done + Queued(m) == done + [m.output.value.bytes] + Waiting(m.latest)
  {}

  /** Taking bytes moves the stream along the plan, and only at its end closes for good. */
  lemma SentAlong(w: Wire, sent: Bytes, m: Machine, now: Instant, count: nat, plan: seq<Bytes>)
    requires WellFormed(m) && EventLast(m) && m.phase.Subscriber? && m.shuttingDown && count <= |Remaining(m)|
    requires Started(Partial(sent), m) && Complete(sent) + Queued(m) == plan
    ensures var (n, sent') := (AdvanceOutput(w, m, now, count), sent + Remaining(m)[..count]);
            && Along(sent', n.machine, plan)
            && (n.machine.phase.Closing? ==> Complete(sent') == plan && Partial(sent') == [] && n.action == Close(ShutdownDone))
  {
    SentSplit(sent, m.output.value, count);
    SentQueue(w, m, now, count);
    QueueSplit(Complete(sent), m);
  }

  /** Everything else sends nothing more: it leaves the queue alone or closes. */
  lemma QuietAlong(w: Wire, m: Machine, now: Instant, e: Event)
    requires WellFormed(m) && m.phase.Subscriber? && m.shuttingDown && !e.Sent?
    ensures var n := Step(w, m, now, e);
            && (n.machine.phase.Closing? || (n.machine.phase.Subscriber? && n.machine.shuttingDown && Queued(n.machine) == Queued(m)))
            && n.action != Close(ShutdownDone)
  {}

  lemma PlanPrefix(fs: seq<Bytes>, qs: seq<Bytes>)
    ensures fs <= fs + qs
  {}

  lemma StepAlong(w: Wire, c: Conf, s: Stimulus, plan: seq<Bytes>)
    requires RunInv(w, c) && EventLast(c.machine) && Allowed(c.machine, s.event) && Along(c.log.sent, c.machine, plan)
    ensures var c' := Advance(w, c, s);
            && Along(c'.log.sent, c'.machine, plan)
            && (Step(w, c.machine, s.now, s.event).action == Close(ShutdownDone) && !c.machine.phase.Closing? ==>
                  Complete(c'.log.sent) == plan && Partial(c'.log.sent) == [])
  {
    if c.machine.phase.Closing? {
      ClosedSilent(w, c, s);
    } else if s.event.Sent? {
      SentAlong(w, c.log.sent, c.machine, s.now, s.event.count, plan);
    } else {
      QuietAlong(w, c.machine, s.now, s.event);
      PlanPrefix(Complete(c.log.sent), Queued(c.machine));
    }
  }

  lemma ClosedSilent(w: Wire, c: Conf, s: Stimulus)
    requires WellFormed(c.machine) && c.machine.phase.Closing? && Allowed(c.machine, s.event)
    ensures Advance(w, c, s).machine.phase.Closing? && Advance(w, c, s).log.sent == c.log.sent
  {
    assert c.log.sent + [] == c.log.sent;
  }

  /** The configuration after more events. */
  function After(w: Wire, c: Conf, es: seq<Stimulus>): (r: Conf) {
    if es == [] then c else Advance(w, After(w, c, es[..|es| - 1]), es[|es| - 1])
  }

  predicate LegalFrom(w: Wire, c: Conf, es: seq<Stimulus>) {
    es == [] || (LegalFrom(w, c, es[..|es| - 1]) && Allowed(After(w, c, es[..|es| - 1]).machine, es[|es| - 1].event))
  }

  lemma {:induction false} RunAlong(w: Wire, c: Conf, es: seq<Stimulus>, plan: seq<Bytes>)
    requires RunInv(w, c) && EventLast(c.machine) && LegalFrom(w, c, es) && Along(c.log.sent, c.machine, plan)
    ensures var r := After(w, c, es);
            RunInv(w, r) && EventLast(r.machine) && Along(r.log.sent, r.machine, plan)
  {
    if es != [] {
      var p, s := es[..|es| - 1], es[|es| - 1];
      RunAlong(w, c, p, plan);
      var q := After(w, c, p);
      StepAlong(w, q, s, plan);
      RunStep(w, q, s);
      EventIsLast(w, q.machine, s.now, s.event);
    }
  }

  /** The frames a subscriber was sent before the shutdown, and the farewell. */
  function Plan(w: Wire, c: Conf): (fs: seq<Bytes>) { Complete(c.log.sent) + Farewell(w, c.machine) }

  /** From a shutdown at any moment of any run, whatever happens after: the subscriber is sent a prefix
      of that plan and nothing else, and the shutdown completes exactly when all of it is out. */
  lemma ShutdownTold(w: Wire, start: Instant, es: seq<Stimulus>, t: Instant, more: seq<Stimulus>, last: Stimulus)
    requires w.Fits() && LegalRun(w, start, es) && Listening(Run(w, start, es).machine)
    requires LegalFrom(w, Advance(w, Run(w, start, es), At(t, StartShutdown)), more + [last])
    ensures var c := Run(w, start, es);
            var q := After(w, Advance(w, c, At(t, StartShutdown)), more);
            var r := Advance(w, q, last);
            && Complete(r.log.sent) <= Plan(w, c)
            && (Step(w, q.machine, last.now, last.event).action == Close(ShutdownDone) && !q.machine.phase.Closing? ==>
                  Complete(r.log.sent) == Plan(w, c) && Partial(r.log.sent) == [])
  {
    var c := Run(w, start, es);
    RunKeeps(w, start, es);
    RunEventLast(w, start, es);
    Begins(w, c, t);
    var c1 := Advance(w, c, At(t, StartShutdown));
    assert (more + [last])[..|more|] == more;
    RunAlong(w, c1, more, Plan(w, c));
    var q := After(w, c1, more);
    StepAlong(w, q, last, Plan(w, c));
    AlongPrefix(Advance(w, q, last), Plan(w, c));
  }

  lemma AlongPrefix(c: Conf, plan: seq<Bytes>)
    requires Along(c.log.sent, c.machine, plan)
    ensures Complete(c.log.sent) <= plan
  {}

  lemma Begins(w: Wire, c: Conf, t: Instant)
    requires w.Fits() && RunInv(w, c) && EventLast(c.machine) && Listening(c.machine)
    ensures var c1 := Advance(w, c, At(t, StartShutdown));
            RunInv(w, c1) && EventLast(c1.machine) && Along(c1.log.sent, c1.machine, Plan(w, c))
  {
    RunStep(w, c, At(t, StartShutdown));
    EventIsLast(w, c.machine, t, StartShutdown);
    ShutdownQueues(w, c.machine, t);
  }

  /** So what a subscriber that drains in time is sent last is the event, exactly when no frame was
      partly sent as the shutdown began; otherwise it is that frame. */
  lemma LastWord(w: Wire, c: Conf)
    requires Listening(c.machine) && (c.machine.output.Some? ==> c.machine.output.value.bytes != FrameOf(w.shutdown))
    ensures var plan := Plan(w, c); plan[|plan| - 1] == FrameOf(w.shutdown) <==> !MidFrame(c.machine)
  {}
}
