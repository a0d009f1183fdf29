/** Runs of one connection: which operations may happen when, and what every reachable state keeps. */
module ConnectionRuns {
  import opened Optional
  import opened Frames
  import opened Protocol

  datatype Event =
    | Read(bytes: Bytes)
    | Eof
    | Sent(count: nat)
    | Respond(response: Text)
    | AcceptSubscriber(state: Text)
    | Publish(frame: Bytes)
    | StartShutdown
    | Tick

  datatype Stimulus = At(now: Instant, event: Event)

  function Step(w: Wire, m: Machine, now: Instant, e: Event): (r: Next) {
    match e
    case Read(bytes) => Ingest(w, m, now, bytes)
    case Eof => ReadEof(m)
    case Sent(count) => AdvanceOutput(w, m, now, count)
    case Respond(response) => CompleteRequest(m, now, response)
    case AcceptSubscriber(state) => CompleteSubscribe(m, now, state)
    case Publish(frame) => PublishState(m, now, frame)
    case StartShutdown => BeginShutdown(w, m, now)
    case Tick => Expire(m, now)
  }

  /** What the caller owes the machine. Reads stay away while a reply is in flight (the server's
      gate, `InputEnabled`, asks for more), a send reports no more than it was offered, and only
      encoded frames are published. */
  predicate Allowed(m: Machine, e: Event) {
    match e
    case Read(_) => !(m.phase.Ready? && m.output.Some?)
    case Sent(count) => count <= |Remaining(m)|
    case Publish(frame) => IsFrame(frame)
    case _ => true
  }

  // ---- the shape of reachable states ---------------------------------------

  predicate Quiet(m: Machine) {
    && m.output.None? && m.latest.None? && m.retained.None?
    && !m.requestPending && !m.pendingSubscribe
    && m.partialDeadline.None? && m.outputDeadline.None? && m.closeDeadline.None? && m.shutdownDeadline.None?
  }

  predicate AwaitShape(m: Machine) {
    Quiet(m) && !m.readHalfClosed && !m.shuttingDown
  }

  predicate SendingShape(m: Machine) {
    && m.output.Some? && m.output.value.kind.HelloReply? && m.outputDeadline.Some?
    && m.latest.None? && !m.requestPending && !m.pendingSubscribe && !m.shuttingDown
    && m.closeDeadline.None? && m.shutdownDeadline.None?
    && (m.retained.Some? ==> m.input == [])
    && (m.retained.Some? && m.retained.value.Pipelined? ==> !m.retained.value.request.Hello?)
    && (m.partialDeadline.Some? <==> m.input != [])
    && (m.readHalfClosed ==> m.input == [])
  }

  predicate ReadyShape(m: Machine) {
    && (m.output.Some? ==> m.output.value.kind.Ordinary?)
    && (m.output.Some? <==> m.outputDeadline.Some?)
    && m.latest.None? && m.retained.None? && !m.shuttingDown
    && m.closeDeadline.None? && m.shutdownDeadline.None?
    && (m.requestPending ==> m.output.None?)
    && (m.pendingSubscribe ==> m.requestPending)
    && (m.partialDeadline.Some? <==> m.input != [])
    && (m.requestPending || m.output.Some? ==> m.input == [])
    && (m.readHalfClosed ==> m.input == [] && (m.requestPending || m.output.Some?))
  }

  predicate SubscriberShape(m: Machine) {
    && m.input == [] && m.retained.None? && !m.requestPending && !m.pendingSubscribe
    && m.partialDeadline.None? && m.closeDeadline.None?
    && (m.shuttingDown <==> m.shutdownDeadline.Some?)
    && (m.shuttingDown ==> m.output.Some?)
    && (m.output.Some? ==> m.output.value.kind in {InitialState, State, Shutdown})
    && (m.latest.Some? ==> m.output.Some? && m.latest.value.offset == 0)
    && (!m.shuttingDown ==> (m.output.Some? <==> m.outputDeadline.Some?))
    && (!m.shuttingDown && m.output.Some? ==> !m.output.value.kind.Shutdown?)
    && (!m.shuttingDown && m.latest.Some? ==> m.latest.value.kind.State?)
    && (m.latest.Some? ==> m.latest.value.kind in {State, Shutdown})
  }

  predicate ReplyShape(m: Machine) {
    && m.input == [] && m.output.Some? && m.output.value.kind in {HelloReply, Terminal}
    && m.latest.None? && m.retained.None? && !m.requestPending && !m.pendingSubscribe && !m.shuttingDown
    && m.partialDeadline.None? && m.outputDeadline.None? && m.shutdownDeadline.None?
    && m.closeDeadline.Some?
  }

  predicate WellFormed(m: Machine) {
    && LF !in m.input && |m.input| < MAX_FRAME_BYTES
    && (m.output.Some? ==> m.output.value.WellFormed())
    && (m.latest.Some? ==> m.latest.value.WellFormed())
    && match m.phase
       case AwaitHello => AwaitShape(m)
       case SendingHello => SendingShape(m)
       case Ready => ReadyShape(m)
       case Subscriber => SubscriberShape(m)
       case CloseAfterReply => ReplyShape(m)
       case Closing => Quiet(m) && m.input == []
  }

  /** Able to take input: the precondition of the ingest loop. */
  predicate Reading(m: Machine) {
    && m.phase in {AwaitHello, SendingHello, Ready}
    && !m.requestPending && !m.readHalfClosed && !m.shuttingDown
    && (m.phase.Ready? ==> m.output.None?)
  }

  function After(f: Fed): (n: Next) {
    match f case Go(m) => Next(m, NoAction) case Halt(n) => n
  }

  lemma RefusalKeeps(w: Wire, m: Machine, now: Instant, refusal: Refusal)
    requires WellFormed(m) && m.phase in {AwaitHello, Ready} && !m.requestPending && !m.shuttingDown
    ensures WellFormed(QueueRefusal(w, m, now, refusal))
  {}

  lemma HelloKeeps(w: Wire, m: Machine, now: Instant, matches: bool)
    requires WellFormed(m) && m.phase.AwaitHello? && m.input == []
    ensures var n := QueueHello(w, m, now, matches);
            WellFormed(n.machine) && (n.action.NoAction? && matches ==> Reading(n.machine))
  {}

  lemma AwaitFrameKeeps(w: Wire, m: Machine, now: Instant, decoded: Decoded, last: bool)
    requires WellFormed(m) && m.phase.AwaitHello? && m.input == []
    ensures WellFormed(After(Act(w, m, now, decoded, last)).machine)
    ensures Act(w, m, now, decoded, last).Go? ==> Reading(Act(w, m, now, decoded, last).machine)
  {
    match decoded
    case Invalid =>
    case ValidNonRequest => RefusalKeeps(w, m, now, InvalidRequest);
    case Valid(request) =>
      if request.Hello? {
        HelloKeeps(w, m, now, request.version == PROTOCOL_VERSION);
      } else {
        RefusalKeeps(w, m, now, ExpectedHello);
      }
  }

  lemma ReadyFrameKeeps(w: Wire, m: Machine, now: Instant, decoded: Decoded, last: bool)
    requires WellFormed(m) && Reading(m) && m.phase.Ready? && m.input == []
    ensures WellFormed(After(Act(w, m, now, decoded, last)).machine) && Act(w, m, now, decoded, last).Halt?
  {
    RefusalKeeps(w, m, now, InvalidRequest);
    RefusalKeeps(w, m, now, DuplicateHello);
  }

  lemma OnFrameKeeps(w: Wire, m: Machine, now: Instant, frame: Bytes, last: bool)
    requires WellFormed(m) && Reading(m) && m.input == [] && m.retained.None?
    ensures WellFormed(After(OnFrame(w, m, now, frame, last)).machine)
    ensures OnFrame(w, m, now, frame, last).Go? ==> Reading(OnFrame(w, m, now, frame, last).machine)
  {
    match m.phase
    case AwaitHello => AwaitFrameKeeps(w, m, now, w.decode(frame), last);
    case SendingHello =>
    case Ready => ReadyFrameKeeps(w, m, now, w.decode(frame), last);
  }

  lemma OnByteKeeps(w: Wire, m: Machine, now: Instant, b: Byte, last: bool)
    requires WellFormed(m) && Reading(m)
    ensures WellFormed(After(OnByte(w, m, now, b, last)).machine)
    ensures OnByte(w, m, now, b, last).Go? ==> Reading(OnByte(w, m, now, b, last).machine)
  {
    if !(m.phase.SendingHello? && m.retained.Some?) {
      var m1 := StartPartial(m, now).(input := [], partialDeadline := None);
      OnFrameKeeps(w, m1, now, m.input + [b], last);
    }
  }

  lemma {:induction false} FeedKeeps(w: Wire, m: Machine, now: Instant, bytes: Bytes)
    requires WellFormed(m) && Reading(m)
    ensures WellFormed(Feed(w, m, now, bytes).machine)
    decreases |bytes|
  {
    if bytes != [] {
      OnByteKeeps(w, m, now, bytes[0], |bytes| == 1);
      match OnByte(w, m, now, bytes[0], |bytes| == 1)
      case Halt(_) =>
      case Go(m') => FeedKeeps(w, m', now, bytes[1..]);
    }
  }

  function Emptied(m: Machine): (r: Machine) {
    m.(output := None, outputDeadline := None)
  }

  lemma FinishHelloKeeps(w: Wire, m: Machine, now: Instant)
    requires WellFormed(m) && m.phase.SendingHello?
    ensures WellFormed(FinishHello(w, Emptied(m), now).machine)
  {
    if m.retained.Some? && m.retained.value.Refused? {
      RefusalKeeps(w, Emptied(m).(phase := Ready, retained := None, readHalfClosed := false), now, m.retained.value.refusal);
    }
  }

  lemma FinishSubscriberKeeps(m: Machine, now: Instant)
    requires WellFormed(m) && m.phase.Subscriber? && m.output.Some?
    ensures WellFormed(FinishSubscriberOutput(Emptied(m), now).machine)
  {}

  lemma FinishKeeps(w: Wire, m: Machine, now: Instant)
    requires WellFormed(m) && m.output.Some?
    ensures WellFormed(Finish(w, Emptied(m), now, m.output.value.kind).machine)
  {
    match m.phase
    case SendingHello => FinishHelloKeeps(w, m, now);
    case Ready =>
    case Subscriber => FinishSubscriberKeeps(m, now);
    case CloseAfterReply =>
  }

  lemma AdvanceKeeps(w: Wire, m: Machine, now: Instant, count: nat)
    requires WellFormed(m) && count <= |Remaining(m)|
    ensures WellFormed(AdvanceOutput(w, m, now, count).machine)
  {
    if m.output.Some? {
      var c := m.output.value;
      if c.offset + count == |c.bytes| {
        FinishKeeps(w, m, now);
      }
    }
  }

  lemma PublishKeeps(m: Machine, now: Instant, frame: Bytes)
    requires WellFormed(m) && IsFrame(frame)
    ensures WellFormed(PublishState(m, now, frame).machine)
  {}

  lemma ShutdownKeeps(w: Wire, m: Machine, now: Instant)
    requires WellFormed(m)
    ensures WellFormed(BeginShutdown(w, m, now).machine)
  {
    if m.phase.Subscriber? && !m.shuttingDown {
      SubscriberShutdownKeeps(w, m, now);
    }
  }

  lemma SubscriberShutdownKeeps(w: Wire, m: Machine, now: Instant)
    requires WellFormed(m) && m.phase.Subscriber? && !m.shuttingDown
    ensures WellFormed(BeginShutdown(w, m, now).machine)
  {
    var m' := BeginShutdown(w, m, now).machine;
    if !m'.phase.Closing? {
      assert m'.output.value.WellFormed() && SubscriberShape(m');
    }
  }

  lemma RespondKeeps(m: Machine, now: Instant, response: Text)
    requires WellFormed(m)
    ensures WellFormed(CompleteRequest(m, now, response).machine)
  {}

  lemma SubscribeKeeps(m: Machine, now: Instant, state: Text)
    requires WellFormed(m)
    ensures WellFormed(CompleteSubscribe(m, now, state).machine)
  {}

  /** Every allowed operation keeps the shape. */
  lemma StepKeeps(w: Wire, m: Machine, now: Instant, e: Event)
    requires WellFormed(m) && Allowed(m, e)
    ensures WellFormed(Step(w, m, now, e).machine)
  {
    match e
    case Read(bytes) => if Reading(m) { FeedKeeps(w, m, now, bytes); }
    case Sent(count) => AdvanceKeeps(w, m, now, count);
    case Publish(frame) => PublishKeeps(m, now, frame);
    case StartShutdown => ShutdownKeeps(w, m, now);
    case AcceptSubscriber(state) => SubscribeKeeps(m, now, state);
    case Respond(response) => RespondKeeps(m, now, response);
    case Eof =>
    case Tick =>
  }
}
