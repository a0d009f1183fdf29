/** What each operation of a connection does, told by what its peer and its caller see of it. */
module ConnectionEffects {
  import opened Optional
  import opened Frames
  import opened Protocol
  import opened ConnectionRuns
  import opened ConnectionStreams

  // ---- one frame of input --------------------------------------------------------------------

  predicate TakesFrames(m: Machine) {
    m.phase in {AwaitHello, Ready} || (m.phase.SendingHello? && m.retained.None?)
  }

  lemma PlainByte(w: Wire, m: Machine, now: Instant, b: Byte)
    requires TakesFrames(m) && b != LF && |m.input| + 1 < MAX_FRAME_BYTES
    ensures OnByte(w, m, now, b, false) == Go(StartPartial(m, now).(input := m.input + [b]))
  {}

  /** Reading LF-free bytes that fit only fills the buffer. */
  lemma {:induction false} FeedText(w: Wire, m: Machine, now: Instant, text: Bytes, rest: Bytes)
    requires TakesFrames(m) && LF !in text && |m.input| + |text| < MAX_FRAME_BYTES && rest != []
    ensures Feed(w, m, now, text + rest) ==
            Feed(w, if text == [] then m else StartPartial(m, now).(input := m.input + text), now, rest)
    decreases |text|
  {
    if text == [] {
      assert text + rest == rest;
    } else {
      var all := text + rest;
      assert all[0] == text[0] && all[1..] == text[1..] + rest;
      var m1 := StartPartial(m, now).(input := m.input + [text[0]]);
      assert text[0] in text;
      PlainByte(w, m, now, text[0]);
      FeedText(w, m1, now, text[1..], rest);
      assert m1.input + text[1..] == m.input + text;
      assert StartPartial(m1, now) == m1;
      if text[1..] == [] {
        assert m1.input == m.input + text;
      }
    }
  }

  /** With the buffered part of a frame taken out. */
  function Cleared(m: Machine): (r: Machine) { m.(input := [], partialDeadline := None) }

  function GoOn(w: Wire, f: Fed, now: Instant, rest: Bytes): (n: Next) {
    if f.Halt? then f.next else Feed(w, f.machine, now, rest)
  }

  lemma FrameEnd(w: Wire, m: Machine, m': Machine, now: Instant, rest: Bytes)
    requires TakesFrames(m) && m' == m.(input := m'.input, partialDeadline := m'.partialDeadline)
    ensures Feed(w, m', now, [LF] + rest) ==
            GoOn(w, Act(w, Cleared(m), now, w.decode(m'.input + [LF]), rest == []), now, rest)
  {
    var bytes := [LF] + rest;
    assert bytes[0] == LF && bytes[1..] == rest;
    assert StartPartial(m', now).(input := [], partialDeadline := None) == Cleared(m);
    assert OnByte(w, m', now, LF, rest == []) == Act(w, Cleared(m), now, w.decode(m'.input + [LF]), rest == []);
  }

  /** Input that completes the buffered frame is acted on, and the rest of it read after. */
  lemma FrameRead(w: Wire, m: Machine, now: Instant, text: Text, rest: Bytes)
    requires TakesFrames(m) && |m.input| + |text| < MAX_FRAME_BYTES
    ensures Feed(w, m, now, text + [LF] + rest) ==
            GoOn(w, Act(w, Cleared(m), now, w.decode(m.input + text + [LF]), rest == []), now, rest)
  {
    var m' := if text == [] then m else StartPartial(m, now).(input := m.input + text);
    FrameEnd(w, m, m', now, rest);
    assert m'.input == m.input + text;
    FeedText(w, m, now, text, [LF] + rest);
    assert text + [LF] + rest == text + ([LF] + rest);
  }

  lemma OneFrame(w: Wire, m: Machine, now: Instant, text: Text)
    requires TakesFrames(m) && |m.input| + |text| < MAX_FRAME_BYTES
    ensures Feed(w, m, now, text + [LF]) == After(Act(w, Cleared(m), now, w.decode(m.input + text + [LF]), true))
  {
    FrameRead(w, m, now, text, []);
    assert text + [LF] + [] == text + [LF];
  }

  /** The machine sends this refusal and will then close. */
  predicate Refuses(w: Wire, m: Machine, refusal: Refusal) {
    m.phase.CloseAfterReply? && m.output == Some(Cursor(FrameOf(w.refusal(refusal)), 0, Terminal))
  }

  predicate IsRequest(d: Decoded) { d.Valid? && !d.request.Hello? }

  /** A ready connection hands over every request it is sent and nothing else: it closes exactly on a
      frame that does not decode, and refuses the rest. */
  lemma ReadyFrame(w: Wire, m: Machine, now: Instant, text: Text)
    requires w.Fits() && WellFormed(m) && Reading(m) && m.phase.Ready? && |m.input| + |text| < MAX_FRAME_BYTES
    ensures var (n, d) := (Ingest(w, m, now, text + [LF]), w.decode(m.input + text + [LF]));
            && (forall r :: n.action == Emit(r) <==> d == Valid(r) && !r.Hello?)
            && (n.action.Close? <==> d.Invalid?) && (d.Invalid? ==> n.action == Close(InvalidInput))
            && (IsRequest(d) ==> n.machine == Cleared(m).(requestPending := true, pendingSubscribe := d.request.Subscribe?))
            && (d.ValidNonRequest? ==> n.action.NoAction? && Refuses(w, n.machine, InvalidRequest))
            && (d.Valid? && d.request.Hello? ==> n.action.NoAction? && Refuses(w, n.machine, DuplicateHello))
  {
    OneFrame(w, m, now, text);
    match w.decode(m.input + text + [LF])
    case Invalid =>
    case ValidNonRequest =>
    case Valid(r) =>
  }

  /** With more input behind the frame, a request is not handed over: the connection closes. */
  lemma ReadyExcess(w: Wire, m: Machine, now: Instant, text: Text, rest: Bytes)
    requires w.Fits() && WellFormed(m) && Reading(m) && m.phase.Ready? && |m.input| + |text| < MAX_FRAME_BYTES && rest != []
    ensures var (n, d) := (Ingest(w, m, now, text + [LF] + rest), w.decode(m.input + text + [LF]));
            && (n.action.Close? <==> d.Invalid? || IsRequest(d))
            && (n.action.Close? ==> n.action == Close(if d.Invalid? then InvalidInput else ExcessPipeline))
            && (d.ValidNonRequest? ==> n.action.NoAction? && Refuses(w, n.machine, InvalidRequest))
            && (d.Valid? && d.request.Hello? ==> n.action.NoAction? && Refuses(w, n.machine, DuplicateHello))
  {
    FrameRead(w, m, now, text, rest);
    match w.decode(m.input + text + [LF])
    case Invalid =>
    case ValidNonRequest =>
    case Valid(r) =>
  }

  /** The first frame of a connection: a Hello is answered, in its own version or for the last time;
      anything else is refused, and what does not decode closes. */
  lemma FirstFrame(w: Wire, m: Machine, now: Instant, text: Text)
    requires w.Fits() && WellFormed(m) && Reading(m) && m.phase.AwaitHello? && |m.input| + |text| < MAX_FRAME_BYTES
    ensures var (n, d) := (Ingest(w, m, now, text + [LF]), w.decode(m.input + text + [LF]));
            && (n.action.Close? <==> d.Invalid?) && (d.Invalid? ==> n.action == Close(InvalidInput)) && !n.action.Emit?
            && (d.ValidNonRequest? ==> Refuses(w, n.machine, InvalidRequest))
            && (IsRequest(d) ==> Refuses(w, n.machine, ExpectedHello))
            && (d.Valid? && d.request.Hello? ==>
                  && n.machine.output == Some(Cursor(FrameOf(w.hello), 0, HelloReply))
                  && n.machine.phase == if d.request.version == PROTOCOL_VERSION then SendingHello else CloseAfterReply)
  {
    OneFrame(w, m, now, text);
    match w.decode(m.input + text + [LF])
    case Invalid =>
    case ValidNonRequest =>
    case Valid(r) =>
  }

  /** What a frame sent before the Hello reply is out will come to. */
  function Kept(d: Decoded): (r: Retained)
    requires !d.Invalid?
  {
    if d.ValidNonRequest? then Refused(InvalidRequest)
    else if d.request.Hello? then Refused(DuplicateHello)
    else Pipelined(d.request)
  }

  /** One frame may be sent ahead of the Hello reply; it is kept and the reply goes on undisturbed. */
  lemma FrameAhead(w: Wire, m: Machine, now: Instant, text: Text)
    requires WellFormed(m) && Reading(m) && m.phase.SendingHello? && m.retained.None? && |m.input| + |text| < MAX_FRAME_BYTES
    ensures var (n, d) := (Ingest(w, m, now, text + [LF]), w.decode(m.input + text + [LF]));
            && (n.action.Close? <==> d.Invalid?) && (d.Invalid? ==> n.action == Close(InvalidInput))
            && (!d.Invalid? ==> n == Next(Cleared(m).(retained := Some(Kept(d))), NoAction))
  {
    OneFrame(w, m, now, text);
    match w.decode(m.input + text + [LF])
    case Invalid =>
    case ValidNonRequest =>
    case Valid(r) =>
  }

  /** A second one closes, and so does input behind the first. */
  lemma TwoFramesAhead(w: Wire, m: Machine, now: Instant, bytes: Bytes)
    requires WellFormed(m) && Reading(m) && m.phase.SendingHello? && m.retained.Some? && bytes != []
    ensures Ingest(w, m, now, bytes).action == Close(ExcessPipeline)
  {}

  lemma ExcessAhead(w: Wire, m: Machine, now: Instant, text: Text, rest: Bytes)
    requires WellFormed(m) && Reading(m) && m.phase.SendingHello? && m.retained.None?
    requires |m.input| + |text| < MAX_FRAME_BYTES && rest != []
    ensures Ingest(w, m, now, text + [LF] + rest).action ==
            Close(if w.decode(m.input + text + [LF]).Invalid? then InvalidInput else ExcessPipeline)
  {
    FrameRead(w, m, now, text, rest);
    match w.decode(m.input + text + [LF])
    case Invalid =>
    case ValidNonRequest =>
    case Valid(r) =>
  }

  /** When the last byte of the Hello reply goes, the frame sent ahead is acted on as if it came now. */
  lemma HelloReplyOut(w: Wire, m: Machine, now: Instant)
    requires w.Fits() && WellFormed(m) && m.phase.SendingHello?
    ensures var n := AdvanceOutput(w, m, now, |Remaining(m)|);
            && (forall r :: n.action == Emit(r) <==> m.retained == Some(Pipelined(r)))
            && (n.action.Close? <==> m.retained.None? && m.readHalfClosed) && (n.action.Close? ==> n.action == Close(PeerClosed))
            && (n.action.Emit? ==>
                  && n.machine.phase.Ready? && n.machine.requestPending && n.machine.output.None?
                  && (n.machine.pendingSubscribe <==> n.action.request.Subscribe?))
            && (m.retained.Some? && m.retained.value.Refused? ==> Refuses(w, n.machine, m.retained.value.refusal))
            && (m.retained.None? && !m.readHalfClosed ==> n.machine.phase.Ready? && n.machine.output.None? && !n.machine.requestPending)
  {}

  /** A frame that outgrows the buffer closes the connection, however it goes on. */
  lemma TooLong(w: Wire, m: Machine, now: Instant, text: Bytes, rest: Bytes)
    requires WellFormed(m) && Reading(m) && TakesFrames(m) && LF !in text && |m.input| + |text| >= MAX_FRAME_BYTES
    ensures Ingest(w, m, now, text + rest).action == Close(FrameTooLarge)
  {
    var k := MAX_FRAME_BYTES - 1 - |m.input|;
    var a, b := text[..k], text[k..] + rest;
    assert text + rest == a + b && text[k] in text;
    FeedText(w, m, now, a, b);
    assert b[0] == text[k];
  }

  /** Input that was not asked for closes: from a subscriber, or while an answer is owed, after end of
      file, or when the connection is closing anyway. Nothing read changes nothing. */
  lemma UnwantedInput(w: Wire, m: Machine, now: Instant, bytes: Bytes)
    requires WellFormed(m)
    ensures bytes == [] ==> Ingest(w, m, now, bytes) == Next(m, NoAction)
    ensures bytes != [] && m.phase.Subscriber? ==> Ingest(w, m, now, bytes).action == Close(SubscriberInput)
    ensures bytes != [] && !m.phase.Subscriber? && (m.requestPending || m.readHalfClosed || m.phase in {CloseAfterReply, Closing}) ==>
              Ingest(w, m, now, bytes).action == Close(ExcessPipeline)
  {}

  /** The last byte of a frame: a final reply closes, an ordinary one leaves the connection ready. */
  lemma LastByte(w: Wire, m: Machine, now: Instant)
    requires WellFormed(m) && m.phase in {Ready, CloseAfterReply} && m.output.Some? && !m.readHalfClosed
    ensures var n := AdvanceOutput(w, m, now, |Remaining(m)|);
            if m.phase.CloseAfterReply? then n.action == Close(OutputComplete)
            else n.action.NoAction? && n.machine.phase.Ready? && n.machine.output.None? && InputEnabled(n.machine)
  {}

  /** Fewer bytes only move the frame in flight on by as many. */
  lemma SomeBytes(w: Wire, m: Machine, now: Instant, count: nat)
    requires WellFormed(m) && m.output.Some? && count < |Remaining(m)|
    ensures var n := AdvanceOutput(w, m, now, count);
            n.action.NoAction? && n.machine.phase == m.phase && Remaining(n.machine) == Remaining(m)[count..]
  {}

  // ---- end of file ---------------------------------------------------------------------------------

  /** The peer is owed no answer, no frame and no further state. */
  predicate OwesNothing(m: Machine) { m.output.None? && !m.requestPending && !m.phase.Subscriber? }

  /** End of file closes exactly a connection that owes nothing or was cut off inside a frame; any other
      is only marked. */
  lemma EofOutcome(m: Machine)
    requires WellFormed(m) && !m.phase.Closing?
    ensures var n := ReadEof(m);
            && (n.action.Close? <==> !m.readHalfClosed && (m.input != [] || OwesNothing(m)))
            && (n.action.Close? ==> n.action == Close(PeerClosed))
            && (!n.action.Close? ==> n == Next(m.(readHalfClosed := true), NoAction))
  {}

  /** A half-closed connection closes with the last byte it owes. */
  lemma HalfClosedFinishes(w: Wire, m: Machine, now: Instant)
    requires WellFormed(m) && m.phase.Ready? && m.readHalfClosed && m.output.Some?
    ensures AdvanceOutput(w, m, now, |Remaining(m)|).action == Close(PeerClosed)
  {}

  // ---- what the application gives ---------------------------------------------------------------------

  /** The answer to a pending request is the next thing offered to the socket; one too large leaves the
      request pending, and without a pending request nothing happens. */
  lemma RespondOutcome(m: Machine, now: Instant, response: Text)
    requires WellFormed(m)
    ensures var (n, waits) := (CompleteRequest(m, now, response), m.requestPending && !m.pendingSubscribe);
            && (n.action.OutboundFrameTooLarge? <==> waits && |response| >= MAX_FRAME_BYTES) && !n.action.Emit? && !n.action.Close?
            && (waits && |response| < MAX_FRAME_BYTES ==>
                  Remaining(n.machine) == FrameOf(response) && n.machine.phase.Ready? && !n.machine.requestPending)
            && (!waits || |response| >= MAX_FRAME_BYTES ==> n.machine == m)
  {}

  /** The initial state answers a pending subscribe and makes a subscriber. */
  lemma SubscribeOutcome(m: Machine, now: Instant, state: Text)
    requires WellFormed(m)
    ensures var (n, waits) := (CompleteSubscribe(m, now, state), m.requestPending && m.pendingSubscribe);
            && (n.action.OutboundFrameTooLarge? <==> waits && |state| >= MAX_FRAME_BYTES) && !n.action.Emit? && !n.action.Close?
            && (waits && |state| < MAX_FRAME_BYTES ==>
                  Remaining(n.machine) == FrameOf(state) && n.machine.phase.Subscriber? && !n.machine.requestPending)
            && (!waits || |state| >= MAX_FRAME_BYTES ==> n.machine == m)
  {}

  /** A state published to a subscriber is what it is offered next, after the frame in flight. */
  lemma PublishOutcome(w: Wire, m: Machine, now: Instant, later: Instant, frame: Bytes)
    requires WellFormed(m) && m.phase.Subscriber? && !m.shuttingDown && IsFrame(frame) && |frame| <= MAX_FRAME_BYTES
    ensures var n := PublishState(m, now, frame);
            && n.action.NoAction? && n.machine.phase.Subscriber?
            && (m.output.None? ==> Remaining(n.machine) == frame)
            && (m.output.Some? ==>
                  && Remaining(n.machine) == Remaining(m)
                  && Remaining(AdvanceOutput(w, n.machine, later, |Remaining(m)|).machine) == frame)
  {}

  /** A state too large for a frame, or not a frame, ends the subscription. */
  lemma PublishBad(m: Machine, now: Instant, frame: Bytes)
    requires m.phase.Subscriber? && !m.shuttingDown && (|frame| > MAX_FRAME_BYTES || frame == [] || frame[|frame| - 1] != LF)
    ensures PublishState(m, now, frame).action == Close(FrameTooLarge)
  {}

  /** A shutdown closes whoever is no subscriber, and telling a subscriber twice changes nothing. */
  lemma ShutdownOthers(w: Wire, m: Machine, now: Instant, later: Instant)
    requires WellFormed(m) && !m.phase.Closing?
    ensures BeginShutdown(w, m, now).action == Close(ShutdownDone) <==> !m.phase.Subscriber?
    ensures m.phase.Subscriber? && w.Fits() ==>
              var m' := BeginShutdown(w, m, now).machine; BeginShutdown(w, m', later) == Next(m', NoAction)
  {}

  /** Nobody else is sent anything, and a subscriber shutting down no more. */
  lemma PublishIgnored(m: Machine, now: Instant, frame: Bytes)
    requires !m.phase.Subscriber? || m.shuttingDown
    ensures PublishState(m, now, frame) == Next(m, NoAction)
  {}

  // ---- what the machine waits for ------------------------------------------------------------------------

  /** Input is wanted exactly from a peer that is owed nothing, or that subscribed. */
  lemma InputWanted(m: Machine)
    requires WellFormed(m)
    ensures InputEnabled(m) <==>
            && !m.phase.Closing? && !m.readHalfClosed && !m.requestPending
            && (m.output.None? || m.phase.Subscriber?)
  {}

  /** So a connection that is not closed waits for its peer's input, its peer's reading, or the
      application; only a half-closed subscriber may wait for the next state alone. */
  lemma NeverStuck(m: Machine)
    requires WellFormed(m) && !m.phase.Closing?
    ensures InputEnabled(m) || m.output.Some? || m.requestPending || (m.phase.Subscriber? && m.readHalfClosed)
  {
    InputWanted(m);
  }

  /** Every deadline in force. */
  function InForce(m: Machine): (ds: set<Option<Instant>>) {
    {m.shutdownDeadline, if m.phase.AwaitHello? then Some(m.helloDeadline) else None, m.partialDeadline, m.outputDeadline, m.closeDeadline}
  }

  /** The next deadline is the least of them. */
  lemma NextIsLeast(m: Machine)
    requires !m.phase.Closing?
    ensures NextDeadline(m) in InForce(m)
    ensures forall d :: d in InForce(m) && d.Some? ==> NextDeadline(m).Some? && NextDeadline(m).value <= d.value
  {}

  /** Expiry acts exactly from then on. */
  lemma ExpireOutcome(m: Machine, now: Instant)
    ensures var n := Expire(m, now);
            && (n.action == Close(Deadline) <==> NextDeadline(m).Some? && NextDeadline(m).value <= now)
            && (n.action != Close(Deadline) ==> n == Next(m, NoAction))
  {}
}
