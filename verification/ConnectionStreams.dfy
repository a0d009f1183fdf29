/** What one connection reads and writes over a whole run, stated on the two byte streams. */
module ConnectionStreams {
  import opened Optional
  import opened Frames
  import opened Protocol
  import opened ConnectionRuns

  /** What the application has asked the connection to send. */
  datatype Story = Story(
    replies: seq<Bytes>,       // frames of the ordinary responses accepted
    initial: Option<Bytes>,    // frame of the state that opened the subscription
    published: seq<Bytes>)     // frames published to the subscriber since

  /** What an observer outside the machine sees of a run. */
  datatype Log = Log(
    received: Bytes,           // bytes read from the peer
    emitted: seq<Request>,     // requests handed to the application
    story: Story,
    sent: Bytes)               // bytes taken by the socket

  datatype Conf = Conf(machine: Machine, log: Log)

  function FrameOf(text: Text): (f: Bytes)
    ensures IsFrame(f)
    ensures |text| < MAX_FRAME_BYTES ==> Encode(text) == Some(f)
  {
    assert (text + [LF])[..|text|] == text;
    text + [LF]
  }

  function Told(story: Story, m: Machine, n: Next, e: Event): (r: Story) {
    var completed := m.requestPending && !n.machine.requestPending;
    if e.Respond? && completed then story.(replies := story.replies + [FrameOf(e.response)])
    else if e.AcceptSubscriber? && completed then story.(initial := Some(FrameOf(e.state)))
    else if e.Publish? && m.phase.Subscriber? && !m.shuttingDown && n.action.NoAction?
    then story.(published := story.published + [e.frame])
    else story
  }

  function Observe(w: Wire, log: Log, m: Machine, now: Instant, e: Event): (r: Log) {
    var n := Step(w, m, now, e);
    Log(if e.Read? then log.received + e.bytes else log.received,
        if n.action.Emit? then log.emitted + [n.action.request] else log.emitted,
        Told(log.story, m, n, e),
        if e.Sent? && e.count <= |Remaining(m)| then log.sent + Remaining(m)[..e.count] else log.sent)
  }

  function Advance(w: Wire, c: Conf, s: Stimulus): (r: Conf) {
    Conf(Step(w, c.machine, s.now, s.event).machine, Observe(w, c.log, c.machine, s.now, s.event))
  }

  /** The configuration after the events `es` of a connection accepted at `start`. */
  function Run(w: Wire, start: Instant, es: seq<Stimulus>): (c: Conf) {
    if es == [] then Conf(New(start), Log([], [], Story([], None, []), []))
    else Advance(w, Run(w, start, es[..|es| - 1]), es[|es| - 1])
  }

  predicate LegalRun(w: Wire, start: Instant, es: seq<Stimulus>) {
    es == [] ||
    (LegalRun(w, start, es[..|es| - 1]) &&
     Allowed(Run(w, start, es[..|es| - 1]).machine, es[|es| - 1].event))
  }

  // ---- input ----------------------------------------------------------------

  predicate IsHello(w: Wire, frame: Bytes) {
    var d := w.decode(frame);
    d.Valid? && d.request.Hello? && d.request.version == PROTOCOL_VERSION
  }

  /** The frames open with a matching Hello and then decode to these requests. */
  predicate Matches(w: Wire, fs: seq<Bytes>, rs: seq<Request>) {
    && |fs| > |rs|
    && IsHello(w, fs[0])
    && forall i :: 0 <= i < |rs| ==> w.decode(fs[i + 1]) == Valid(rs[i])
  }

  /** How complete frames, partial frame and emitted requests relate to the machine's state. */
  predicate InputShape(w: Wire, fs: seq<Bytes>, partial: Bytes, emitted: seq<Request>, m: Machine) {
    match m.phase
    case AwaitHello => fs == [] && partial == m.input && emitted == []
    case SendingHello =>
      && emitted == [] && Matches(w, fs, []) && partial == m.input
      && |fs| == (if m.retained.Some? then 2 else 1)
      && (m.retained.Some? && m.retained.value.Pipelined? ==> w.decode(fs[1]) == Valid(m.retained.value.request))
    case Ready => Matches(w, fs, emitted) && |fs| == 1 + |emitted| && partial == m.input
    case Subscriber => Matches(w, fs, emitted) && |fs| == 1 + |emitted| && partial == m.input
    case _ => emitted == [] || Matches(w, fs, emitted)
  }

  predicate InputInv(w: Wire, log: Log, m: Machine) {
    InputShape(w, Complete(log.received), Partial(log.received), log.emitted, m)
  }

  function EmittedBy(a: Action): (r: seq<Request>) {
    if a.Emit? then [a.request] else []
  }

  /** What the frame decodes to decides; `fs` are the frames before it. */
  lemma AwaitInput(w: Wire, frame: Bytes, m: Machine, now: Instant, last: bool)
    requires m.phase.AwaitHello? && m.input == [] && m.retained.None?
    ensures var n := After(Act(w, m, now, w.decode(frame), last));
            InputShape(w, [frame], [], EmittedBy(n.action), n.machine)
  {
    assert Matches(w, [frame], []) <==> IsHello(w, frame);
    match w.decode(frame)
    case Invalid =>
    case ValidNonRequest =>
    case Valid(request) =>
      if request.Hello? {
        assert request.version == PROTOCOL_VERSION ==> Matches(w, [frame], []);
      }
  }

  lemma OnFrameInput(w: Wire, fs: seq<Bytes>, emitted: seq<Request>, m: Machine, now: Instant, frame: Bytes, last: bool)
    requires Reading(m) && m.input == [] && m.retained.None?
    requires InputShape(w, fs, [], emitted, m)
    ensures var n := After(OnFrame(w, m, now, frame, last));
            InputShape(w, fs + [frame], [], emitted + EmittedBy(n.action), n.machine)
  {
    match m.phase
    case AwaitHello =>
      AwaitInput(w, frame, m, now, last);
      assert fs + [frame] == [frame];
    case SendingHello =>
    case Ready =>
      assert Matches(w, fs + [frame], emitted);
  }

  lemma NoFrameInput(w: Wire, fs: seq<Bytes>, partial: Bytes, emitted: seq<Request>, m: Machine, now: Instant, b: Byte, last: bool)
    requires WellFormed(m) && Reading(m) && InputShape(w, fs, partial, emitted, m)
    requires b != LF
    ensures var n := After(OnByte(w, m, now, b, last));
            InputShape(w, fs, partial + [b], emitted + EmittedBy(n.action), n.machine)
  {
    assert emitted + [] == emitted;
  }

  lemma HaltInput(w: Wire, m: Machine, now: Instant, b: Byte)
    requires Reading(m)
    ensures OnByte(w, m, now, b, false).Halt? ==>
              var n := OnByte(w, m, now, b, false).next;
              !n.action.Emit? && n.machine.phase in {CloseAfterReply, Closing}
  {}

  lemma FrameByteInput(w: Wire, fs: seq<Bytes>, partial: Bytes, emitted: seq<Request>, m: Machine, now: Instant, last: bool)
    requires WellFormed(m) && Reading(m) && InputShape(w, fs, partial, emitted, m)
    ensures var n := After(OnByte(w, m, now, LF, last));
            InputShape(w, fs + [partial + [LF]], [], emitted + EmittedBy(n.action), n.machine)
  {
    if m.phase.SendingHello? && m.retained.Some? {
      assert emitted + [] == emitted;
    } else {
      var m1 := StartPartial(m, now).(input := [], partialDeadline := None);
      OnFrameInput(w, fs, emitted, m1, now, m.input + [LF], last);
    }
  }

  lemma OnByteInput(w: Wire, received: Bytes, emitted: seq<Request>, m: Machine, now: Instant, b: Byte, last: bool)
    requires WellFormed(m) && Reading(m)
    requires InputShape(w, Complete(received), Partial(received), emitted, m)
    ensures var n := After(OnByte(w, m, now, b, last));
            InputShape(w, Complete(received + [b]), Partial(received + [b]), emitted + EmittedBy(n.action), n.machine)
  {
    SplitPush(received, b);
    if b != LF {
      NoFrameInput(w, Complete(received), Partial(received), emitted, m, now, b, last);
    } else {
      FrameByteInput(w, Complete(received), Partial(received), emitted, m, now, last);
    }
  }

  lemma GrowInput(w: Wire, received: Bytes, emitted: seq<Request>, m: Machine, bytes: Bytes)
    requires m.phase in {CloseAfterReply, Closing}
    requires InputShape(w, Complete(received), Partial(received), emitted, m)
    ensures InputShape(w, Complete(received + bytes), Partial(received + bytes), emitted, m)
  {
    SplitGrows(received, bytes);
  }

  lemma {:induction false} FeedInput(w: Wire, received: Bytes, emitted: seq<Request>, m: Machine, now: Instant, bytes: Bytes)
    requires WellFormed(m) && Reading(m)
    requires InputShape(w, Complete(received), Partial(received), emitted, m)
    ensures var n := Feed(w, m, now, bytes);
            InputShape(w, Complete(received + bytes), Partial(received + bytes), emitted + EmittedBy(n.action), n.machine)
    decreases |bytes|
  {
    if bytes == [] {
      assert received + bytes == received && emitted + [] == emitted;
    } else {
      var b, rest, last := bytes[0], bytes[1..], |bytes| == 1;
      assert (received + [b]) + rest == received + bytes;
      OnByteKeeps(w, m, now, b, last);
      OnByteInput(w, received, emitted, m, now, b, last);
      assert emitted + [] == emitted;
      match OnByte(w, m, now, b, last)
      case Go(m') => FeedInput(w, received + [b], emitted, m', now, rest);
      case Halt(n) =>
        if last {
          assert rest == [] && received + bytes == received + [b];
        } else {
          HaltInput(w, m, now, b);
          GrowInput(w, received + [b], emitted, n.machine, rest);
        }
    }
  }

  lemma FinishInput(w: Wire, fs: seq<Bytes>, partial: Bytes, emitted: seq<Request>, m: Machine, now: Instant)
    requires WellFormed(m) && m.output.Some? && InputShape(w, fs, partial, emitted, m)
    ensures var n := Finish(w, Emptied(m), now, m.output.value.kind);
            InputShape(w, fs, partial, emitted + EmittedBy(n.action), n.machine)
  {
    assert emitted + [] == emitted;
    match m.phase
    case SendingHello =>
      if m.retained.Some? && m.retained.value.Pipelined? {
        assert Matches(w, fs, emitted + [m.retained.value.request]);
      }
    case Ready =>
    case Subscriber =>
    case CloseAfterReply =>
  }

  lemma ReadInput(w: Wire, received: Bytes, emitted: seq<Request>, m: Machine, now: Instant, bytes: Bytes)
    requires WellFormed(m) && Allowed(m, Read(bytes))
    requires InputShape(w, Complete(received), Partial(received), emitted, m)
    ensures var n := Ingest(w, m, now, bytes);
            InputShape(w, Complete(received + bytes), Partial(received + bytes), emitted + EmittedBy(n.action), n.machine)
  {
    assert emitted + [] == emitted;
    if bytes == [] {
      assert received + bytes == received;
    } else if Reading(m) {
      FeedInput(w, received, emitted, m, now, bytes);
    } else {
      GrowInput(w, received, emitted, Shut(m), bytes);
    }
  }

  lemma OtherInput(w: Wire, fs: seq<Bytes>, partial: Bytes, emitted: seq<Request>, m: Machine, now: Instant, e: Event)
    requires WellFormed(m) && Allowed(m, e) && !e.Read?
    requires InputShape(w, fs, partial, emitted, m)
    ensures var n := Step(w, m, now, e);
            InputShape(w, fs, partial, emitted + EmittedBy(n.action), n.machine)
  {
    assert emitted + [] == emitted;
    match e
    case Sent(count) => SentInput(w, fs, partial, emitted, m, now, count);
    case StartShutdown => ShutdownInput(w, fs, partial, emitted, m, now);
    case _ =>
  }

  lemma SentInput(w: Wire, fs: seq<Bytes>, partial: Bytes, emitted: seq<Request>, m: Machine, now: Instant, count: nat)
    requires WellFormed(m) && count <= |Remaining(m)| && InputShape(w, fs, partial, emitted, m)
    ensures var n := AdvanceOutput(w, m, now, count);
            InputShape(w, fs, partial, emitted + EmittedBy(n.action), n.machine)
  {
    assert emitted + [] == emitted;
    if m.output.Some? && m.output.value.offset + count == |m.output.value.bytes| {
      FinishInput(w, fs, partial, emitted, m, now);
    }
  }

  lemma ShutdownInput(w: Wire, fs: seq<Bytes>, partial: Bytes, emitted: seq<Request>, m: Machine, now: Instant)
    requires WellFormed(m) && InputShape(w, fs, partial, emitted, m)
    ensures InputShape(w, fs, partial, emitted, BeginShutdown(w, m, now).machine) && !BeginShutdown(w, m, now).action.Emit?
  {}

  lemma StepInput(w: Wire, log: Log, m: Machine, now: Instant, e: Event)
    requires WellFormed(m) && InputInv(w, log, m) && Allowed(m, e)
    ensures InputInv(w, Observe(w, log, m, now, e), Step(w, m, now, e).machine)
  {
    var n := Step(w, m, now, e);
    assert Observe(w, log, m, now, e).emitted == log.emitted + EmittedBy(n.action);
    if e.Read? {
      ReadInput(w, log.received, log.emitted, m, now, e.bytes);
    } else {
      OtherInput(w, Complete(log.received), Partial(log.received), log.emitted, m, now, e);
    }
  }
}
