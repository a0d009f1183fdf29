/** Deadlines of one connection, and how little the grouping of its input matters. */
module ConnectionTiming {
  import opened Optional
  import opened Frames
  import opened Protocol
  import opened ConnectionRuns
  import opened ConnectionStreams
  import opened ConnectionTheorems

  // ---- deadlines -------------------------------------------------------------

  /** No deadline runs exactly when nothing is expected of the peer. */
  predicate Idle(m: Machine) {
    || m.phase.Closing?
    || (m.phase.Ready? && m.output.None? && m.input == [])
    || (m.phase.Subscriber? && m.output.None? && !m.shuttingDown)
  }

  lemma DeadlineIffWaiting(w: Wire, start: Instant, es: seq<Stimulus>)
    requires LegalRun(w, start, es)
    ensures NextDeadline(Run(w, start, es).machine).None? <==> Idle(Run(w, start, es).machine)
  {
    RunKeeps(w, start, es);
  }

  /** A deadline that stays set stays where it is. */
  predicate Kept(before: Option<Instant>, after: Option<Instant>) {
    before.Some? ==> after == before
  }

  lemma {:induction false} FeedDeadlines(w: Wire, m: Machine, now: Instant, bytes: Bytes)
    requires WellFormed(m) && Reading(m)
    ensures var m' := Feed(w, m, now, bytes).machine;
            && m'.helloDeadline == m.helloDeadline
            && (!m'.phase.Closing? && m.output.Some? ==>
                  m'.output == m.output && m'.outputDeadline == m.outputDeadline)
    decreases |bytes|
  {
    if bytes != [] {
      OnByteKeeps(w, m, now, bytes[0], |bytes| == 1);
      match OnByte(w, m, now, bytes[0], |bytes| == 1)
      case Halt(_) =>
      case Go(m') => FeedDeadlines(w, m', now, bytes[1..]);
    }
  }

  /** Terminal and shutdown deadlines are never moved, the Hello deadline never set again, and
      the deadline of the frame in flight moves only when bytes of it are taken. */
  lemma DeadlineStep(w: Wire, m: Machine, now: Instant, e: Event)
    requires WellFormed(m) && Allowed(m, e)
    ensures var m' := Step(w, m, now, e).machine;
            && m'.helloDeadline == m.helloDeadline
            && (!m'.phase.Closing? ==>
                  && Kept(m.closeDeadline, m'.closeDeadline)
                  && Kept(m.shutdownDeadline, m'.shutdownDeadline)
                  && (m.output.Some? && m'.output == m.output && (e.Sent? ==> e.count == 0) ==>
                        m'.outputDeadline == m.outputDeadline))
  {
    match e
    case Read(bytes) =>
      if Reading(m) {
        FeedDeadlines(w, m, now, bytes);
      }
    case Sent(count) => SentDeadlines(w, m, now, count);
    case StartShutdown => ShutdownDeadlines(w, m, now);
    case _ =>
  }

  lemma SentDeadlines(w: Wire, m: Machine, now: Instant, count: nat)
    requires WellFormed(m) && count <= |Remaining(m)|
    ensures var m' := AdvanceOutput(w, m, now, count).machine;
            && m'.helloDeadline == m.helloDeadline
            && (!m'.phase.Closing? ==>
                  && Kept(m.closeDeadline, m'.closeDeadline) && Kept(m.shutdownDeadline, m'.shutdownDeadline)
                  && (m.output.Some? && m'.output == m.output && count == 0 ==> m'.outputDeadline == m.outputDeadline))
  {
    if m.output.Some? {
      match m.phase
      case SendingHello =>
      case Ready =>
      case Subscriber =>
      case CloseAfterReply =>
    }
  }

  lemma ShutdownDeadlines(w: Wire, m: Machine, now: Instant)
    requires WellFormed(m)
    ensures var m' := BeginShutdown(w, m, now).machine;
            && m'.helloDeadline == m.helloDeadline
            && (!m'.phase.Closing? ==>
                  && Kept(m.closeDeadline, m'.closeDeadline) && Kept(m.shutdownDeadline, m'.shutdownDeadline)
                  && (m.output.Some? && m'.output == m.output ==> m'.outputDeadline == m.outputDeadline))
  {}

  lemma ClosedForever(w: Wire, m: Machine, now: Instant, e: Event)
    requires WellFormed(m) && m.phase.Closing?
    ensures Step(w, m, now, e).machine.phase.Closing?
  {}

  /** Until its Hello came a connection lives for at most one second. */
  lemma {:induction false} HelloDeadlineFixed(w: Wire, start: Instant, es: seq<Stimulus>)
    requires LegalRun(w, start, es)
    ensures var m := Run(w, start, es).machine;
            && m.helloDeadline == start + HELLO_TIMEOUT
            && (m.phase.AwaitHello? ==> NextDeadline(m).Some? && NextDeadline(m).value <= start + HELLO_TIMEOUT)
  {
    if es != [] {
      var p, s := es[..|es| - 1], es[|es| - 1];
      HelloDeadlineFixed(w, start, p);
      RunShape(w, start, p);
      DeadlineStep(w, Run(w, start, p).machine, s.now, s.event);
    }
  }

  /** `after` is closed or still has the terminal and shutdown deadlines of `before`. */
  predicate Bound(before: Machine, after: Machine) {
    !after.phase.Closing? ==>
      Kept(before.closeDeadline, after.closeDeadline) && Kept(before.shutdownDeadline, after.shutdownDeadline)
  }

  /** A terminal or shutdown deadline seen at any moment still stands at every later one. */
  lemma {:induction false} DeadlinesNeverMove(w: Wire, start: Instant, es: seq<Stimulus>, k: nat)
    requires LegalRun(w, start, es) && k <= |es|
    ensures Bound(Run(w, start, es[..k]).machine, Run(w, start, es).machine)
    decreases |es|
  {
    if k == |es| {
      assert es[..k] == es;
    } else {
      var p, s := es[..|es| - 1], es[|es| - 1];
      assert p[..k] == es[..k];
      DeadlinesNeverMove(w, start, p, k);
      RunShape(w, start, p);
      var m := Run(w, start, p).machine;
      DeadlineStep(w, m, s.now, s.event);
      if m.phase.Closing? {
        ClosedForever(w, m, s.now, s.event);
      }
    }
  }

  /** When the first byte of the frame now partly received came in, read off the input alone. */
  function FrameStart(w: Wire, start: Instant, es: seq<Stimulus>): (t: Instant) {
    if es == [] then start
    else
      var p, s := es[..|es| - 1], es[|es| - 1];
      if s.event.Read? && s.event.bytes != [] &&
         (LF in s.event.bytes || Partial(Run(w, start, p).log.received) == [])
      then s.now else FrameStart(w, start, p)
  }

  predicate PartialFrom(m: Machine, t: Instant) {
    m.partialDeadline.Some? ==> m.partialDeadline.value == t + FRAME_TIMEOUT
  }

  lemma OnBytePartial(w: Wire, m: Machine, now: Instant, b: Byte, last: bool, t: Instant)
    requires WellFormed(m) && Reading(m) && PartialFrom(m, t)
    ensures var m' := After(OnByte(w, m, now, b, last)).machine;
            if b == LF then m'.partialDeadline.None? else PartialFrom(m', if m.input == [] then now else t)
    ensures OnByte(w, m, now, b, last).Go? ==> (OnByte(w, m, now, b, last).machine.input == [] <==> b == LF)
  {}

  lemma {:induction false} FeedPartial(w: Wire, m: Machine, now: Instant, bytes: Bytes, t: Instant)
    requires WellFormed(m) && Reading(m) && PartialFrom(m, t) && bytes != []
    ensures PartialFrom(Feed(w, m, now, bytes).machine, if LF in bytes || m.input == [] then now else t)
    decreases |bytes|
  {
    var b, rest, last := bytes[0], bytes[1..], |bytes| == 1;
    assert LF in bytes <==> b == LF || LF in rest;
    OnByteKeeps(w, m, now, b, last);
    OnBytePartial(w, m, now, b, last, t);
    match OnByte(w, m, now, b, last)
    case Halt(n) =>
      assert n.machine.partialDeadline.None?;
    case Go(m') =>
      var t' := if m.input == [] then now else t;
      if rest == [] {
        assert Feed(w, m', now, rest).machine == m';
      } else {
        FeedPartial(w, m', now, rest, t');
      }
  }

  lemma PartialStep(w: Wire, m: Machine, now: Instant, e: Event, t: Instant)
    requires WellFormed(m) && Allowed(m, e) && PartialFrom(m, t)
    ensures var renewed := e.Read? && e.bytes != [] && (LF in e.bytes || m.input == []);
            PartialFrom(Step(w, m, now, e).machine, if renewed then now else t)
  {
    match e
    case Read(bytes) =>
      if Reading(m) && bytes != [] {
        FeedPartial(w, m, now, bytes, t);
      }
    case Sent(count) =>
      if m.output.Some? && m.output.value.offset + count == |m.output.value.bytes| {
        assert Step(w, m, now, e) == Finish(w, Emptied(m), now, m.output.value.kind);
      }
    case _ =>
  }

  /** The partial-frame deadline is two seconds after the frame's first byte, whatever came since. */
  lemma {:induction false} PartialDeadlineExact(w: Wire, start: Instant, es: seq<Stimulus>)
    requires LegalRun(w, start, es)
    ensures PartialFrom(Run(w, start, es).machine, FrameStart(w, start, es))
  {
    if es != [] {
      var p, s := es[..|es| - 1], es[|es| - 1];
      PartialDeadlineExact(w, start, p);
      RunKeeps(w, start, p);
      PartialAdvance(w, Run(w, start, p), s.now, s.event, FrameStart(w, start, p));
    }
  }

  lemma NoPartialLater(w: Wire, m: Machine, now: Instant, e: Event)
    requires WellFormed(m) && Allowed(m, e) && m.phase !in {AwaitHello, SendingHello, Ready}
    ensures Step(w, m, now, e).machine.partialDeadline.None?
  {
    assert m.partialDeadline.None?;
  }

  lemma PartialAdvance(w: Wire, c: Conf, now: Instant, e: Event, t: Instant)
    requires WellFormed(c.machine) && InputInv(w, c.log, c.machine) && Allowed(c.machine, e) && PartialFrom(c.machine, t)
    ensures var renewed := e.Read? && e.bytes != [] && (LF in e.bytes || Partial(c.log.received) == []);
            PartialFrom(Step(w, c.machine, now, e).machine, if renewed then now else t)
  {
    if c.machine.phase in {AwaitHello, SendingHello, Ready} {
      assert Partial(c.log.received) == c.machine.input;
      PartialStep(w, c.machine, now, e, t);
    } else {
      NoPartialLater(w, c.machine, now, e);
    }
  }

  // ---- the deadline of the frame in flight ----------------------------------------------------

  /** Bytes of the frame in flight were taken, or a frame was put in flight. */
  predicate Progress(m: Machine, m': Machine, e: Event) {
    (e.Sent? && e.count > 0) || (m.output.None? && m'.output.Some?)
  }

  /** Unless it shuts down, progress and nothing else gives a connection two more seconds. */
  predicate Renewed(m: Machine, m': Machine, now: Instant, e: Event) {
    !m'.shuttingDown && m'.outputDeadline.Some? ==>
      m'.outputDeadline == if Progress(m, m', e) then Some(now + OUTPUT_TIMEOUT) else m.outputDeadline
  }

  lemma {:induction false} FeedRenews(w: Wire, m: Machine, now: Instant, bytes: Bytes)
    requires WellFormed(m) && Reading(m)
    ensures var m' := Feed(w, m, now, bytes).machine;
            m'.outputDeadline.Some? ==>
              m'.outputDeadline == if m.output.None? && m'.output.Some? then Some(now + OUTPUT_TIMEOUT) else m.outputDeadline
    ensures m.output.Some? ==> var m' := Feed(w, m, now, bytes).machine; m'.output.Some? || m'.outputDeadline.None?
    decreases |bytes|
  {
    if bytes != [] {
      OnByteKeeps(w, m, now, bytes[0], |bytes| == 1);
      OnByteRenews(w, m, now, bytes[0], |bytes| == 1);
      match OnByte(w, m, now, bytes[0], |bytes| == 1)
      case Halt(_) =>
      case Go(m') => FeedRenews(w, m', now, bytes[1..]);
    }
  }

  lemma OnByteRenews(w: Wire, m: Machine, now: Instant, b: Byte, last: bool)
    requires WellFormed(m) && Reading(m)
    ensures var m' := After(OnByte(w, m, now, b, last)).machine;
            && (m'.outputDeadline.Some? ==>
                  m'.outputDeadline == if m.output.None? && m'.output.Some? then Some(now + OUTPUT_TIMEOUT) else m.outputDeadline)
            && (m.output.Some? ==> m'.output.Some? || m'.outputDeadline.None?)
    ensures OnByte(w, m, now, b, last).Go? && m.output.Some? ==> OnByte(w, m, now, b, last).machine.output.Some?
  {
    OnByteKeeps(w, m, now, b, last);
  }

  lemma SentRenews(w: Wire, m: Machine, now: Instant, count: nat)
    requires WellFormed(m) && count <= |Remaining(m)|
    ensures Renewed(m, AdvanceOutput(w, m, now, count).machine, now, Sent(count))
  {
    if m.output.Some? {
      match m.phase
      case SendingHello =>
      case Ready =>
      case Subscriber =>
      case CloseAfterReply =>
    }
  }

  lemma StepRenews(w: Wire, m: Machine, now: Instant, e: Event)
    requires WellFormed(m) && Allowed(m, e)
    ensures Renewed(m, Step(w, m, now, e).machine, now, e)
  {
    match e
    case Read(bytes) => if Reading(m) { FeedRenews(w, m, now, bytes); }
    case Sent(count) => SentRenews(w, m, now, count);
    case StartShutdown => assert BeginShutdown(w, m, now).machine.shuttingDown || BeginShutdown(w, m, now).machine.outputDeadline.None? || BeginShutdown(w, m, now).machine == m;
    case _ =>
  }

  /** When the connection last made progress. */
  function LastProgress(w: Wire, start: Instant, es: seq<Stimulus>): (t: Instant) {
    if es == [] then start
    else
      var p, s := es[..|es| - 1], es[|es| - 1];
      if Progress(Run(w, start, p).machine, Run(w, start, es).machine, s.event) then s.now else LastProgress(w, start, p)
  }

  lemma ShutStays(w: Wire, m: Machine, now: Instant, e: Event)
    requires WellFormed(m) && Allowed(m, e) && m.shuttingDown
    ensures Step(w, m, now, e).machine.shuttingDown
  {}

  predicate OutputFrom(m: Machine, t: Instant) {
    !m.shuttingDown && m.outputDeadline.Some? ==> m.outputDeadline.value == t + OUTPUT_TIMEOUT
  }

  lemma OutputStep(w: Wire, m: Machine, now: Instant, e: Event, t: Instant)
    requires WellFormed(m) && Allowed(m, e) && OutputFrom(m, t)
    ensures var m' := Step(w, m, now, e).machine; OutputFrom(m', if Progress(m, m', e) then now else t)
  {
    StepRenews(w, m, now, e);
    if m.shuttingDown {
      ShutStays(w, m, now, e);
    }
  }

  /** The deadline of the frame in flight is two seconds after the last progress, over every run. */
  lemma {:induction false} OutputDeadlineExact(w: Wire, start: Instant, es: seq<Stimulus>)
    requires LegalRun(w, start, es)
    ensures OutputFrom(Run(w, start, es).machine, LastProgress(w, start, es))
  {
    if es != [] {
      var p, s := es[..|es| - 1], es[|es| - 1];
      OutputDeadlineExact(w, start, p);
      RunShape(w, start, p);
      var m := Run(w, start, p).machine;
      assert Run(w, start, es).machine == Step(w, m, s.now, s.event).machine;
      OutputStep(w, m, s.now, s.event, LastProgress(w, start, p));
    }
  }

  lemma {:induction false} FeedTerminal(w: Wire, m: Machine, now: Instant, bytes: Bytes)
    requires WellFormed(m) && Reading(m)
    ensures var m' := Feed(w, m, now, bytes).machine;
            m'.closeDeadline.Some? ==> m'.phase.CloseAfterReply? && m'.closeDeadline == Some(now + TERMINAL_TIMEOUT)
    decreases |bytes|
  {
    if bytes != [] {
      OnByteKeeps(w, m, now, bytes[0], |bytes| == 1);
      match OnByte(w, m, now, bytes[0], |bytes| == 1)
      case Halt(_) =>
      case Go(m') => FeedTerminal(w, m', now, bytes[1..]);
    }
  }

  /** A last reply has 100 ms from the moment it is queued. */
  lemma TerminalDeadline(w: Wire, m: Machine, now: Instant, e: Event)
    requires WellFormed(m) && Allowed(m, e) && !m.phase.CloseAfterReply?
    ensures var m' := Step(w, m, now, e).machine;
            m'.phase.CloseAfterReply? <==> m'.closeDeadline.Some?
    ensures var m' := Step(w, m, now, e).machine;
            m'.closeDeadline.Some? ==> m'.closeDeadline == Some(now + TERMINAL_TIMEOUT)
  {
    StepKeeps(w, m, now, e);
    match e
    case Read(bytes) => if Reading(m) { FeedTerminal(w, m, now, bytes); }
    case Sent(count) => SentTerminal(w, m, now, count);
    case _ =>
  }

  lemma SentTerminal(w: Wire, m: Machine, now: Instant, count: nat)
    requires WellFormed(m) && count <= |Remaining(m)| && !m.phase.CloseAfterReply?
    ensures var m' := AdvanceOutput(w, m, now, count).machine;
            m'.closeDeadline.Some? ==> m'.closeDeadline == Some(now + TERMINAL_TIMEOUT)
  {
    if m.output.Some? {
      match m.phase
      case SendingHello =>
      case Ready =>
      case Subscriber =>
    }
  }

  // ---- chunking -------------------------------------------------------------------

  predicate Continues(n: Next) {
    n.action.NoAction? && n.machine.phase in {AwaitHello, SendingHello, Ready}
  }

  predicate SameFlags(m: Machine, m': Machine) {
    m'.requestPending == m.requestPending && m'.readHalfClosed == m.readHalfClosed && m'.shuttingDown == m.shuttingDown
  }

  /** Going on after a frame that ended the read, or meeting more bytes in it, comes to the same. */
  predicate SameEither(last: Fed, middle: Fed) {
    last.Go? &&
    (middle == last ||
     (last.machine.phase.SendingHello? && last.machine.retained.Some? &&
      middle == Halt(CloseWith(last.machine, ExcessPipeline))))
  }

  lemma FrameEither(w: Wire, m: Machine, now: Instant, frame: Bytes)
    requires m.phase in {AwaitHello, SendingHello, Ready}
    requires Continues(After(OnFrame(w, m, now, frame, true)))
    ensures SameEither(OnFrame(w, m, now, frame, true), OnFrame(w, m, now, frame, false))
    ensures SameFlags(m, OnFrame(w, m, now, frame, true).machine)
  {
    match m.phase
    case AwaitHello => AwaitEither(w, m, now, w.decode(frame));
    case SendingHello =>
    case Ready => ReadyEither(w, m, now, w.decode(frame), true);
  }

  /** A frame before the Hello reply is acted on alike wherever the read ends. */
  lemma AwaitEither(w: Wire, m: Machine, now: Instant, decoded: Decoded)
    requires m.phase.AwaitHello?
    ensures Act(w, m, now, decoded, true) == Act(w, m, now, decoded, false)
    ensures match Act(w, m, now, decoded, true)
            case Go(m') => SameFlags(m, m') && m'.phase.SendingHello?
            case Halt(n) => !Continues(n)
  {
    match decoded
    case Invalid =>
    case ValidNonRequest => RefusalEnds(w, m, now, InvalidRequest);
    case Valid(request) => if !request.Hello? { RefusalEnds(w, m, now, ExpectedHello); }
  }

  lemma ReadyEither(w: Wire, m: Machine, now: Instant, decoded: Decoded, last: bool)
    requires m.phase.Ready?
    ensures Act(w, m, now, decoded, last).Halt? && !Continues(Act(w, m, now, decoded, last).next)
  {
    RefusalEnds(w, m, now, InvalidRequest);
    RefusalEnds(w, m, now, DuplicateHello);
  }

  lemma ByteEither(w: Wire, m: Machine, now: Instant, b: Byte)
    requires m.phase in {AwaitHello, SendingHello, Ready}
    requires Continues(After(OnByte(w, m, now, b, true)))
    ensures SameEither(OnByte(w, m, now, b, true), OnByte(w, m, now, b, false))
    ensures SameFlags(m, OnByte(w, m, now, b, true).machine)
  {
    if b == LF && !(m.phase.SendingHello? && m.retained.Some?) {
      FrameEither(w, StartPartial(m, now).(input := [], partialDeadline := None), now, m.input + [b]);
    }
  }

  lemma FrameGoes(w: Wire, m: Machine, now: Instant, frame: Bytes)
    requires m.phase in {AwaitHello, SendingHello, Ready}
    ensures match OnFrame(w, m, now, frame, false)
            case Go(m') => SameFlags(m, m') && m'.phase in {AwaitHello, SendingHello, Ready}
            case Halt(n) => !Continues(n)
  {
    match m.phase
    case AwaitHello => AwaitEither(w, m, now, w.decode(frame));
    case SendingHello =>
    case Ready => ReadyEither(w, m, now, w.decode(frame), false);
  }

  lemma ByteGoes(w: Wire, m: Machine, now: Instant, b: Byte)
    requires m.phase in {AwaitHello, SendingHello, Ready}
    ensures match OnByte(w, m, now, b, false)
            case Go(m') => SameFlags(m, m') && m'.phase in {AwaitHello, SendingHello, Ready}
            case Halt(n) => !Continues(n)
  {
    if b == LF && !(m.phase.SendingHello? && m.retained.Some?) {
      FrameGoes(w, StartPartial(m, now).(input := [], partialDeadline := None), now, m.input + [b]);
    }
  }

  lemma {:induction false} FeedSplit(w: Wire, m: Machine, now: Instant, a: Bytes, b: Bytes)
    requires m.phase in {AwaitHello, SendingHello, Ready} && b != []
    requires Continues(Feed(w, m, now, a))
    ensures Feed(w, m, now, a + b) == Feed(w, Feed(w, m, now, a).machine, now, b)
    ensures SameFlags(m, Feed(w, m, now, a).machine)
    decreases |a|
  {
    if a == [] {
      assert a + b == b;
    } else {
      var m1 := OnByte(w, m, now, a[0], |a| == 1);
      assert (a + b)[0] == a[0] && (a + b)[1..] == a[1..] + b;
      if |a| == 1 {
        assert a[1..] == [] && a[1..] + b == b;
        assert m1.Go? ==> Feed(w, m, now, a) == Next(m1.machine, NoAction);
        ByteEither(w, m, now, a[0]);
      } else {
        ByteGoes(w, m, now, a[0]);
        FeedSplit(w, m1.machine, now, a[1..], b);
      }
    }
  }

  /** Input that arrives in two reads at one instant acts as if it had arrived in one. */
  lemma ChunkingIndependent(w: Wire, m: Machine, now: Instant, a: Bytes, b: Bytes)
    requires Continues(Ingest(w, m, now, a))
    ensures Ingest(w, Ingest(w, m, now, a).machine, now, b) == Ingest(w, m, now, a + b)
  {
    if a == [] {
      assert a + b == b;
    } else if b == [] {
      assert a + b == a;
    } else {
      FeedSplit(w, m, now, a, b);
    }
  }

  function IngestEach(w: Wire, m: Machine, now: Instant, chunks: seq<Bytes>): (r: Next) {
    if chunks == [] then Next(m, NoAction)
    else Ingest(w, IngestEach(w, m, now, chunks[..|chunks| - 1]).machine, now, chunks[|chunks| - 1])
  }

  /** So does input in any number of reads, as long as only the last one ends the conversation. */
  lemma {:induction false} AnyChunking(w: Wire, m: Machine, now: Instant, chunks: seq<Bytes>)
    requires forall k :: 0 <= k < |chunks| ==> Continues(IngestEach(w, m, now, chunks[..k]))
    ensures IngestEach(w, m, now, chunks) == Ingest(w, m, now, Concat(chunks))
  {
    if chunks != [] {
      var p := chunks[..|chunks| - 1];
      forall k | 0 <= k < |p| ensures Continues(IngestEach(w, m, now, p[..k])) {
        assert p[..k] == chunks[..k];
      }
      AnyChunking(w, m, now, p);
      ChunkingIndependent(w, m, now, Concat(p), chunks[|chunks| - 1]);
    }
  }
}
