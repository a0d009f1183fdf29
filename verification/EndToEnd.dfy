/** A connection and its client together: what one sends is what the other reads. */
module EndToEnd {
  import opened Optional
  import opened Frames
  import opened Protocol
  import opened ConnectionRuns
  import opened ConnectionStreams
  import opened ConnectionOutput
  import opened ConnectionTheorems
  import CM = ClientModel
  import CT = ClientTheorems

  predicate Fits(c: Option<Cursor>) { c.Some? ==> |c.value.bytes| <= MAX_FRAME_BYTES }

  predicate Bounded(m: Machine) { Fits(m.output) && Fits(m.latest) }

  lemma QueuedBounded(w: Wire, m: Machine, now: Instant, matches: bool, refusal: Refusal)
    requires Bounded(m)
    ensures Bounded(QueueHello(w, m, now, matches).machine) && Bounded(QueueRefusal(w, m, now, refusal))
  {
    HelloBounded(w, m, now, matches);
    RefusalBounded(w, m, now, refusal);
  }

  lemma HelloBounded(w: Wire, m: Machine, now: Instant, matches: bool)
    requires Bounded(m)
    ensures Bounded(QueueHello(w, m, now, matches).machine)
  {}

  lemma RefusalBounded(w: Wire, m: Machine, now: Instant, refusal: Refusal)
    requires Bounded(m)
    ensures Bounded(QueueRefusal(w, m, now, refusal))
  {}

  lemma AwaitBounded(w: Wire, m: Machine, now: Instant, decoded: Decoded, last: bool)
    requires Bounded(m) && m.phase.AwaitHello?
    ensures Bounded(After(Act(w, m, now, decoded, last)).machine)
  {
    match decoded
    case Invalid =>
    case ValidNonRequest => QueuedBounded(w, m, now, true, InvalidRequest);
    case Valid(request) =>
      if request.Hello? {
        QueuedBounded(w, m, now, request.version == PROTOCOL_VERSION, ExpectedHello);
      } else {
        QueuedBounded(w, m, now, true, ExpectedHello);
      }
  }

  lemma ReadyBounded(w: Wire, m: Machine, now: Instant, decoded: Decoded, last: bool)
    requires Bounded(m) && m.phase.Ready?
    ensures Bounded(After(Act(w, m, now, decoded, last)).machine)
  {
    match decoded
    case Invalid =>
    case ValidNonRequest => QueuedBounded(w, m, now, true, InvalidRequest);
    case Valid(request) => if request.Hello? { QueuedBounded(w, m, now, true, DuplicateHello); }
  }

  lemma ActBounded(w: Wire, m: Machine, now: Instant, decoded: Decoded, last: bool)
    requires Bounded(m)
    ensures Bounded(After(Act(w, m, now, decoded, last)).machine)
  {
    match m.phase
    case AwaitHello => AwaitBounded(w, m, now, decoded, last);
    case Ready => ReadyBounded(w, m, now, decoded, last);
    case _ =>
  }

  lemma OnByteBounded(w: Wire, m: Machine, now: Instant, b: Byte, last: bool)
    requires Bounded(m)
    ensures Bounded(After(OnByte(w, m, now, b, last)).machine)
  {
    var m1 := StartPartial(m, now);
    assert Bounded(m1);
    if b == LF && !(m.phase.SendingHello? && m.retained.Some?) {
      var m2 := m1.(input := [], partialDeadline := None);
      assert OnByte(w, m, now, b, last) == Act(w, m2, now, w.decode(m1.input + [b]), last);
      ActBounded(w, m2, now, w.decode(m1.input + [b]), last);
    }
  }

  lemma {:induction false} FeedBounded(w: Wire, m: Machine, now: Instant, bytes: Bytes)
    requires Bounded(m)
    ensures Bounded(Feed(w, m, now, bytes).machine)
    decreases |bytes|
  {
    if bytes != [] {
      OnByteBounded(w, m, now, bytes[0], |bytes| == 1);
      match OnByte(w, m, now, bytes[0], |bytes| == 1)
      case Halt(_) =>
      case Go(m') => FeedBounded(w, m', now, bytes[1..]);
    }
  }

  /** Nothing longer than a frame is ever queued. */
  lemma StepBounded(w: Wire, m: Machine, now: Instant, e: Event)
    requires WellFormed(m) && Bounded(m) && Allowed(m, e)
    ensures Bounded(Step(w, m, now, e).machine)
  {
    match e
    case Read(bytes) => FeedBounded(w, m, now, bytes);
    case Sent(count) => AdvanceBounded(w, m, now, count);
    case StartShutdown => assert Bounded(BeginShutdown(w, m, now).machine);
    case _ =>
  }

  lemma AdvanceBounded(w: Wire, m: Machine, now: Instant, count: nat)
    requires WellFormed(m) && Bounded(m) && count <= |Remaining(m)|
    ensures Bounded(AdvanceOutput(w, m, now, count).machine)
  {
    if m.output.Some? && m.retained.Some? && m.retained.value.Refused? {
      QueuedBounded(w, Emptied(m).(phase := Ready, retained := None), now, false, m.retained.value.refusal);
    }
  }

  /** Every frame sent fits, and so does the one being sent. */
  predicate SentFits(fs: seq<Bytes>, partial: Bytes) {
    (forall i :: 0 <= i < |fs| ==> |fs[i]| <= MAX_FRAME_BYTES) && |partial| < MAX_FRAME_BYTES
  }

  lemma SentStep(w: Wire, log: Log, m: Machine, now: Instant, e: Event)
    requires WellFormed(m) && Bounded(m) && OutputInv(w, log, m) && Allowed(m, e)
    requires SentFits(Complete(log.sent), Partial(log.sent))
    ensures var sent := Observe(w, log, m, now, e).sent; SentFits(Complete(sent), Partial(sent))
  {
    if e.Sent? {
      if m.output.Some? {
        SentSplit(log.sent, m.output.value, e.count);
      } else {
        assert log.sent + [] == log.sent;
      }
    }
  }

  lemma {:induction false} RunFits(w: Wire, start: Instant, es: seq<Stimulus>)
    requires LegalRun(w, start, es)
    ensures Bounded(Run(w, start, es).machine)
    ensures var sent := Run(w, start, es).log.sent; SentFits(Complete(sent), Partial(sent))
  {
    if es != [] {
      var p, s := es[..|es| - 1], es[|es| - 1];
      RunFits(w, start, p);
      RunKeeps(w, start, p);
      var c := Run(w, start, p);
      StepBounded(w, c.machine, s.now, s.event);
      SentStep(w, c.log, c.machine, s.now, s.event);
    }
  }

  /** A client that has received any part of what a connection sent, in any chunks, has read a prefix
      of the connection's frames, is never told that one is too large, and has lost nothing. */
  lemma ClientReadsWhatWasSent(w: Wire, start: Instant, es: seq<Stimulus>, cs: seq<CT.Call>, c: CT.Call)
    requires LegalRun(w, start, es) && CT.Calls(cs + [c]).received <= Run(w, start, es).log.sent
    ensures CT.Calls(cs + [c]).frames <= Complete(Run(w, start, es).log.sent)
    ensures CM.Read(CT.Calls(cs).reader, c.bound, c.script).outcome != CM.Failed(CM.TooLarge)
    ensures CT.Calls(cs + [c]).received == Run(w, start, es).log.sent ==>
              Complete(Run(w, start, es).log.sent) ==
                CT.Calls(cs + [c]).frames + Complete(CT.Calls(cs + [c]).reader.input)
  {
    RunFits(w, start, es);
    CT.FramesReturned(cs + [c]);
    CT.TooLargeIff(cs, c);
    CutSent(Run(w, start, es).log.sent, CT.Calls(cs + [c]).received);
  }

  /** A prefix of a stream of fitting frames. */
  lemma CutSent(sent: Bytes, got: Bytes)
    requires SentFits(Complete(sent), Partial(sent)) && got <= sent
    ensures Complete(got) <= Complete(sent) && |Partial(got)| < MAX_FRAME_BYTES
  {
    SplitGrows(got, sent[|got|..]);
    assert sent == got + sent[|got|..];
    var fs := Finished(sent);
    CT.CutStream(fs, got);
  }

  /** The stream with its last frame ended. */
  lemma Finished(sent: Bytes) returns (fs: seq<Bytes>)
    ensures AllFrames(fs) && Concat(fs) == sent + [LF] && fs == Complete(sent) + [Partial(sent) + [LF]]
  {
    SplitWhole(sent);
    var f := Partial(sent) + [LF];
    assert f[..|f| - 1] == Partial(sent);
    fs := Complete(sent) + [f];
    ConcatPush(Complete(sent), f);
    AppendLast(Concat(Complete(sent)), Partial(sent), LF);
  }

  /** The requests a connection hands over are, in order, what the client's frames after the Hello decode to. */
  lemma RequestsArrive(w: Wire, start: Instant, es: seq<Stimulus>, fs: seq<Bytes>)
    requires LegalRun(w, start, es) && CT.Encoded(fs) && Run(w, start, es).log.received <= Concat(fs)
    ensures var emitted := Run(w, start, es).log.emitted;
            emitted != [] ==>
              |emitted| < |fs| && forall i :: 0 <= i < |emitted| ==> w.decode(fs[i + 1]) == Valid(emitted[i])
  {
    RequestsInOrder(w, start, es);
    CT.EncodedFrames(fs);
    CT.CutStream(fs, Run(w, start, es).log.received);
  }
}
