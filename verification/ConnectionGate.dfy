/** What the server's gate on reading is for: the automaton alone would overwrite a frame it has started. */
module ConnectionGate {
  import opened Optional
  import opened Frames
  import opened Protocol
  import opened ConnectionRuns
  import opened ConnectionStreams
  import opened ConnectionEffects

  /** The machine goes on with another frame than the one in flight. */
  predicate Overwritten(m: Machine, m': Machine) { m'.output.Some? && m'.output != m.output }

  /** A ready connection in the middle of a reply, which the gate would not let read. */
  predicate MidReply(m: Machine) {
    WellFormed(m) && m.phase.Ready? && m.output.Some? && m.output.value.offset > 0 && !m.readHalfClosed
  }

  lemma ActMidReply(w: Wire, m: Machine, now: Instant, decoded: Decoded, last: bool)
    requires w.Fits() && m.phase.Ready? && m.output.Some? && m.output.value.offset > 0
    ensures Act(w, m, now, decoded, last).Halt?
    ensures Overwritten(m, Act(w, m, now, decoded, last).next.machine) <==>
            decoded.ValidNonRequest? || (decoded.Valid? && decoded.request.Hello?)
  {
    match decoded
    case Invalid =>
    case ValidNonRequest =>
    case Valid(request) =>
  }

  /** A first frame too long to be buffered closes the connection. */
  lemma TooLongCloses(w: Wire, m: Machine, now: Instant, text: Bytes, rest: Bytes)
    requires m.phase.Ready? && m.input == [] && LF !in text && |text| >= MAX_FRAME_BYTES
    ensures Feed(w, m, now, text + rest).machine.phase.Closing? && Feed(w, m, now, text + rest).machine.output.None?
  {
    var k := MAX_FRAME_BYTES - 1;
    var a, b := text[..k], text[k..] + rest;
    assert text + rest == a + b && text[k] in text;
    FeedText(w, m, now, a, b);
    assert m.input + a == a && b[0] == text[k];
  }

  /** Without the gate a frame already started is replaced, and its beginning stays on the wire: exactly
      when the first frame of the read fits and decodes to no request or to another Hello. */
  lemma UngatedReadOverwrites(w: Wire, m: Machine, now: Instant, text: Text, rest: Bytes)
    requires w.Fits() && MidReply(m)
    ensures Overwritten(m, Ingest(w, m, now, text + [LF] + rest).machine) <==>
            var decoded := w.decode(text + [LF]);
            |text| < MAX_FRAME_BYTES && (decoded.ValidNonRequest? || (decoded.Valid? && decoded.request.Hello?))
  {
    if |text| < MAX_FRAME_BYTES {
      FrameRead(w, m, now, text, rest);
      assert m.input + text == text;
      ActMidReply(w, Cleared(m), now, w.decode(text + [LF]), rest == []);
    } else {
      TooLongCloses(w, m, now, text, [LF] + rest);
      assert text + [LF] + rest == text + ([LF] + rest);
    }
  }

  /** A read that holds no complete frame never overwrites. */
  lemma UngatedTextIsSafe(w: Wire, m: Machine, now: Instant, text: Text)
    requires MidReply(m)
    ensures !Overwritten(m, Ingest(w, m, now, text).machine)
  {
    if text != [] {
      var k := |text| - 1;
      if |text| <= MAX_FRAME_BYTES {
        assert text[k] in text && LF !in text[..k];
        FeedText(w, m, now, text[..k], [text[k]]);
        assert text[..k] + [text[k]] == text;
      } else {
        TooLongCloses(w, m, now, text, []);
        assert text + [] == text;
      }
    }
  }

  // ---- an instance that a run reaches -----------------------------------------------------------

  /** A connection whose Hello reply is out. */
  function Greeted(start: Instant): (m: Machine) { New(start).(phase := Ready) }

  /** That connection while the reply `frame` is in flight. */
  function Replying(start: Instant, now: Instant, frame: Bytes, offset: nat): (m: Machine) {
    Greeted(start).(output := Some(Cursor(frame, offset, Ordinary)), outputDeadline := Some(now + OUTPUT_TIMEOUT))
  }

  function Greeting(w: Wire, start: Instant, now: Instant): (m: Machine) {
    New(start).(phase := SendingHello, output := Some(Cursor(FrameOf(w.hello), 0, HelloReply)),
                outputDeadline := Some(now + OUTPUT_TIMEOUT))
  }

  lemma HelloStep(w: Wire, start: Instant, now: Instant, hello: Text)
    requires w.Fits() && |hello| < MAX_FRAME_BYTES && IsHello(w, hello + [LF])
    ensures Ingest(w, New(start), now, hello + [LF]).machine == Greeting(w, start, now)
  {
    OneFrame(w, New(start), now, hello);
    assert New(start).input + hello == hello;
  }

  lemma HelloSentStep(w: Wire, start: Instant, now: Instant)
    requires w.Fits()
    ensures |FrameOf(w.hello)| <= |Remaining(Greeting(w, start, now))|
    ensures AdvanceOutput(w, Greeting(w, start, now), now, |FrameOf(w.hello)|).machine == Greeted(start)
  {}

  lemma CommandStep(w: Wire, start: Instant, now: Instant, command: Text)
    requires |command| < MAX_FRAME_BYTES && w.decode(command + [LF]).Valid? && w.decode(command + [LF]).request.Command?
    ensures Ingest(w, Greeted(start), now, command + [LF]).machine == Greeted(start).(requestPending := true)
  {
    OneFrame(w, Greeted(start), now, command);
    assert Greeted(start).input + command == command;
  }

  lemma RespondStep(start: Instant, now: Instant, response: Text)
    requires |response| < MAX_FRAME_BYTES
    ensures CompleteRequest(Greeted(start).(requestPending := true), now, response).machine ==
            Replying(start, now, FrameOf(response), 0)
  {}

  lemma FirstByteStep(w: Wire, start: Instant, now: Instant, frame: Bytes)
    requires |frame| > 1
    ensures 1 <= |Remaining(Replying(start, now, frame, 0))|
    ensures AdvanceOutput(w, Replying(start, now, frame, 0), now, 1).machine == Replying(start, now, frame, 1)
  {}

  lemma RunNext(w: Wire, start: Instant, es: seq<Stimulus>, s: Stimulus)
    requires LegalRun(w, start, es) && Allowed(Run(w, start, es).machine, s.event)
    ensures LegalRun(w, start, es + [s])
    ensures Run(w, start, es + [s]).machine == Step(w, Run(w, start, es).machine, s.now, s.event).machine
  {
    assert (es + [s])[..|es|] == es;
  }

  function Greets(w: Wire, now: Instant, hello: Text): (es: seq<Stimulus>) {
    [] + [At(now, Read(hello + [LF]))] + [At(now, Sent(|FrameOf(w.hello)|))]
  }

  lemma GreetsRun(w: Wire, start: Instant, now: Instant, hello: Text)
    requires w.Fits() && |hello| < MAX_FRAME_BYTES && IsHello(w, hello + [LF])
    ensures LegalRun(w, start, Greets(w, now, hello)) && Run(w, start, Greets(w, now, hello)).machine == Greeted(start)
  {
    RunNext(w, start, [], At(now, Read(hello + [LF])));
    HelloStep(w, start, now, hello);
    HelloSentStep(w, start, now);
    RunNext(w, start, [] + [At(now, Read(hello + [LF]))], At(now, Sent(|FrameOf(w.hello)|)));
  }

  function Replies(now: Instant, es: seq<Stimulus>, command: Text, response: Text): (r: seq<Stimulus>) {
    es + [At(now, Read(command + [LF]))] + [At(now, Respond(response))] + [At(now, Sent(1))]
  }

  lemma RepliesRun(w: Wire, start: Instant, now: Instant, es: seq<Stimulus>, command: Text, response: Text)
    requires LegalRun(w, start, es) && Run(w, start, es).machine == Greeted(start)
    requires |command| < MAX_FRAME_BYTES && w.decode(command + [LF]).Valid? && w.decode(command + [LF]).request.Command?
    requires 0 < |response| < MAX_FRAME_BYTES
    ensures LegalRun(w, start, Replies(now, es, command, response))
    ensures Run(w, start, Replies(now, es, command, response)).machine == Replying(start, now, FrameOf(response), 1)
  {
    CommandStep(w, start, now, command);
    RunNext(w, start, es, At(now, Read(command + [LF])));
    RespondStep(start, now, response);
    RunNext(w, start, es + [At(now, Read(command + [LF]))], At(now, Respond(response)));
    FirstByteStep(w, start, now, FrameOf(response));
    RunNext(w, start, es + [At(now, Read(command + [LF]))] + [At(now, Respond(response))], At(now, Sent(1)));
  }

  lemma ReplyOverwritten(w: Wire, start: Instant, now: Instant, frame: Bytes, hello: Text)
    requires w.Fits() && IsFrame(frame) && |frame| > 1 && |hello| < MAX_FRAME_BYTES && IsHello(w, hello + [LF])
    ensures var m := Replying(start, now, frame, 1);
            MidReply(m) && !InputEnabled(m) && Overwritten(m, Ingest(w, m, now, hello + [LF]).machine)
  {
    UngatedReadOverwrites(w, Replying(start, now, frame, 1), now, hello, []);
    assert hello + [LF] + [] == hello + [LF];
  }

  /** It does happen: a client greets, asks, and while the first byte of the answer is out sends its
      Hello again. The run up to there is one the gate permits; the read is the one it forbids. */
  lemma OverwriteHappens(w: Wire, start: Instant, now: Instant, hello: Text, command: Text, response: Text)
    requires w.Fits() && |hello| < MAX_FRAME_BYTES && IsHello(w, hello + [LF])
    requires |command| < MAX_FRAME_BYTES && w.decode(command + [LF]).Valid? && w.decode(command + [LF]).request.Command?
    requires 0 < |response| < MAX_FRAME_BYTES
    ensures var es := Replies(now, Greets(w, now, hello), command, response);
            var m := Run(w, start, es).machine;
            && LegalRun(w, start, es) && MidReply(m) && !InputEnabled(m)
            && Overwritten(m, Ingest(w, m, now, hello + [LF]).machine)
  {
    GreetsRun(w, start, now, hello);
    RepliesRun(w, start, now, Greets(w, now, hello), command, response);
    ReplyOverwritten(w, start, now, FrameOf(response), hello);
  }
}
