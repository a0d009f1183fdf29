/** The connection automaton as an object updated in place. Each method is proved to perform
    the operation of the same name in `Protocol` on the object's whole state. */
module Connection {
  import opened Optional
  import opened Frames
  import opened Protocol

  datatype InputStep = PartialFrame | WholeFrame(frame: Bytes) | TooLarge

  class ConnectionMachine {
    const wire: Wire
    var phase: Phase
    var input: Bytes
    var output: Option<Cursor>
    var latest: Option<Cursor>
    var retained: Option<Retained>
    var requestPending: bool
    var pendingSubscribe: bool
    var readHalfClosed: bool
    var shuttingDown: bool
    var helloDeadline: Instant
    var partialDeadline: Option<Instant>
    var outputDeadline: Option<Instant>
    var closeDeadline: Option<Instant>
    var shutdownDeadline: Option<Instant>

    ghost function View(): (m: Machine)
      reads this
    {
      Machine(phase, input, output, latest, retained, requestPending, pendingSubscribe, readHalfClosed,
              shuttingDown, helloDeadline, partialDeadline, outputDeadline, closeDeadline, shutdownDeadline)
    }

    constructor (wire: Wire, now: Instant)
      ensures this.wire == wire
      ensures View() == New(now)
    {
      this.wire := wire;
      phase, input, output, latest, retained := AwaitHello, [], None, None, None;
      requestPending, pendingSubscribe, readHalfClosed, shuttingDown := false, false, false, false;
      helloDeadline := now + HELLO_TIMEOUT;
      partialDeadline, outputDeadline, closeDeadline, shutdownDeadline := None, None, None, None;
    }

    method Enabled() returns (r: bool)
      ensures r == InputEnabled(View())
    {
      if readHalfClosed {
        return false;
      }
      match phase {
        case AwaitHello => r := !shuttingDown;
        case Ready => r := !shuttingDown && !requestPending && output.None?;
        case Subscriber => r := true;
        case _ => r := false;
      }
    }

    method EarliestDeadline() returns (deadline: Option<Instant>)
      ensures deadline == NextDeadline(View())
    {
      if phase == Closing {
        return None;
      }
      deadline := shutdownDeadline;
      var hello := if phase == AwaitHello then Some(helloDeadline) else None;
      var candidates := [hello, partialDeadline, outputDeadline, closeDeadline];
      ghost var running := [shutdownDeadline, Min(shutdownDeadline, hello),
                            Min(Min(shutdownDeadline, hello), partialDeadline),
                            Min(Min(Min(shutdownDeadline, hello), partialDeadline), outputDeadline),
                            NextDeadline(View())];
      for i := 0 to |candidates|
        invariant deadline == running[i]
      {
        match candidates[i] {
          case None =>
          case Some(candidate) =>
            deadline := if deadline.None? || candidate < deadline.value then Some(candidate) else deadline;
        }
      }
    }

    method ExpireAt(now: Instant) returns (action: Action)
      modifies this
      ensures Next(View(), action) == Expire(old(View()), now)
    {
      var deadline := EarliestDeadline();
      if deadline.Some? && now >= deadline.value {
        action := Stop(Deadline);
      } else {
        action := NoAction;
      }
    }

    method Push(b: Byte) returns (step: InputStep)
      modifies this`input
      ensures b == LF ==> step == WholeFrame(old(input) + [b]) && input == []
      ensures b != LF ==> input == old(input) + [b]
      ensures b != LF ==> step == if |input| == MAX_FRAME_BYTES then TooLarge else PartialFrame
    {
      input := input + [b];
      if b == LF {
        step := WholeFrame(input);
        input := [];
        return;
      }
      step := if |input| == MAX_FRAME_BYTES then TooLarge else PartialFrame;
    }

    /** Acts on one complete frame; `go` says whether the ingest loop continues. */
    method TakeFrame(now: Instant, frame: Bytes, last: bool) returns (go: bool, action: Action)
      requires phase in {AwaitHello, SendingHello, Ready}
      modifies this
      ensures (if go then Go(View()) else Halt(Next(View(), action))) == OnFrame(wire, old(View()), now, frame, last)
      ensures go ==> action == NoAction
    {
      var decoded := wire.decode(frame);
      if decoded == Invalid {
        action := Stop(InvalidInput);
        return false, action;
      }
      go, action := false, NoAction;
      match phase {
        case AwaitHello =>
          match decoded {
            case Valid(Hello(version, _)) =>
              action := SendHello(now, version == PROTOCOL_VERSION);
              go := action == NoAction && version == PROTOCOL_VERSION;
            case Valid(_) => Refuse(now, ExpectedHello);
            case ValidNonRequest => Refuse(now, InvalidRequest);
          }
        case SendingHello =>
          match decoded {
            case Valid(Hello(_, _)) => retained := Some(Refused(DuplicateHello));
            case Valid(request) => retained := Some(Pipelined(request));
            case ValidNonRequest => retained := Some(Refused(InvalidRequest));
          }
          if last {
            go := true;
          } else {
            action := Stop(ExcessPipeline);
          }
        case Ready =>
          match decoded {
            case Valid(Hello(_, _)) => Refuse(now, DuplicateHello);
            case Valid(request) =>
              requestPending := true;
              pendingSubscribe := request == Subscribe;
              action := Emit(request);
              if !last {
                action := Stop(ExcessPipeline);
              }
            case ValidNonRequest => Refuse(now, InvalidRequest);
          }
      }
    }

    /** One turn of the ingest loop. */
    method TakeByte(now: Instant, b: Byte, last: bool) returns (go: bool, action: Action)
      requires phase in {AwaitHello, SendingHello, Ready}
      modifies this
      ensures (if go then Go(View()) else Halt(Next(View(), action))) == OnByte(wire, old(View()), now, b, last)
      ensures go ==> action == NoAction && phase in {AwaitHello, SendingHello, Ready}
    {
      if phase == SendingHello && retained.Some? {
        action := Stop(ExcessPipeline);
        return false, action;
      }
      if input == [] && (phase == Ready || phase == SendingHello) && partialDeadline.None? {
        partialDeadline := Some(now + FRAME_TIMEOUT);
      }
      var step := Push(b);
      match step {
        case PartialFrame =>
          go, action := true, NoAction;
        case TooLarge =>
          action := Stop(FrameTooLarge);
          go := false;
        case WholeFrame(frame) =>
          partialDeadline := None;
          go, action := TakeFrame(now, frame, last);
      }
    }

    method Receive(now: Instant, bytes: Bytes) returns (action: Action)
      modifies this
      ensures Next(View(), action) == Ingest(wire, old(View()), now, bytes)
    {
      if bytes == [] {
        return NoAction;
      }
      if phase == Subscriber {
        action := Stop(SubscriberInput);
        return;
      }
      if phase !in {AwaitHello, SendingHello, Ready} || requestPending || readHalfClosed || shuttingDown {
        action := Stop(ExcessPipeline);
        return;
      }
      for i := 0 to |bytes|
        invariant phase in {AwaitHello, SendingHello, Ready}
        invariant Feed(wire, View(), now, bytes[i..]) == Feed(wire, old(View()), now, bytes)
      {
        assert bytes[i..][0] == bytes[i] && bytes[i..][1..] == bytes[i + 1..];
        var go;
        go, action := TakeByte(now, bytes[i], i + 1 == |bytes|);
        if !go {
          return;
        }
      }
      action := NoAction;
    }

    method Eof() returns (action: Action)
      modifies this
      ensures Next(View(), action) == ReadEof(old(View()))
    {
      if readHalfClosed {
        return NoAction;
      }
      if input != [] {
        action := Stop(PeerClosed);
        return;
      }
      readHalfClosed := true;
      action := NoAction;
      match phase {
        case AwaitHello => action := Stop(PeerClosed);
        case Ready =>
          if !requestPending && output.None? {
            action := Stop(PeerClosed);
          }
        case _ =>
      }
    }

    method Advance(now: Instant, count: nat) returns (action: Action)
      requires output.Some? ==> output.value.offset + count <= |output.value.bytes|
      modifies this
      ensures Next(View(), action) == AdvanceOutput(wire, old(View()), now, count)
    {
      if output.None? {
        return NoAction;
      }
      var cursor := output.value;
      if count > 0 && phase != CloseAfterReply && !shuttingDown {
        outputDeadline := Some(now + OUTPUT_TIMEOUT);
      }
      output := Some(cursor.(offset := cursor.offset + count));
      if output.value.offset != |cursor.bytes| {
        return NoAction;
      }
      output, outputDeadline := None, None;
      match cursor.kind {
        case HelloReply =>
          if phase == CloseAfterReply {
            action := Stop(OutputComplete);
          } else {
            action := HelloSent(now);
          }
        case Ordinary =>
          if readHalfClosed {
            action := Stop(PeerClosed);
          } else {
            action := NoAction;
          }
        case InitialState => action := SubscriberFrameSent(now);
        case State => action := SubscriberFrameSent(now);
        case Shutdown => action := Stop(ShutdownDone);
        case Terminal => action := Stop(OutputComplete);
      }
    }

    method HelloSent(now: Instant) returns (action: Action)
      modifies this
      ensures Next(View(), action) == FinishHello(wire, old(View()), now)
    {
      phase := Ready;
      var kept := retained;
      retained := None;
      match kept {
        case Some(Pipelined(request)) =>
          requestPending := true;
          pendingSubscribe := request == Subscribe;
          action := Emit(request);
        case Some(Refused(refusal)) =>
          Refuse(now, refusal);
          action := NoAction;
        case None =>
          if readHalfClosed {
            action := Stop(PeerClosed);
          } else {
            action := NoAction;
          }
      }
    }

    method SubscriberFrameSent(now: Instant) returns (action: Action)
      modifies this
      ensures Next(View(), action) == FinishSubscriberOutput(old(View()), now)
    {
      if latest.Some? {
        output := latest;
        latest := None;
        outputDeadline := Some(now + OUTPUT_TIMEOUT);
        return NoAction;
      }
      if shuttingDown {
        action := Stop(ShutdownDone);
      } else {
        action := NoAction;
      }
    }

    method Respond(now: Instant, response: Text) returns (action: Action)
      modifies this
      ensures Next(View(), action) == CompleteRequest(old(View()), now, response)
    {
      if shuttingDown || !requestPending || pendingSubscribe {
        return NoAction;
      }
      var frame := Encode(response);
      if frame.None? {
        return OutboundFrameTooLarge;
      }
      requestPending := false;
      Queue(now, frame.value, Ordinary);
      action := NoAction;
    }

    method AcceptSubscriber(now: Instant, state: Text) returns (action: Action)
      modifies this
      ensures Next(View(), action) == CompleteSubscribe(old(View()), now, state)
    {
      if shuttingDown || !requestPending || !pendingSubscribe {
        return NoAction;
      }
      var frame := Encode(state);
      if frame.None? {
        return OutboundFrameTooLarge;
      }
      requestPending, pendingSubscribe := false, false;
      phase := Subscriber;
      Queue(now, frame.value, InitialState);
      action := NoAction;
    }

    method Publish(now: Instant, frame: Bytes) returns (action: Action)
      modifies this
      ensures Next(View(), action) == PublishState(old(View()), now, frame)
    {
      if phase != Subscriber || shuttingDown {
        return NoAction;
      }
      if |frame| > MAX_FRAME_BYTES || frame == [] || frame[|frame| - 1] != LF {
        action := Stop(FrameTooLarge);
        return;
      }
      var queued := Cursor(frame, 0, State);
      if output.Some? {
        latest := Some(queued);
      } else {
        output := Some(queued);
        outputDeadline := Some(now + OUTPUT_TIMEOUT);
      }
      action := NoAction;
    }

    method StartShutdown(now: Instant) returns (action: Action)
      modifies this
      ensures Next(View(), action) == BeginShutdown(wire, old(View()), now)
    {
      if shutdownDeadline.Some? || phase == Closing {
        return NoAction;
      }
      if phase != Subscriber {
        action := Stop(ShutdownDone);
        return;
      }
      shuttingDown := true;
      shutdownDeadline := Some(now + TERMINAL_TIMEOUT);
      latest := None;
      var frame := Encode(wire.shutdown);
      if frame.None? {
        action := Stop(FrameTooLarge);
        return;
      }
      var event := Some(Cursor(frame.value, 0, Shutdown));
      match output {
        case None => output := event;
        case Some(Cursor(_, offset, kind)) =>
          if kind == InitialState && offset == 0 {
            latest := event;
          } else if kind in {InitialState, State} && offset != 0 {
          } else if kind == Shutdown {
          } else {
            output := event;
          }
      }
      action := NoAction;
    }

    method SendHello(now: Instant, matches: bool) returns (action: Action)
      modifies this
      ensures Next(View(), action) == QueueHello(wire, old(View()), now, matches)
    {
      var frame := Encode(wire.hello);
      if frame.None? {
        action := Stop(FrameTooLarge);
        return;
      }
      output := Some(Cursor(frame.value, 0, HelloReply));
      if matches {
        phase := SendingHello;
        outputDeadline := Some(now + OUTPUT_TIMEOUT);
      } else {
        phase := CloseAfterReply;
        closeDeadline := Some(now + TERMINAL_TIMEOUT);
      }
      action := NoAction;
    }

    method Refuse(now: Instant, refusal: Refusal)
      modifies this
      ensures View() == QueueRefusal(wire, old(View()), now, refusal)
    {
      var frame := Encode(wire.refusal(refusal));
      if frame.None? {
        var _ := Stop(FrameTooLarge);
        return;
      }
      input := [];
      output := Some(Cursor(frame.value, 0, Terminal));
      phase := CloseAfterReply;
      partialDeadline, outputDeadline := None, None;
      closeDeadline := Some(now + TERMINAL_TIMEOUT);
    }

    method Queue(now: Instant, frame: Bytes, kind: OutputClass)
      modifies this
      ensures View() == SetCurrent(old(View()), now, frame, kind)
    {
      output := Some(Cursor(frame, 0, kind));
      outputDeadline := Some(now + OUTPUT_TIMEOUT);
    }

    method ClearDeadlines()
      modifies this
      ensures View() == old(View()).(partialDeadline := None, outputDeadline := None, closeDeadline := None, shutdownDeadline := None)
    {
      partialDeadline, outputDeadline, closeDeadline, shutdownDeadline := None, None, None, None;
    }

    method Stop(reason: CloseReason) returns (action: Action)
      modifies this
      ensures Next(View(), action) == CloseWith(old(View()), reason)
    {
      phase := Closing;
      input, output, latest, retained := [], None, None, None;
      requestPending, pendingSubscribe := false, false;
      ClearDeadlines();
      action := Close(reason);
    }
  }
}
