/** The connection automaton as a value: its states and what every operation computes.
    `Connection.ConnectionMachine` performs these operations in place. */
module Protocol {
  import opened Optional
  import opened Frames

  /** Milliseconds on the monotonic clock. */
  type Instant = nat

  const HELLO_TIMEOUT: nat := 1000
  const FRAME_TIMEOUT: nat := 2000
  const OUTPUT_TIMEOUT: nat := 2000
  const TERMINAL_TIMEOUT: nat := 100
  const PROTOCOL_VERSION: nat := 2

  datatype Request = Hello(version: nat, client: string) | Subscribe | Command(body: Text)

  datatype Decoded = Valid(request: Request) | ValidNonRequest | Invalid

  datatype Refusal = ExpectedHello | InvalidRequest | DuplicateHello

  /** What the codec contributes: the frame decoder and the documents the server itself sends. */
  datatype Wire = Wire(decode: Bytes -> Decoded, hello: Text, refusal: Refusal -> Text, shutdown: Text) {

    /** The Hello reply, the fixed refusals and the shutdown event each fit in one frame. */
    predicate Fits() {
      && |hello| < MAX_FRAME_BYTES
      && |shutdown| < MAX_FRAME_BYTES
      && forall r: Refusal :: |refusal(r)| < MAX_FRAME_BYTES
    }
  }

  datatype Phase = AwaitHello | SendingHello | Ready | Subscriber | CloseAfterReply | Closing

  datatype CloseReason =
    | InvalidInput | FrameTooLarge | ExcessPipeline | PeerClosed
    | Deadline | OutputComplete | SubscriberInput | ShutdownDone

  datatype Action = NoAction | Emit(request: Request) | OutboundFrameTooLarge | Close(reason: CloseReason)

  datatype OutputClass = HelloReply | Ordinary | InitialState | State | Shutdown | Terminal

  datatype Cursor = Cursor(bytes: Bytes, offset: nat, kind: OutputClass) {
    predicate WellFormed() { IsFrame(bytes) && offset < |bytes| }
  }

  datatype Retained = Pipelined(request: Request) | Refused(refusal: Refusal)

  datatype Machine = Machine(
    phase: Phase,
    input: Bytes,
    output: Option<Cursor>,
    latest: Option<Cursor>,
    retained: Option<Retained>,
    requestPending: bool,
    pendingSubscribe: bool,
    readHalfClosed: bool,
    shuttingDown: bool,
    helloDeadline: Instant,
    partialDeadline: Option<Instant>,
    outputDeadline: Option<Instant>,
    closeDeadline: Option<Instant>,
    shutdownDeadline: Option<Instant>)

  /** The machine an operation leaves and the action it returns. */
  datatype Next = Next(machine: Machine, action: Action)

  function New(now: Instant): (m: Machine) {
    Machine(AwaitHello, [], None, None, None, false, false, false, false,
            now + HELLO_TIMEOUT, None, None, None, None)
  }

  predicate InputEnabled(m: Machine) {
    !m.readHalfClosed &&
    match m.phase
    case AwaitHello => !m.shuttingDown
    case Ready => !m.shuttingDown && !m.requestPending && m.output.None?
    case Subscriber => true
    case _ => false
  }

  function Min(a: Option<Instant>, b: Option<Instant>): (r: Option<Instant>) {
    match (a, b)
    case (None, _) => b
    case (_, None) => a
    case (Some(x), Some(y)) => if y < x then b else a
  }

  function NextDeadline(m: Machine): (r: Option<Instant>) {
    if m.phase.Closing? then None
    else
      var hello := if m.phase.AwaitHello? then Some(m.helloDeadline) else None;
      Min(Min(Min(Min(m.shutdownDeadline, hello), m.partialDeadline), m.outputDeadline), m.closeDeadline)
  }

  function Shut(m: Machine): (r: Machine) {
    m.(phase := Closing, input := [], output := None, latest := None, retained := None,
       requestPending := false, pendingSubscribe := false, partialDeadline := None,
       outputDeadline := None, closeDeadline := None, shutdownDeadline := None)
  }

  function CloseWith(m: Machine, reason: CloseReason): (r: Next) {
    Next(Shut(m), Close(reason))
  }

  function Expire(m: Machine, now: Instant): (r: Next) {
    var d := NextDeadline(m);
    if d.Some? && now >= d.value then CloseWith(m, Deadline) else Next(m, NoAction)
  }

  function QueueHello(w: Wire, m: Machine, now: Instant, matches: bool): (r: Next) {
    var frame := Encode(w.hello);
    if frame.None? then CloseWith(m, FrameTooLarge)
    else
      var queued := m.(output := Some(Cursor(frame.value, 0, HelloReply)));
      Next(if matches
           then queued.(phase := SendingHello, outputDeadline := Some(now + OUTPUT_TIMEOUT))
           else queued.(phase := CloseAfterReply, closeDeadline := Some(now + TERMINAL_TIMEOUT)),
           NoAction)
  }

  /** When the refusal does not fit the machine closes, but no caller learns of it. */
  function QueueRefusal(w: Wire, m: Machine, now: Instant, refusal: Refusal): (r: Machine) {
    var frame := Encode(w.refusal(refusal));
    if frame.None? then Shut(m)
    else
      m.(phase := CloseAfterReply, input := [], output := Some(Cursor(frame.value, 0, Terminal)),
         partialDeadline := None, outputDeadline := None, closeDeadline := Some(now + TERMINAL_TIMEOUT))
  }

  // ---- input --------------------------------------------------------------

  /** One byte either lets the loop go on or ends the call. */
  datatype Fed = Go(machine: Machine) | Halt(next: Next)

  function OnFrame(w: Wire, m: Machine, now: Instant, frame: Bytes, last: bool): (r: Fed) {
    Act(w, m, now, w.decode(frame), last)
  }

  function Act(w: Wire, m: Machine, now: Instant, decoded: Decoded, last: bool): (r: Fed) {
    if decoded.Invalid? && m.phase in {AwaitHello, SendingHello, Ready} then Halt(CloseWith(m, InvalidInput))
    else match m.phase
      case AwaitHello =>
        if decoded.ValidNonRequest? then Halt(Next(QueueRefusal(w, m, now, InvalidRequest), NoAction))
        else if !decoded.request.Hello? then Halt(Next(QueueRefusal(w, m, now, ExpectedHello), NoAction))
        else
          var n := QueueHello(w, m, now, decoded.request.version == PROTOCOL_VERSION);
          if n.action.NoAction? && decoded.request.version == PROTOCOL_VERSION then Go(n.machine) else Halt(n)
      case SendingHello =>
        var kept :=
          if decoded.ValidNonRequest? then Refused(InvalidRequest)
          else if decoded.request.Hello? then Refused(DuplicateHello)
          else Pipelined(decoded.request);
        var m' := m.(retained := Some(kept));
        if last then Go(m') else Halt(CloseWith(m', ExcessPipeline))
      case Ready =>
        if decoded.ValidNonRequest? then Halt(Next(QueueRefusal(w, m, now, InvalidRequest), NoAction))
        else if decoded.request.Hello? then Halt(Next(QueueRefusal(w, m, now, DuplicateHello), NoAction))
        else
          var m' := m.(requestPending := true, pendingSubscribe := decoded.request.Subscribe?);
          Halt(if last then Next(m', Emit(decoded.request)) else CloseWith(m', ExcessPipeline))
      case _ => Halt(CloseWith(m, ExcessPipeline))
  }

  /** The partial-frame deadline starts with the first byte of a frame after the Hello. */
  function StartPartial(m: Machine, now: Instant): (r: Machine) {
    if m.input == [] && m.phase in {Ready, SendingHello} && m.partialDeadline.None?
    then m.(partialDeadline := Some(now + FRAME_TIMEOUT)) else m
  }

  function OnByte(w: Wire, m: Machine, now: Instant, b: Byte, last: bool): (r: Fed) {
    if m.phase.SendingHello? && m.retained.Some? then Halt(CloseWith(m, ExcessPipeline))
    else
      var m1 := StartPartial(m, now);
      var bytes := m1.input + [b];
      if b == LF then OnFrame(w, m1.(input := [], partialDeadline := None), now, bytes, last)
      else if |bytes| == MAX_FRAME_BYTES then Halt(CloseWith(m1, FrameTooLarge))
      else Go(m1.(input := bytes))
  }

  function Feed(w: Wire, m: Machine, now: Instant, bytes: Bytes): (r: Next)
    decreases |bytes|
  {
    if bytes == [] then Next(m, NoAction)
    else match OnByte(w, m, now, bytes[0], |bytes| == 1)
      case Halt(n) => n
      case Go(m') => Feed(w, m', now, bytes[1..])
  }

  function Ingest(w: Wire, m: Machine, now: Instant, bytes: Bytes): (r: Next) {
    if bytes == [] then Next(m, NoAction)
    else if m.phase.Subscriber? then CloseWith(m, SubscriberInput)
    else if m.phase !in {AwaitHello, SendingHello, Ready} || m.requestPending || m.readHalfClosed || m.shuttingDown
    then CloseWith(m, ExcessPipeline)
    else Feed(w, m, now, bytes)
  }

  function ReadEof(m: Machine): (r: Next) {
    if m.readHalfClosed then Next(m, NoAction)
    else if m.input != [] then CloseWith(m, PeerClosed)
    else
      var m' := m.(readHalfClosed := true);
      if m.phase.AwaitHello? || (m.phase.Ready? && !m.requestPending && m.output.None?)
      then CloseWith(m', PeerClosed) else Next(m', NoAction)
  }

  // ---- output -------------------------------------------------------------

  function FinishSubscriberOutput(m: Machine, now: Instant): (r: Next) {
    if m.latest.Some? then
      Next(m.(output := m.latest, latest := None, outputDeadline := Some(now + OUTPUT_TIMEOUT)), NoAction)
    else if m.shuttingDown then CloseWith(m, ShutdownDone)
    else Next(m, NoAction)
  }

  /** The Hello reply is out: a pipelined frame is acted on now. */
  function FinishHello(w: Wire, m: Machine, now: Instant): (r: Next) {
    var m1 := m.(phase := Ready, retained := None);
    match m.retained
    case Some(Pipelined(request)) =>
      Next(m1.(requestPending := true, pendingSubscribe := request.Subscribe?), Emit(request))
    case Some(Refused(refusal)) => Next(QueueRefusal(w, m1, now, refusal), NoAction)
    case None => if m.readHalfClosed then CloseWith(m1, PeerClosed) else Next(m1, NoAction)
  }

  /** `m` has no output left; the frame just completed was of `kind`. */
  function Finish(w: Wire, m: Machine, now: Instant, kind: OutputClass): (r: Next) {
    match kind
    case HelloReply => if m.phase.CloseAfterReply? then CloseWith(m, OutputComplete) else FinishHello(w, m, now)
    case Ordinary => if m.readHalfClosed then CloseWith(m, PeerClosed) else Next(m, NoAction)
    case InitialState => FinishSubscriberOutput(m, now)
    case State => FinishSubscriberOutput(m, now)
    case Shutdown => CloseWith(m, ShutdownDone)
    case Terminal => CloseWith(m, OutputComplete)
  }

  /** What the socket is offered. */
  function Remaining(m: Machine): (r: Bytes) {
    if m.output.Some? && m.output.value.offset <= |m.output.value.bytes|
    then m.output.value.bytes[m.output.value.offset..] else []
  }

  function AdvanceOutput(w: Wire, m: Machine, now: Instant, count: nat): (r: Next) {
    if m.output.None? then Next(m, NoAction)
    else
      var c := m.output.value;
      var m1 := if count > 0 && !m.phase.CloseAfterReply? && !m.shuttingDown
                then m.(outputDeadline := Some(now + OUTPUT_TIMEOUT)) else m;
      if c.offset + count != |c.bytes| then Next(m1.(output := Some(c.(offset := c.offset + count))), NoAction)
      else Finish(w, m1.(output := None, outputDeadline := None), now, c.kind)
  }

  function SetCurrent(m: Machine, now: Instant, frame: Bytes, kind: OutputClass): (r: Machine) {
    m.(output := Some(Cursor(frame, 0, kind)), outputDeadline := Some(now + OUTPUT_TIMEOUT))
  }

  function CompleteRequest(m: Machine, now: Instant, response: Text): (r: Next) {
    if m.shuttingDown || !m.requestPending || m.pendingSubscribe then Next(m, NoAction)
    else
      var frame := Encode(response);
      if frame.None? then Next(m, OutboundFrameTooLarge)
      else Next(SetCurrent(m.(requestPending := false), now, frame.value, Ordinary), NoAction)
  }

  function CompleteSubscribe(m: Machine, now: Instant, state: Text): (r: Next) {
    if m.shuttingDown || !m.requestPending || !m.pendingSubscribe then Next(m, NoAction)
    else
      var frame := Encode(state);
      if frame.None? then Next(m, OutboundFrameTooLarge)
      else
        Next(SetCurrent(m.(requestPending := false, pendingSubscribe := false, phase := Subscriber),
                        now, frame.value, InitialState), NoAction)
  }

  function PublishState(m: Machine, now: Instant, frame: Bytes): (r: Next) {
    if !m.phase.Subscriber? || m.shuttingDown then Next(m, NoAction)
    else if |frame| > MAX_FRAME_BYTES || frame == [] || frame[|frame| - 1] != LF then CloseWith(m, FrameTooLarge)
    else
      var queued := Some(Cursor(frame, 0, State));
      Next(if m.output.Some? then m.(latest := queued)
           else m.(output := queued, outputDeadline := Some(now + OUTPUT_TIMEOUT)), NoAction)
  }

  function BeginShutdown(w: Wire, m: Machine, now: Instant): (r: Next) {
    if m.shutdownDeadline.Some? || m.phase.Closing? then Next(m, NoAction)
    else if !m.phase.Subscriber? then CloseWith(m, ShutdownDone)
    else
      var m1 := m.(shuttingDown := true, shutdownDeadline := Some(now + TERMINAL_TIMEOUT), latest := None);
      var frame := Encode(w.shutdown);
      if frame.None? then CloseWith(m1, FrameTooLarge)
      else
        var event := Some(Cursor(frame.value, 0, Shutdown));
        Next(match m.output
             case None => m1.(output := event)
             case Some(c) =>
               if c.kind.InitialState? && c.offset == 0 then m1.(latest := event)
               else if c.kind in {InitialState, State} && c.offset != 0 then m1
               else if c.kind.Shutdown? then m1
               else m1.(output := event),
             NoAction)
  }
}
