/** The client's side of the socket: reading frames from a byte stream and writing one request. */
module ClientModel {
  import opened Optional
  import opened Frames

  type Instant = nat

  const EXCHANGE_TIMEOUT: nat := 2000
  const READ_CHUNK_BYTES: nat := 8192

  datatype Fault = TooLarge | TimedOut | Ended | Broken

  /** `Waiting` is a call that has not returned: the replies so far do not finish it. */
  datatype Outcome<T> = Done(value: T) | Failed(fault: Fault) | Waiting

  datatype Bound = Until(deadline: Instant) | OnSubscription

  // What the operating system answers, with the clock readings the client takes around it.

  datatype PollReply = Woken(after: Instant) | Expired | PollInterrupted | PollBroken

  datatype Poll = Poll(before: Instant, reply: PollReply)

  datatype ReceiveReply = Got(chunk: Bytes, after: Instant) | ReceiveInterrupted | NotReadable(polls: seq<Poll>) | ReceiveBroken

  datatype Receive = Receive(before: Instant, reply: ReceiveReply)

  datatype SendReply = Took(count: nat) | SendInterrupted | NotWritable(polls: seq<Poll>) | SendBroken

  datatype Send = Send(before: Instant, reply: SendReply)

  // ---- reading ---------------------------------------------------------------------------

  datatype Reader = Reader(input: Bytes, partial: Option<Instant>)

  /** `got` is what the call took off the stream. */
  datatype Reading = Reading(reader: Reader, outcome: Outcome<Bytes>, got: Bytes)

  predicate Late(deadline: Option<Instant>, now: Instant) { deadline.Some? && deadline.value <= now }

  function PollUntil(deadline: Option<Instant>, polls: seq<Poll>): (r: Outcome<()>)
    decreases |polls|
  {
    if polls == [] then Waiting
    else if Late(deadline, polls[0].before) then Failed(TimedOut)
    else
      match polls[0].reply
      case Woken(after) => if Late(deadline, after) then Failed(TimedOut) else Done(())
      case Expired => Failed(TimedOut)
      case PollInterrupted => PollUntil(deadline, polls[1..])
      case PollBroken => Failed(Broken)
  }

  function NewlineAt(s: Bytes): (r: Option<nat>)
    ensures r.Some? <==> LF in s
    ensures r.Some? ==> r.value < |s| && s[r.value] == LF && LF !in s[..r.value]
  {
    if s == [] then None
    else
      var k := |s| - 1;
      var r := NewlineAt(s[..k]);
      if r.Some? then (assert s[..k][..r.value] == s[..r.value]; r)
      else if s[k] == LF then Some(k)
      else None
  }

  /** The deadline in force while waiting for more bytes. */
  function Active(rd: Reader, bound: Bound): (d: Option<Instant>) {
    if bound.Until? then Some(bound.deadline) else rd.partial
  }

  function Capacity(rd: Reader): (c: int) {
    var room := MAX_FRAME_BYTES - |rd.input|;
    if room < READ_CHUNK_BYTES then room else READ_CHUNK_BYTES
  }

  function Keep(rd: Reader, chunk: Bytes, now: Instant): (r: Reader) {
    Reader(rd.input + chunk, if rd.input == [] then Some(now + EXCHANGE_TIMEOUT) else rd.partial)
  }

  /** One attempt to read more; `Done` means that the call goes round again. */
  function Attempt(rd: Reader, bound: Bound, a: Receive): (r: (Reader, Outcome<()>, Bytes)) {
    if Late(Active(rd, bound), a.before) then (rd, Failed(TimedOut), [])
    else
      match a.reply
      case Got(chunk, after) =>
        if chunk == [] then (rd, Failed(Ended), [])
        else if |chunk| <= Capacity(rd) then (Keep(rd, chunk, after), Done(()), chunk)
        else (rd, Failed(Broken), [])
      case ReceiveInterrupted => (rd, Done(()), [])
      case NotReadable(polls) => (rd, PollUntil(Active(rd, bound), polls), [])
      case ReceiveBroken => (rd, Failed(Broken), [])
  }

  function Stopped(o: Outcome<()>): (r: Outcome<Bytes>)
    requires !o.Done?
  {
    if o.Failed? then Failed(o.fault) else Waiting
  }

  /** What the source calls `read_frame`. */
  function Read(rd: Reader, bound: Bound, script: seq<Receive>): (r: Reading)
    decreases |script|
  {
    var newline := NewlineAt(rd.input);
    if newline.Some? then
      var rest := rd.input[newline.value + 1..];
      Reading(Reader(rest, if rest == [] then None else rd.partial), Done(rd.input[..newline.value + 1]), [])
    else if |rd.input| >= MAX_FRAME_BYTES then Reading(rd, Failed(TooLarge), [])
    else if script == [] then Reading(rd, Waiting, [])
    else
      var (rd', outcome, got) := Attempt(rd, bound, script[0]);
      if outcome.Done? then
        var more := Read(rd', bound, script[1..]);
        more.(got := got + more.got)
      else Reading(rd', Stopped(outcome), got)
  }

  // ---- writing ------------------------------------------------------------------------------

  /** Writes the rest of a frame; the result says how far it got. */
  function Write(frame: Bytes, offset: nat, deadline: Instant, script: seq<Send>): (r: (Outcome<()>, nat))
    requires offset <= |frame|
    ensures offset <= r.1 <= |frame|
    decreases |script|
  {
    if offset == |frame| then (Done(()), offset)
    else if script == [] then (Waiting, offset)
    else if Late(Some(deadline), script[0].before) then (Failed(TimedOut), offset)
    else
      match script[0].reply
      case Took(count) =>
        if count == 0 || count > |frame| - offset then (Failed(Broken), offset)
        else Write(frame, offset + count, deadline, script[1..])
      case SendInterrupted => Write(frame, offset, deadline, script[1..])
      case NotWritable(polls) =>
        var p := PollUntil(Some(deadline), polls);
        if p.Done? then Write(frame, offset, deadline, script[1..]) else (p, offset)
      case SendBroken => (Failed(Broken), offset)
  }

  // ---- a subscription --------------------------------------------------------------------------

  datatype Event = State(text: Bytes) | Shutdown

  datatype Item = Yield(event: Event) | Error

  datatype Sub = Sub(reader: Reader, pending: Option<Event>, finished: bool)

  /** A frame that decodes to nothing is an error like any other. */
  function ItemOf(decode: Bytes -> Option<Event>, outcome: Outcome<Bytes>): (i: Item)
    requires !outcome.Waiting?
  {
    if outcome.Failed? || decode(outcome.value).None? then Error else Yield(decode(outcome.value).value)
  }

  predicate Last(i: Item) { i == Yield(Shutdown) || i.Error? }

  datatype Pulled = Pulled(sub: Sub, item: Outcome<Option<Item>>, got: Bytes, frame: Option<Bytes>)

  /** What the source calls `Subscription::next`. */
  function Pull(decode: Bytes -> Option<Event>, s: Sub, script: seq<Receive>): (r: Pulled) {
    if s.finished then Pulled(s, Done(None), [], None)
    else if s.pending.Some? then
      var item := Yield(s.pending.value);
      Pulled(Sub(s.reader, None, Last(item)), Done(Some(item)), [], None)
    else
      var r := Read(s.reader, OnSubscription, script);
      if r.outcome.Waiting? then Pulled(s.(reader := r.reader), Waiting, r.got, None)
      else
        var item := ItemOf(decode, r.outcome);
        Pulled(Sub(r.reader, None, Last(item)), Done(Some(item)), r.got,
               if r.outcome.Done? then Some(r.outcome.value) else None)
  }
}
