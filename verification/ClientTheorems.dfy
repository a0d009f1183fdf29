/** What holds of every series of client calls, however the bytes arrive. */
module ClientTheorems {
  import opened Optional
  import opened Frames
  import opened ClientModel

  // ---- one call ---------------------------------------------------------------------------

  /** The buffer fits a frame, and its deadline runs exactly while it holds something. */
  predicate ReaderInv(rd: Reader) {
    |rd.input| <= MAX_FRAME_BYTES && (rd.partial.Some? <==> rd.input != [])
  }

  function Returned(o: Outcome<Bytes>): (b: Bytes) { if o.Done? then o.value else [] }

  /** Nothing is lost, invented or reordered by a call, and what it returns is one frame. */
  predicate Conserves(rd: Reader, r: Reading) {
    && ReaderInv(r.reader)
    && rd.input + r.got == Returned(r.outcome) + r.reader.input
    && (r.outcome.Done? ==> IsFrame(r.outcome.value))
  }

  /** Too large is reported exactly when the buffer is full without a frame in it. */
  predicate FullIsTooLarge(r: Reading) {
    r.outcome == Failed(TooLarge) <==> LF !in r.reader.input && |r.reader.input| == MAX_FRAME_BYTES
  }

  lemma FirstFrame(input: Bytes, k: nat)
    requires k < |input| && input[k] == LF && LF !in input[..k]
    ensures IsFrame(input[..k + 1]) && input[..k + 1] + input[k + 1..] == input
  {
    assert input[..k + 1][..k] == input[..k];
  }

  lemma TakeConserves(rd: Reader, bound: Bound, script: seq<Receive>)
    requires ReaderInv(rd) && LF in rd.input
    ensures Conserves(rd, Read(rd, bound, script)) && FullIsTooLarge(Read(rd, bound, script))
  {
    FirstFrame(rd.input, NewlineAt(rd.input).value);
    assert rd.input + [] == rd.input;
  }

  lemma PollKeepsTrying(deadline: Option<Instant>, polls: seq<Poll>)
    ensures PollUntil(deadline, polls) != Failed(TooLarge)
  {}

  lemma AttemptKeeps(rd: Reader, bound: Bound, a: Receive)
    requires ReaderInv(rd)
    ensures var (rd', outcome, got) := Attempt(rd, bound, a);
            && ReaderInv(rd') && rd'.input == rd.input + got
            && outcome != Failed(TooLarge) && (!outcome.Done? ==> rd' == rd)
  {
    PollKeepsTrying(Active(rd, bound), if a.reply.NotReadable? then a.reply.polls else []);
  }

  lemma {:induction false} ReadConserves(rd: Reader, bound: Bound, script: seq<Receive>)
    requires ReaderInv(rd)
    ensures Conserves(rd, Read(rd, bound, script)) && FullIsTooLarge(Read(rd, bound, script))
    decreases |script|
  {
    if LF in rd.input {
      TakeConserves(rd, bound, script);
    } else if |rd.input| < MAX_FRAME_BYTES && script != [] {
      AttemptKeeps(rd, bound, script[0]);
      var (rd', outcome, got) := Attempt(rd, bound, script[0]);
      if outcome.Done? {
        ReadConserves(rd', bound, script[1..]);
        var more := Read(rd', bound, script[1..]);
        assert rd.input + (got + more.got) == rd'.input + more.got;
      }
    }
  }

  /** While bytes stay buffered their deadline does not move, even when a frame among them is returned. */
  lemma {:induction false} PartialDeadlineKept(rd: Reader, bound: Bound, script: seq<Receive>)
    requires ReaderInv(rd) && rd.input != [] && Read(rd, bound, script).reader.input != []
    ensures Read(rd, bound, script).reader.partial == rd.partial
    decreases |script|
  {
    if LF !in rd.input && |rd.input| < MAX_FRAME_BYTES && script != [] {
      AttemptKeeps(rd, bound, script[0]);
      var (rd', outcome, got) := Attempt(rd, bound, script[0]);
      if outcome.Done? {
        PartialDeadlineKept(rd', bound, script[1..]);
      }
    }
  }

  // ---- any series of calls ---------------------------------------------------------------------

  datatype Call = Call(bound: Bound, script: seq<Receive>)

  datatype Session = Session(reader: Reader, frames: seq<Bytes>, received: Bytes)

  function After(s: Session, c: Call): (r: Session) {
    var r := Read(s.reader, c.bound, c.script);
    Session(r.reader, s.frames + (if r.outcome.Done? then [r.outcome.value] else []), s.received + r.got)
  }

  function Calls(cs: seq<Call>): (s: Session) {
    if cs == [] then Session(Reader([], None), [], []) else After(Calls(cs[..|cs| - 1]), cs[|cs| - 1])
  }

  predicate SessionInv(s: Session) {
    ReaderInv(s.reader) && AllFrames(s.frames) && Concat(s.frames) + s.reader.input == s.received
  }

  lemma Returns(frames: seq<Bytes>, input: Bytes, got: Bytes, frame: Bytes, rest: Bytes)
    requires input + got == frame + rest
    ensures Concat(frames + [frame]) + rest == Concat(frames) + input + got
  {
    ConcatPush(frames, frame);
    assert Concat(frames) + input + got == Concat(frames) + (input + got);
    assert Concat(frames) + frame + rest == Concat(frames) + (frame + rest);
  }

  lemma ReadKeeps(frames: seq<Bytes>, received: Bytes, rd: Reader, r: Reading)
    requires AllFrames(frames) && Concat(frames) + rd.input == received && Conserves(rd, r)
    ensures Concat(if r.outcome.Done? then frames + [r.outcome.value] else frames) + r.reader.input == received + r.got
  {
    if r.outcome.Done? {
      Returns(frames, rd.input, r.got, r.outcome.value, r.reader.input);
    } else {
      assert Concat(frames) + rd.input + r.got == Concat(frames) + (rd.input + r.got);
      assert [] + r.reader.input == r.reader.input;
    }
  }

  lemma AfterKeeps(s: Session, c: Call)
    requires SessionInv(s)
    ensures SessionInv(After(s, c))
  {
    var r := Read(s.reader, c.bound, c.script);
    ReadConserves(s.reader, c.bound, c.script);
    ReadKeeps(s.frames, s.received, s.reader, r);
    assert s.frames + [] == s.frames;
  }

  /** A buffer without LF is all partial frame, and only such a one holds no complete frame. */
  lemma BufferSplit(input: Bytes)
    ensures Complete(input) == [] <==> LF !in input
    ensures LF !in input ==> Partial(input) == input
  {
    SplitWhole(input);
    assert input == [] + input;
    if LF !in input {
      SplitText([], input);
    } else {
      assert Concat([]) + Partial(input) == Partial(input);
    }
  }

  /** The frames returned, followed by what is buffered, are the bytes received. */
  lemma {:induction false} SessionKeeps(cs: seq<Call>)
    ensures SessionInv(Calls(cs))
  {
    if cs != [] {
      SessionKeeps(cs[..|cs| - 1]);
      AfterKeeps(Calls(cs[..|cs| - 1]), cs[|cs| - 1]);
    }
  }

  lemma SplitSession(s: Session)
    requires SessionInv(s)
    ensures Complete(s.received) == s.frames + Complete(s.reader.input)
    ensures Partial(s.received) == Partial(s.reader.input)
  {
    SplitWhole(s.reader.input);
    var fs, rest := Complete(s.reader.input), Partial(s.reader.input);
    ConcatAppend(s.frames, fs);
    assert s.received == Concat(s.frames + fs) + rest;
    SplitUnique(s.frames + fs, rest);
  }

  /** However the stream was cut into reads, the frames returned are its first complete frames, in order. */
  lemma FramesReturned(cs: seq<Call>)
    ensures var s := Calls(cs);
            Complete(s.received) == s.frames + Complete(s.reader.input) && Partial(s.received) == Partial(s.reader.input)
  {
    SessionKeeps(cs);
    SplitSession(Calls(cs));
  }

  /** Once a further frame has arrived, the next call returns it without touching the socket. */
  lemma NextFrame(cs: seq<Call>, c: Call)
    requires |Calls(cs).frames| < |Complete(Calls(cs).received)|
    ensures var s := Calls(cs);
            && Calls(cs + [c]).frames == s.frames + [Complete(s.received)[|s.frames|]]
            && Calls(cs + [c]).received == s.received
  {
    var s := Calls(cs);
    FramesReturned(cs);
    FramesReturned(cs + [c]);
    assert (cs + [c])[..|cs|] == cs;
    BufferSplit(s.reader.input);
    var r := Read(s.reader, c.bound, c.script);
    assert s.received + [] == s.received;
    assert Complete(s.received)[|s.frames|] == (s.frames + [r.outcome.value])[|s.frames|];
  }

  /** A call reports too large exactly when the frame it is in the middle of has filled the buffer. */
  lemma TooLargeIff(cs: seq<Call>, c: Call)
    ensures var s, r := Calls(cs), Calls(cs + [c]);
            Read(s.reader, c.bound, c.script).outcome == Failed(TooLarge) <==>
            r.frames == Complete(r.received) && |Partial(r.received)| == MAX_FRAME_BYTES
  {
    var s, r := Calls(cs), Calls(cs + [c]);
    assert (cs + [c])[..|cs|] == cs;
    SessionKeeps(cs);
    FramesReturned(cs + [c]);
    ReadConserves(s.reader, c.bound, c.script);
    BufferSplit(r.reader.input);
  }

  // ---- the deadline of what is buffered --------------------------------------------------------

  /** The clock reading of the first chunk a call takes, if it takes any. */
  function FirstArrival(rd: Reader, bound: Bound, script: seq<Receive>): (t: Option<Instant>)
    decreases |script|
  {
    if LF in rd.input || |rd.input| >= MAX_FRAME_BYTES || script == [] then None
    else
      var (rd', outcome, got) := Attempt(rd, bound, script[0]);
      if got != [] then Some(script[0].reply.after)
      else if outcome.Done? then FirstArrival(rd', bound, script[1..])
      else None
  }

  lemma {:induction false} OpeningDeadline(rd: Reader, bound: Bound, script: seq<Receive>)
    requires ReaderInv(rd) && rd.input == [] && Read(rd, bound, script).reader.input != []
    ensures FirstArrival(rd, bound, script).Some?
    ensures Read(rd, bound, script).reader.partial == Some(FirstArrival(rd, bound, script).value + EXCHANGE_TIMEOUT)
    decreases |script|
  {
    AttemptKeeps(rd, bound, script[0]);
    var (rd', outcome, got) := Attempt(rd, bound, script[0]);
    if got != [] {
      PartialDeadlineKept(rd', bound, script[1..]);
    } else {
      assert rd'.input == rd.input + [] == [];
      OpeningDeadline(rd', bound, script[1..]);
    }
  }

  /** The clock reading of the last chunk that found the buffer empty. */
  function LastOpening(cs: seq<Call>): (t: Option<Instant>) {
    if cs == [] then None
    else
      var p, c := cs[..|cs| - 1], cs[|cs| - 1];
      var opening := FirstArrival(Calls(p).reader, c.bound, c.script);
      if Calls(p).reader.input == [] && opening.Some? then opening else LastOpening(p)
  }

  predicate DeadlineFrom(rd: Reader, opening: Option<Instant>) {
    if rd.input == [] then rd.partial.None?
    else opening.Some? && rd.partial == Some(opening.value + EXCHANGE_TIMEOUT)
  }

  lemma CallDeadline(rd: Reader, bound: Bound, script: seq<Receive>, opening: Option<Instant>)
    requires ReaderInv(rd) && DeadlineFrom(rd, opening)
    ensures var first := FirstArrival(rd, bound, script);
            DeadlineFrom(Read(rd, bound, script).reader, if rd.input == [] && first.Some? then first else opening)
  {
    ReadConserves(rd, bound, script);
    if Read(rd, bound, script).reader.input != [] {
      if rd.input == [] {
        OpeningDeadline(rd, bound, script);
      } else {
        PartialDeadlineKept(rd, bound, script);
      }
    }
  }

  /** Over any series of calls the deadline is two seconds after the last chunk that found the buffer
      empty: a frame that follows others in the buffer does not get two seconds of its own. */
  lemma {:induction false} SessionDeadline(cs: seq<Call>)
    ensures DeadlineFrom(Calls(cs).reader, LastOpening(cs))
  {
    if cs != [] {
      var p, c := cs[..|cs| - 1], cs[|cs| - 1];
      SessionKeeps(p);
      SessionDeadline(p);
      CallDeadline(Calls(p).reader, c.bound, c.script, LastOpening(p));
    }
  }

  /** A frame and the start of a second at 0; its end and the start of a third at 1999. */
  function Trickle(): (cs: seq<Call>) {
    [] + [Call(OnSubscription, [Receive(0, Got([65, LF, 66], 0))])]
       + [Call(OnSubscription, [Receive(1999, Got([LF, 67], 1999))])]
  }

  lemma CallsNext(cs: seq<Call>, c: Call)
    ensures Calls(cs + [c]) == After(Calls(cs), c)
  {
    assert (cs + [c])[..|cs|] == cs;
  }

  lemma FirstNewline(s: Bytes, k: nat)
    requires k < |s| && s[k] == LF && LF !in s[..k]
    ensures NewlineAt(s) == Some(k)
  {
    assert s[k] in s;
  }

  /** A chunk that is taken, and then the call goes round again. */
  lemma GoesOn(rd: Reader, a: Receive)
    requires LF !in rd.input && |rd.input| < MAX_FRAME_BYTES && !Late(rd.partial, a.before)
    requires a.reply.Got? && a.reply.chunk != [] && |a.reply.chunk| <= Capacity(rd)
    ensures var more := Read(Keep(rd, a.reply.chunk, a.reply.after), OnSubscription, []);
            Read(rd, OnSubscription, [a]) == more.(got := a.reply.chunk + more.got)
  {
    assert [a][1..] == [];
  }

  lemma TakesBuffered(rd: Reader, k: nat)
    requires k < |rd.input| - 1 && rd.input[k] == LF && LF !in rd.input[..k]
    ensures Read(rd, OnSubscription, []) == Reading(Reader(rd.input[k + 1..], rd.partial), Done(rd.input[..k + 1]), [])
  {
    FirstNewline(rd.input, k);
  }

  lemma ReadsOne(rd: Reader, a: Receive, all: Bytes, k: nat)
    requires LF !in rd.input && |rd.input| < MAX_FRAME_BYTES && !Late(rd.partial, a.before)
    requires a.reply.Got? && a.reply.chunk != [] && |a.reply.chunk| <= Capacity(rd)
    requires all == rd.input + a.reply.chunk && k < |all| - 1 && all[k] == LF && LF !in all[..k]
    ensures Read(rd, OnSubscription, [a]) ==
            Reading(Reader(all[k + 1..], Keep(rd, a.reply.chunk, a.reply.after).partial), Done(all[..k + 1]), a.reply.chunk)
  {
    GoesOn(rd, a);
    TakesBuffered(Keep(rd, a.reply.chunk, a.reply.after), k);
    assert a.reply.chunk + [] == a.reply.chunk;
  }

  lemma FirstTrickle()
    ensures Read(Reader([], None), OnSubscription, [Receive(0, Got([65, LF, 66], 0))]) ==
            Reading(Reader([66], Some(2000)), Done([65, LF]), [65, LF, 66])
  {
    ReadsOne(Reader([], None), Receive(0, Got([65, LF, 66], 0)), [65, LF, 66], 1);
    assert [65, LF, 66][2..] == [66] && [65, LF, 66][..2] == [65, LF];
  }

  lemma SecondTrickle()
    ensures Read(Reader([66], Some(2000)), OnSubscription, [Receive(1999, Got([LF, 67], 1999))]) ==
            Reading(Reader([67], Some(2000)), Done([66, LF]), [LF, 67])
  {
    ReadsOne(Reader([66], Some(2000)), Receive(1999, Got([LF, 67], 1999)), [66, LF, 67], 1);
    assert [66, LF, 67][2..] == [67] && [66, LF, 67][..2] == [66, LF];
  }

  lemma TrickleReader()
    ensures Calls(Trickle()).reader == Reader([67], Some(2000)) && Calls(Trickle()).frames == [[65, LF], [66, LF]]
  {
    var c := Call(OnSubscription, [Receive(0, Got([65, LF, 66], 0))]);
    FirstTrickle();
    CallsNext([], c);
    SecondTrickle();
    CallsNext([] + [c], Call(OnSubscription, [Receive(1999, Got([LF, 67], 1999))]));
  }

  /** So a subscriber may give up on a frame whose first byte came one millisecond ago. */
  lemma GivesUpEarly(reply: ReceiveReply)
    ensures Read(Calls(Trickle()).reader, OnSubscription, [Receive(2000, reply)]).outcome == Failed(TimedOut)
    ensures Calls(Trickle()).reader.input == [67] && LastOpening(Trickle()) == Some(0)
  {
    TrickleReader();
    SessionDeadline(Trickle());
  }

  // ---- streams of encoded frames ------------------------------------------------------------------

  /** Every frame is the encoding of some document. */
  ghost predicate Encoded(fs: seq<Bytes>) {
    forall i :: 0 <= i < |fs| ==> exists text: Text :: Encode(text) == Some(fs[i])
  }

  lemma EncodedFrames(fs: seq<Bytes>)
    requires Encoded(fs)
    ensures AllFrames(fs) && forall i :: 0 <= i < |fs| ==> |fs[i]| <= MAX_FRAME_BYTES
  {
    forall i | 0 <= i < |fs| ensures IsFrame(fs[i]) && |fs[i]| <= MAX_FRAME_BYTES {
      var text: Text :| Encode(text) == Some(fs[i]);
    }
  }

  lemma CutLast(fs: seq<Bytes>, f: Bytes, t: Bytes)
    requires AllFrames(fs) && IsFrame(f) && t <= f
    ensures if t == f then Complete(Concat(fs) + t) == fs + [f] && Partial(Concat(fs) + t) == []
            else Complete(Concat(fs) + t) == fs && Partial(Concat(fs) + t) == t
  {
    SplitUnique(fs, []);
    assert Concat(fs) + [] == Concat(fs);
    assert [] + t == t;
    if t == f {
      SplitFrameEnd(Concat(fs), t);
    } else {
      assert t == f[..|f| - 1][..|t|];
      SplitText(Concat(fs), t);
    }
  }

  /** Whole frames from the front, and a proper part of the next one. */
  predicate CutOf(fs: seq<Bytes>, whole: seq<Bytes>, part: Bytes) {
    whole <= fs && (part == [] || (|whole| < |fs| && part < fs[|whole|]))
  }

  /** A stream cut anywhere leaves whole frames and a proper part of the next one. */
  lemma {:induction false} CutStream(fs: seq<Bytes>, s: Bytes)
    requires AllFrames(fs) && s <= Concat(fs)
    ensures CutOf(fs, Complete(s), Partial(s))
  {
    if fs != [] {
      var k := |fs| - 1;
      var whole := Concat(fs[..k]);
      assert fs == fs[..k] + [fs[k]];
      if |s| <= |whole| {
        CutStream(fs[..k], s);
        CutLonger(fs[..k], fs[k], Complete(s), Partial(s));
      } else {
        var t := s[|whole|..];
        assert s == whole + t && t <= fs[k];
        CutTail(fs[..k], fs[k], t);
      }
    }
  }

  lemma CutLonger(fs: seq<Bytes>, f: Bytes, whole: seq<Bytes>, part: Bytes)
    requires CutOf(fs, whole, part)
    ensures CutOf(fs + [f], whole, part)
  {}

  lemma CutTail(fs: seq<Bytes>, f: Bytes, t: Bytes)
    requires AllFrames(fs) && IsFrame(f) && t <= f
    ensures CutOf(fs + [f], Complete(Concat(fs) + t), Partial(Concat(fs) + t))
  {
    CutLast(fs, f, t);
  }

  /** From a peer that sends encoded frames, every call returns the next frame or waits for it: too
      large is never reported. */
  lemma NeverTooLarge(fs: seq<Bytes>, cs: seq<Call>, c: Call)
    requires Encoded(fs) && Calls(cs + [c]).received <= Concat(fs)
    ensures Calls(cs + [c]).frames <= fs
    ensures Read(Calls(cs).reader, c.bound, c.script).outcome != Failed(TooLarge)
  {
    EncodedFrames(fs);
    CutStream(fs, Calls(cs + [c]).received);
    FramesReturned(cs + [c]);
    TooLargeIff(cs, c);
  }

  // ---- writing one request -------------------------------------------------------------------------------

  /** A request counts as sent exactly when its whole frame was taken. */
  lemma {:induction false} WriteWhole(frame: Bytes, offset: nat, deadline: Instant, script: seq<Send>)
    requires offset <= |frame|
    ensures Write(frame, offset, deadline, script).0.Done? <==> Write(frame, offset, deadline, script).1 == |frame|
    decreases |script|
  {
    if offset < |frame| && script != [] && !Late(Some(deadline), script[0].before) {
      match script[0].reply
      case Took(count) =>
        if 0 < count <= |frame| - offset { WriteWhole(frame, offset + count, deadline, script[1..]); }
      case SendInterrupted => WriteWhole(frame, offset, deadline, script[1..]);
      case NotWritable(polls) =>
        if PollUntil(Some(deadline), polls).Done? { WriteWhole(frame, offset, deadline, script[1..]); }
      case SendBroken =>
    }
  }

  // ---- a subscription ---------------------------------------------------------------------------------------

  /** What a subscriber has seen after a series of pulls. */
  datatype Watch = Watch(sub: Sub, items: seq<Item>, frames: seq<Bytes>, received: Bytes)

  function Watched(decode: Bytes -> Option<Event>, v: Watch, script: seq<Receive>): (r: Watch) {
    var p := Pull(decode, v.sub, script);
    Watch(p.sub,
          if p.item.Done? && p.item.value.Some? then v.items + [p.item.value.value] else v.items,
          if p.frame.Some? then v.frames + [p.frame.value] else v.frames,
          v.received + p.got)
  }

  function Pulls(decode: Bytes -> Option<Event>, start: Watch, scripts: seq<seq<Receive>>): (v: Watch) {
    if scripts == [] then start
    else Watched(decode, Pulls(decode, start, scripts[..|scripts| - 1]), scripts[|scripts| - 1])
  }

  /** The subscription as `subscribe` hands it over: the initial state not yet yielded. */
  predicate Opens(v: Watch, initial: Event) {
    && v.sub.pending == Some(initial) && initial.State? && !v.sub.finished
    && v.items == [] && v.frames == [] && v.received == v.sub.reader.input && ReaderInv(v.sub.reader)
  }

  /** The items are the initial state and then what the frames decode to. */
  predicate Follows(decode: Bytes -> Option<Event>, initial: Event, frames: seq<Bytes>, items: seq<Item>) {
    && items != [] && items[0] == Yield(initial)
    && |frames| + 1 <= |items| <= |frames| + 2
    && (forall i :: 0 <= i < |frames| ==> items[i + 1] == ItemOf(decode, Done(frames[i])))
    && (|items| == |frames| + 2 ==> items[|items| - 1] == Error)
  }

  /** The frames read, followed by what is buffered, are the bytes received. */
  predicate StreamInv(v: Watch) {
    ReaderInv(v.sub.reader) && AllFrames(v.frames) && Concat(v.frames) + v.sub.reader.input == v.received
  }

  /** The first shutdown or error is the last item, and only it finishes the subscription. */
  predicate ItemsInv(decode: Bytes -> Option<Event>, initial: Event, v: Watch) {
    if v.sub.pending.Some? then
      v.sub.pending == Some(initial) && v.items == [] && v.frames == [] && !v.sub.finished
    else
      && Follows(decode, initial, v.frames, v.items)
      && (v.sub.finished <==> Last(v.items[|v.items| - 1]))
      && forall i :: 0 <= i < |v.items| - 1 ==> !Last(v.items[i])
  }

  predicate WatchInv(decode: Bytes -> Option<Event>, initial: Event, v: Watch) {
    StreamInv(v) && ItemsInv(decode, initial, v)
  }

  /** What a pull that reads does to the stream. */
  lemma WatchedReads(decode: Bytes -> Option<Event>, v: Watch, script: seq<Receive>)
    requires !v.sub.finished && v.sub.pending.None?
    ensures var r, v' := Read(v.sub.reader, OnSubscription, script), Watched(decode, v, script);
            && v'.sub.reader == r.reader && v'.received == v.received + r.got
            && v'.frames == if r.outcome.Done? then v.frames + [r.outcome.value] else v.frames
  {}

  lemma StreamAfter(v: Watch, r: Reading, v': Watch)
    requires StreamInv(v) && Conserves(v.sub.reader, r)
    requires v'.sub.reader == r.reader && v'.received == v.received + r.got
    requires v'.frames == if r.outcome.Done? then v.frames + [r.outcome.value] else v.frames
    ensures StreamInv(v')
  {
    ReadKeeps(v.frames, v.received, v.sub.reader, r);
  }

  lemma PullReads(decode: Bytes -> Option<Event>, v: Watch, script: seq<Receive>)
    requires StreamInv(v)
    ensures StreamInv(Watched(decode, v, script))
  {
    if !v.sub.finished && v.sub.pending.None? {
      WatchedReads(decode, v, script);
      ReadConserves(v.sub.reader, OnSubscription, script);
      StreamAfter(v, Read(v.sub.reader, OnSubscription, script), Watched(decode, v, script));
    } else {
      assert v.received + [] == v.received;
    }
  }

  lemma FollowsNext(decode: Bytes -> Option<Event>, initial: Event, frames: seq<Bytes>, items: seq<Item>, outcome: Outcome<Bytes>)
    requires Follows(decode, initial, frames, items) && !Last(items[|items| - 1]) && !outcome.Waiting?
    ensures Follows(decode, initial, if outcome.Done? then frames + [outcome.value] else frames, items + [ItemOf(decode, outcome)])
  {}

  /** A pull that reads: what it yields follows on. */
  lemma PullYields(decode: Bytes -> Option<Event>, initial: Event, v: Watch, outcome: Outcome<Bytes>, v': Watch)
    requires v.sub.pending.None? && v'.sub.pending.None? && !v.sub.finished && ItemsInv(decode, initial, v)
    requires !outcome.Waiting? && v'.items == v.items + [ItemOf(decode, outcome)]
    requires v'.frames == if outcome.Done? then v.frames + [outcome.value] else v.frames
    requires v'.sub.finished <==> Last(ItemOf(decode, outcome))
    ensures ItemsInv(decode, initial, v')
  {
    FollowsNext(decode, initial, v.frames, v.items, outcome);
  }

  lemma PullKeeps(decode: Bytes -> Option<Event>, initial: Event, v: Watch, script: seq<Receive>)
    requires initial.State? && ItemsInv(decode, initial, v)
    ensures ItemsInv(decode, initial, Watched(decode, v, script))
  {
    if !v.sub.finished && v.sub.pending.None? {
      var r := Read(v.sub.reader, OnSubscription, script);
      if !r.outcome.Waiting? {
        PullYields(decode, initial, v, r.outcome, Watched(decode, v, script));
      }
    }
  }

  /** Over any series of pulls the items are the initial state, then the frames in order as decoded; the
      first shutdown or error is the last item, and nothing is read after it. */
  lemma {:induction false} SubscriptionStream(decode: Bytes -> Option<Event>, initial: Event, start: Watch, scripts: seq<seq<Receive>>)
    requires Opens(start, initial)
    ensures WatchInv(decode, initial, Pulls(decode, start, scripts))
  {
    if scripts == [] {
      assert Concat([]) + start.sub.reader.input == start.received;
    } else {
      SubscriptionStream(decode, initial, start, scripts[..|scripts| - 1]);
      PullReads(decode, Pulls(decode, start, scripts[..|scripts| - 1]), scripts[|scripts| - 1]);
      PullKeeps(decode, initial, Pulls(decode, start, scripts[..|scripts| - 1]), scripts[|scripts| - 1]);
    }
  }

  /** A finished subscription reads and yields nothing more. */
  lemma {:induction false} FinishedStays(decode: Bytes -> Option<Event>, start: Watch, scripts: seq<seq<Receive>>, k: nat)
    requires k <= |scripts| && Pulls(decode, start, scripts[..k]).sub.finished
    ensures Pulls(decode, start, scripts) == Pulls(decode, start, scripts[..k])
    decreases |scripts|
  {
    if k == |scripts| {
      assert scripts[..k] == scripts;
    } else {
      var before := scripts[..|scripts| - 1];
      assert before[..k] == scripts[..k];
      FinishedStays(decode, start, before, k);
      var v := Pulls(decode, start, before);
      assert v.received + [] == v.received;
    }
  }
}
