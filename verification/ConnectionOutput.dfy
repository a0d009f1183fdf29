/** The outgoing stream of one connection: which frames it carries, in which order. */
module ConnectionOutput {
  import opened Optional
  import opened Frames
  import opened Protocol
  import opened ConnectionRuns
  import opened ConnectionStreams

  /** `a` is obtained from `b` by leaving elements out. */
  predicate Subsequence(a: seq<Bytes>, b: seq<Bytes>) {
    a == [] ||
    (b != [] &&
     ((a[|a| - 1] == b[|b| - 1] && Subsequence(a[..|a| - 1], b[..|b| - 1])) || Subsequence(a, b[..|b| - 1])))
  }

  lemma {:induction false} SubsequenceLater(a: seq<Bytes>, b: seq<Bytes>, x: Bytes)
    requires Subsequence(a, b)
    ensures Subsequence(a, b + [x]) && Subsequence(a + [x], b + [x])
  {
    assert (b + [x])[..|b|] == b && (a + [x])[..|a|] == a;
  }

  lemma {:induction false} SubsequenceShorter(a: seq<Bytes>, b: seq<Bytes>)
    requires a != [] && Subsequence(a, b)
    ensures Subsequence(a[..|a| - 1], b)
  {
    var k := |b| - 1;
    if a[|a| - 1] == b[k] && Subsequence(a[..|a| - 1], b[..k]) {
      SubsequenceLater(a[..|a| - 1], b[..k], b[k]);
      assert b == b[..k] + [b[k]];
    } else {
      SubsequenceShorter(a, b[..k]);
      SubsequenceLater(a[..|a| - 1], b[..k], b[k]);
      assert b == b[..k] + [b[k]];
    }
  }

  // ---- the frames a connection may carry ------------------------------------

  predicate IsRefusal(w: Wire, f: Bytes) {
    f in {FrameOf(w.refusal(ExpectedHello)), FrameOf(w.refusal(InvalidRequest)), FrameOf(w.refusal(DuplicateHello))}
  }

  /** The Hello reply and every ordinary response. */
  function Greeting(w: Wire, story: Story): (fs: seq<Bytes>) {
    [FrameOf(w.hello)] + story.replies
  }

  /** Everything up to and including the state that opens a subscription. */
  function Opening(w: Wire, story: Story): (fs: seq<Bytes>)
    requires story.initial.Some?
  {
    Greeting(w, story) + [story.initial.value]
  }

  /** States in published order, some coalesced away, and perhaps a final shutdown event. */
  predicate Updates(w: Wire, story: Story, fs: seq<Bytes>) {
    || Subsequence(fs, story.published)
    || (fs != [] && fs[|fs| - 1] == FrameOf(w.shutdown) && Subsequence(fs[..|fs| - 1], story.published))
  }

  predicate Legal(w: Wire, story: Story, fs: seq<Bytes>) {
    || fs <= Greeting(w, story)
    || (fs != [] && IsRefusal(w, fs[|fs| - 1]) && fs[..|fs| - 1] in {[], Greeting(w, story)})
    || (story.initial.Some? && Opening(w, story) <= fs && Updates(w, story, fs[|Opening(w, story)|..]))
  }

  // ---- what is queued ---------------------------------------------------------

  function Waiting(c: Option<Cursor>): (fs: seq<Bytes>) {
    if c.Some? then [c.value.bytes] else []
  }

  /** The started part of the current frame is exactly what follows the last LF sent. */
  predicate Started(partial: Bytes, m: Machine) {
    partial == if m.output.Some? && m.output.value.offset <= |m.output.value.bytes|
               then m.output.value.bytes[..m.output.value.offset] else []
  }

  predicate Unopened(story: Story) {
    story.initial.None? && story.published == []
  }

  predicate Subscribed(w: Wire, done: seq<Bytes>, story: Story, m: Machine) {
    && story.initial.Some?
    && var opening := Opening(w, story);
       var all := done + Waiting(m.output) + Waiting(m.latest);
       && opening <= all
       && (if m.output.Some? && m.output.value.kind.InitialState? then |done| == |opening| - 1 else |opening| <= |done|)
       && if m.shuttingDown then Updates(w, story, all[|opening|..])
          else
            && Subsequence(all[|opening|..], story.published)
            && (story.published != [] ==> all != opening && all[|all| - 1] == story.published[|story.published| - 1])
  }

  ghost predicate OutputShape(w: Wire, done: seq<Bytes>, partial: Bytes, story: Story, m: Machine) {
    match m.phase
    case AwaitHello => done == [] && partial == [] && story.replies == [] && Unopened(story)
    case SendingHello =>
      && done == [] && story.replies == [] && Unopened(story) && Started(partial, m)
      && Waiting(m.output) == [FrameOf(w.hello)]
    case Ready => done + Waiting(m.output) == Greeting(w, story) && Unopened(story) && Started(partial, m)
    case Subscriber => Subscribed(w, done, story, m) && Started(partial, m)
    case CloseAfterReply => Legal(w, story, done + Waiting(m.output)) && Started(partial, m)
    case Closing =>
      || (partial == [] && Legal(w, story, done))
      || exists f :: partial <= f && Legal(w, story, done + [f])
  }

  ghost predicate OutputInv(w: Wire, log: Log, m: Machine) {
    OutputShape(w, Complete(log.sent), Partial(log.sent), log.story, m)
  }

  /** What is sent and under way is legal, so closing at any moment leaves a legal stream. */
  lemma PlanLegal(w: Wire, done: seq<Bytes>, partial: Bytes, story: Story, m: Machine)
    requires WellFormed(m) && !m.phase.Closing? && OutputShape(w, done, partial, story, m)
    ensures Legal(w, story, done + Waiting(m.output)) && Started(partial, m)
  {
    match m.phase
    case AwaitHello => assert done + [] == [];
    case SendingHello => assert done + Waiting(m.output) == Greeting(w, story);
    case Ready =>
    case CloseAfterReply =>
    case Subscriber => SubscriberLegal(w, done, story, m);
  }

  lemma SubscriberLegal(w: Wire, done: seq<Bytes>, story: Story, m: Machine)
    requires Subscribed(w, done, story, m)
    ensures Legal(w, story, done + Waiting(m.output))
  {
    var opening, now := Opening(w, story), done + Waiting(m.output);
    var all := now + Waiting(m.latest);
    assert all[..|opening|] == now[..|opening|];
    if m.latest.Some? {
      var e := all[|opening|..];
      assert now[|opening|..] == e[..|e| - 1];
      if Subsequence(e, story.published) {
        SubsequenceShorter(e, story.published);
      }
    } else {
      assert all == now;
    }
  }

  lemma ShutOutput(w: Wire, done: seq<Bytes>, partial: Bytes, story: Story, m: Machine)
    requires WellFormed(m) && OutputShape(w, done, partial, story, m)
    ensures OutputShape(w, done, partial, story, Shut(m))
  {
    if !m.phase.Closing? {
      PlanLegal(w, done, partial, story, m);
      if m.output.Some? {
        assert partial <= m.output.value.bytes;
      } else {
        assert done + [] == done;
      }
    }
  }

  // ---- every operation keeps the outgoing stream in order ----------------------

  lemma SentPart(sent: Bytes, frame: Bytes, offset: nat, end: nat)
    requires IsFrame(frame) && offset <= end < |frame| && Partial(sent) == frame[..offset]
    ensures Complete(sent + frame[offset..end]) == Complete(sent)
    ensures Partial(sent + frame[offset..end]) == frame[..end]
  {
    var chunk := frame[offset..end];
    assert chunk == frame[..|frame| - 1][offset..end];
    SplitText(sent, chunk);
    assert frame[..offset] + chunk == frame[..end];
  }

  lemma TailIsFrame(frame: Bytes, offset: nat)
    requires IsFrame(frame) && offset < |frame|
    ensures IsFrame(frame[offset..])
  {
    var chunk := frame[offset..];
    assert chunk[..|chunk| - 1] == frame[..|frame| - 1][offset..];
  }

  lemma SentRest(sent: Bytes, frame: Bytes, offset: nat)
    requires IsFrame(frame) && offset < |frame| && Partial(sent) == frame[..offset]
    ensures Complete(sent + frame[offset..]) == Complete(sent) + [frame] && Partial(sent + frame[offset..]) == []
  {
    var chunk := frame[offset..];
    TailIsFrame(frame, offset);
    assert frame[..offset] + chunk == frame;
    SplitFrameEnd(sent, chunk);
  }

  lemma SentSplit(sent: Bytes, c: Cursor, count: nat)
    requires c.WellFormed() && Partial(sent) == c.bytes[..c.offset] && c.offset + count <= |c.bytes|
    ensures var after := sent + c.bytes[c.offset..][..count];
            if c.offset + count < |c.bytes|
            then Complete(after) == Complete(sent) && Partial(after) == c.bytes[..c.offset + count]
            else Complete(after) == Complete(sent) + [c.bytes] && Partial(after) == []
  {
    var end := c.offset + count;
    assert c.bytes[c.offset..][..count] == c.bytes[c.offset..end];
    if end < |c.bytes| {
      SentPart(sent, c.bytes, c.offset, end);
    } else {
      assert c.bytes[c.offset..end] == c.bytes[c.offset..];
      SentRest(sent, c.bytes, c.offset);
    }
  }

  lemma StartedOutput(w: Wire, done: seq<Bytes>, partial: Bytes, story: Story, m: Machine, m': Machine)
    requires WellFormed(m) && m.output.Some? && m'.output.Some? && OutputShape(w, done, partial, story, m)
    requires m'.output.value.bytes == m.output.value.bytes && m'.output.value.kind == m.output.value.kind
    requires m'.phase == m.phase && m'.latest == m.latest && m'.shuttingDown == m.shuttingDown
    requires m'.output.value.offset <= |m'.output.value.bytes|
    ensures OutputShape(w, done, m'.output.value.bytes[..m'.output.value.offset], story, m')
  {
    match m.phase
    case SendingHello =>
    case Ready =>
    case Subscriber => assert Subscribed(w, done, story, m');
    case CloseAfterReply =>
  }

  lemma SubscriberFinish(w: Wire, done: seq<Bytes>, story: Story, m: Machine, now: Instant)
    requires WellFormed(m) && m.phase.Subscriber? && m.output.Some? && Subscribed(w, done, story, m)
    requires m.output.value.kind in {InitialState, State}
    ensures OutputShape(w, done + [m.output.value.bytes], [], story, FinishSubscriberOutput(Emptied(m), now).machine)
  {
    var done' := done + [m.output.value.bytes];
    if m.latest.Some? || !m.shuttingDown {
      var m' := FinishSubscriberOutput(Emptied(m), now).machine;
      assert done' + Waiting(m'.output) + Waiting(m'.latest) == done + Waiting(m.output) + Waiting(m.latest);
    } else {
      SubscriberLegal(w, done, story, m);
    }
  }

  lemma FinishOutput(w: Wire, done: seq<Bytes>, partial: Bytes, story: Story, m: Machine, now: Instant)
    requires WellFormed(m) && m.output.Some? && OutputShape(w, done, partial, story, m)
    ensures OutputShape(w, done + [m.output.value.bytes], [], story,
                        Finish(w, Emptied(m), now, m.output.value.kind).machine)
  {
    PlanLegal(w, done, partial, story, m);
    var done' := done + [m.output.value.bytes];
    assert done' + [] == done';
    match m.phase
    case SendingHello =>
      assert done' == Greeting(w, story);
      HelloOutput(w, done', story, Emptied(m), now);
    case Ready =>
    case Subscriber =>
      if m.output.value.kind != Shutdown {
        SubscriberFinish(w, done, story, m, now);
      }
    case CloseAfterReply =>
  }

  /** With nothing in flight a refusal may follow, and nothing after it. */
  lemma RefusalOutput(w: Wire, done: seq<Bytes>, story: Story, m: Machine, now: Instant, refusal: Refusal)
    requires done == [] || done == Greeting(w, story)
    ensures OutputShape(w, done, [], story, QueueRefusal(w, m, now, refusal))
  {
    RefusalLegal(w, done, story, refusal);
    var m' := QueueRefusal(w, m, now, refusal);
    if !m'.phase.Closing? {
      assert Waiting(m'.output) == [FrameOf(w.refusal(refusal))];
    }
  }

  lemma RefusalLegal(w: Wire, done: seq<Bytes>, story: Story, refusal: Refusal)
    requires done == [] || done == Greeting(w, story)
    ensures Legal(w, story, done) && Legal(w, story, done + [FrameOf(w.refusal(refusal))])
  {
    assert (done + [FrameOf(w.refusal(refusal))])[..|done|] == done;
    assert done <= Greeting(w, story);
  }

  lemma HelloOutput(w: Wire, done: seq<Bytes>, story: Story, m: Machine, now: Instant)
    requires done == Greeting(w, story) && Unopened(story) && m.output.None?
    ensures OutputShape(w, done, [], story, FinishHello(w, m, now).machine)
  {
    assert done + [] == done;
    match m.retained
    case Some(Refused(refusal)) => RefusalOutput(w, done, story, m.(phase := Ready, retained := None), now, refusal);
    case _ =>
  }

  lemma HelloQueued(w: Wire, story: Story, m: Machine, now: Instant, matches: bool)
    requires story.replies == [] && Unopened(story)
    ensures OutputShape(w, [], [], story, QueueHello(w, m, now, matches).machine)
  {
    assert [] + [FrameOf(w.hello)] == Greeting(w, story);
    assert [] <= Greeting(w, story);
  }

  lemma AwaitFrameOutput(w: Wire, story: Story, m: Machine, now: Instant, decoded: Decoded, last: bool)
    requires m.phase.AwaitHello? && m.output.None? && story.replies == [] && Unopened(story)
    ensures OutputShape(w, [], [], story, After(Act(w, m, now, decoded, last)).machine)
  {
    match decoded
    case Invalid => assert [] <= Greeting(w, story);
    case ValidNonRequest => RefusalOutput(w, [], story, m, now, InvalidRequest);
    case Valid(request) =>
      if request.Hello? {
        HelloQueued(w, story, m, now, request.version == PROTOCOL_VERSION);
      } else {
        RefusalOutput(w, [], story, m, now, ExpectedHello);
      }
  }

  lemma ReadyFrameOutput(w: Wire, done: seq<Bytes>, story: Story, m: Machine, now: Instant, decoded: Decoded, last: bool)
    requires m.phase.Ready? && m.output.None? && done == Greeting(w, story) && Unopened(story)
    ensures OutputShape(w, done, [], story, After(Act(w, m, now, decoded, last)).machine)
  {
    assert done + [] == done;
    match decoded
    case Invalid =>
    case ValidNonRequest => RefusalOutput(w, done, story, m, now, InvalidRequest);
    case Valid(request) =>
      if request.Hello? {
        RefusalOutput(w, done, story, m, now, DuplicateHello);
      }
  }

  lemma OnByteOutput(w: Wire, done: seq<Bytes>, partial: Bytes, story: Story, m: Machine, now: Instant, b: Byte, last: bool)
    requires WellFormed(m) && Reading(m) && OutputShape(w, done, partial, story, m)
    ensures OutputShape(w, done, partial, story, After(OnByte(w, m, now, b, last)).machine)
  {
    ShutOutput(w, done, partial, story, m);
    if !(m.phase.SendingHello? && m.retained.Some?) && b == LF {
      var m1 := StartPartial(m, now).(input := [], partialDeadline := None);
      match m.phase
      case AwaitHello => AwaitFrameOutput(w, story, m1, now, w.decode(m.input + [b]), last);
      case SendingHello =>
      case Ready =>
        assert done + [] == done;
        ReadyFrameOutput(w, done, story, m1, now, w.decode(m.input + [b]), last);
    }
  }

  lemma {:induction false} FeedOutput(w: Wire, done: seq<Bytes>, partial: Bytes, story: Story, m: Machine, now: Instant, bytes: Bytes)
    requires WellFormed(m) && Reading(m) && OutputShape(w, done, partial, story, m)
    ensures OutputShape(w, done, partial, story, Feed(w, m, now, bytes).machine)
    decreases |bytes|
  {
    if bytes != [] {
      OnByteKeeps(w, m, now, bytes[0], |bytes| == 1);
      OnByteOutput(w, done, partial, story, m, now, bytes[0], |bytes| == 1);
      match OnByte(w, m, now, bytes[0], |bytes| == 1)
      case Halt(_) =>
      case Go(m') => FeedOutput(w, done, partial, story, m', now, bytes[1..]);
    }
  }

  lemma RespondOutput(w: Wire, done: seq<Bytes>, partial: Bytes, story: Story, m: Machine, now: Instant, response: Text)
    requires WellFormed(m) && OutputShape(w, done, partial, story, m)
    requires m.requestPending && !m.pendingSubscribe && |response| < MAX_FRAME_BYTES
    ensures OutputShape(w, done, partial, story.(replies := story.replies + [FrameOf(response)]),
                        CompleteRequest(m, now, response).machine)
  {
    assert done + [] == done;
    assert Greeting(w, story) + [FrameOf(response)] ==
           Greeting(w, story.(replies := story.replies + [FrameOf(response)]));
  }

  lemma SubscribeOutput(w: Wire, done: seq<Bytes>, partial: Bytes, story: Story, m: Machine, now: Instant, state: Text)
    requires WellFormed(m) && OutputShape(w, done, partial, story, m)
    requires m.requestPending && m.pendingSubscribe && |state| < MAX_FRAME_BYTES
    ensures OutputShape(w, done, partial, story.(initial := Some(FrameOf(state))), CompleteSubscribe(m, now, state).machine)
  {
    assert done + [] == done;
    var m' := CompleteSubscribe(m, now, state).machine;
    var story' := story.(initial := Some(FrameOf(state)));
    assert Greeting(w, story') == Greeting(w, story);
    assert done + Waiting(m'.output) + Waiting(m'.latest) == Opening(w, story');
  }

  /** Replacing what follows `kept` by a newer state keeps the order. */
  lemma Coalesce(opening: seq<Bytes>, kept: seq<Bytes>, all: seq<Bytes>, published: seq<Bytes>, frame: Bytes)
    requires opening <= all && |opening| <= |kept| && kept <= all && Subsequence(all[|opening|..], published)
    ensures opening <= kept && Subsequence(kept[|opening|..], published)
    ensures opening <= kept + [frame] && Subsequence((kept + [frame])[|opening|..], published + [frame])
  {
    ShorterUpdates(all[|opening|..], published, |kept| - |opening|);
    assert kept[|opening|..] == all[|opening|..][..|kept| - |opening|];
    SubsequenceLater(kept[|opening|..], published, frame);
    assert (kept + [frame])[|opening|..] == kept[|opening|..] + [frame];
  }

  lemma PublishOutput(w: Wire, done: seq<Bytes>, partial: Bytes, story: Story, m: Machine, now: Instant, frame: Bytes)
    requires WellFormed(m) && OutputShape(w, done, partial, story, m)
    requires m.phase.Subscriber? && !m.shuttingDown && IsFrame(frame) && |frame| <= MAX_FRAME_BYTES
    ensures OutputShape(w, done, partial, story.(published := story.published + [frame]), PublishState(m, now, frame).machine)
  {
    PublishSubscribed(w, done, story, m, now, frame);
  }

  lemma PublishSubscribed(w: Wire, done: seq<Bytes>, story: Story, m: Machine, now: Instant, frame: Bytes)
    requires WellFormed(m) && Subscribed(w, done, story, m)
    requires m.phase.Subscriber? && !m.shuttingDown && IsFrame(frame) && |frame| <= MAX_FRAME_BYTES
    ensures Subscribed(w, done, story.(published := story.published + [frame]), PublishState(m, now, frame).machine)
  {
    var m' := PublishState(m, now, frame).machine;
    var kept := done + Waiting(m.output);
    assert done + Waiting(m'.output) + Waiting(m'.latest) == kept + [frame];
    Coalesce(Opening(w, story), kept, kept + Waiting(m.latest), story.published, frame);
  }

  /** The shutdown event is put last, in place of what had not been started, or the frame in flight
      is left to be the last. */
  predicate Announces(w: Wire, m: Machine, m': Machine) {
    && m'.shuttingDown
    && if m'.output == m.output then m.output.Some? && Waiting(m'.latest) in {[], [FrameOf(w.shutdown)]}
       else
         && (m.output.Some? ==> !m.output.value.kind.InitialState?)
         && Waiting(m'.output) == [FrameOf(w.shutdown)] && m'.latest.None? && m'.output.value.kind.Shutdown?
  }

  lemma ShutdownAnnounces(w: Wire, m: Machine, now: Instant)
    requires WellFormed(m) && m.phase.Subscriber? && !m.shuttingDown && |w.shutdown| < MAX_FRAME_BYTES
    ensures Announces(w, m, BeginShutdown(w, m, now).machine)
  {}

  lemma ShutdownSubscribed(w: Wire, done: seq<Bytes>, story: Story, m: Machine, m': Machine)
    requires Subscribed(w, done, story, m) && !m.shuttingDown && Announces(w, m, m')
    requires m.latest.Some? ==> m.output.Some?
    ensures Subscribed(w, done, story, m')
  {
    var opening, all := Opening(w, story), done + Waiting(m.output) + Waiting(m.latest);
    var kept := if m'.output == m.output then done + Waiting(m.output) else done;
    Coalesce(opening, kept, all, story.published, FrameOf(w.shutdown));
    EndsInEvent(w, story, opening, kept);
    var all' := done + Waiting(m'.output) + Waiting(m'.latest);
    assert all' == kept || all' == kept + [FrameOf(w.shutdown)];
  }

  lemma ShutdownOutput(w: Wire, done: seq<Bytes>, partial: Bytes, story: Story, m: Machine, now: Instant)
    requires WellFormed(m) && OutputShape(w, done, partial, story, m) && m.phase.Subscriber? && !m.shuttingDown
    ensures OutputShape(w, done, partial, story, BeginShutdown(w, m, now).machine)
  {
    if |w.shutdown| < MAX_FRAME_BYTES {
      ShutdownAnnounces(w, m, now);
      ShutdownSubscribed(w, done, story, m, BeginShutdown(w, m, now).machine);
    } else {
      ShutOutput(w, done, partial, story, m);
    }
  }

  lemma EndsInEvent(w: Wire, story: Story, opening: seq<Bytes>, kept: seq<Bytes>)
    requires opening <= kept && Subsequence(kept[|opening|..], story.published)
    ensures Updates(w, story, (kept + [FrameOf(w.shutdown)])[|opening|..])
  {
    var e := (kept + [FrameOf(w.shutdown)])[|opening|..];
    assert e[..|e| - 1] == kept[|opening|..];
  }

  lemma {:induction false} ShorterUpdates(e: seq<Bytes>, published: seq<Bytes>, n: nat)
    requires Subsequence(e, published) && n <= |e|
    ensures Subsequence(e[..n], published)
    decreases |e|
  {
    if n < |e| {
      SubsequenceShorter(e, published);
      ShorterUpdates(e[..|e| - 1], published, n);
      assert e[..|e| - 1][..n] == e[..n];
    } else {
      assert e[..n] == e;
    }
  }

  lemma ReadEvent(w: Wire, done: seq<Bytes>, partial: Bytes, story: Story, m: Machine, now: Instant, bytes: Bytes)
    requires WellFormed(m) && OutputShape(w, done, partial, story, m) && Allowed(m, Read(bytes))
    ensures OutputShape(w, done, partial, story, Ingest(w, m, now, bytes).machine)
  {
    if Reading(m) {
      FeedOutput(w, done, partial, story, m, now, bytes);
    } else {
      ShutOutput(w, done, partial, story, m);
    }
  }

  lemma CompletionEvent(w: Wire, done: seq<Bytes>, partial: Bytes, story: Story, m: Machine, now: Instant, e: Event)
    requires WellFormed(m) && OutputShape(w, done, partial, story, m) && (e.Respond? || e.AcceptSubscriber?)
    ensures var n := Step(w, m, now, e); OutputShape(w, done, partial, Told(story, m, n, e), n.machine)
  {
    if e.Respond? {
      if m.requestPending && !m.pendingSubscribe && |e.response| < MAX_FRAME_BYTES {
        RespondOutput(w, done, partial, story, m, now, e.response);
      }
    } else if m.requestPending && m.pendingSubscribe && |e.state| < MAX_FRAME_BYTES {
      SubscribeOutput(w, done, partial, story, m, now, e.state);
    }
  }

  lemma PublishEvent(w: Wire, done: seq<Bytes>, partial: Bytes, story: Story, m: Machine, now: Instant, frame: Bytes)
    requires WellFormed(m) && OutputShape(w, done, partial, story, m) && IsFrame(frame)
    ensures var n := PublishState(m, now, frame);
            OutputShape(w, done, partial, Told(story, m, n, Publish(frame)), n.machine)
  {
    if m.phase.Subscriber? && !m.shuttingDown {
      if |frame| <= MAX_FRAME_BYTES {
        PublishOutput(w, done, partial, story, m, now, frame);
      } else {
        ShutOutput(w, done, partial, story, m);
      }
    }
  }

  lemma ShutdownEvent(w: Wire, done: seq<Bytes>, partial: Bytes, story: Story, m: Machine, now: Instant)
    requires WellFormed(m) && OutputShape(w, done, partial, story, m)
    ensures OutputShape(w, done, partial, story, BeginShutdown(w, m, now).machine)
  {
    if m.phase.Subscriber? && !m.shuttingDown {
      ShutdownOutput(w, done, partial, story, m, now);
    } else {
      ShutOutput(w, done, partial, story, m);
    }
  }

  lemma EofEvent(w: Wire, done: seq<Bytes>, partial: Bytes, story: Story, m: Machine)
    requires WellFormed(m) && OutputShape(w, done, partial, story, m)
    ensures OutputShape(w, done, partial, story, ReadEof(m).machine)
  {
    ShutOutput(w, done, partial, story, m);
    assert ReadEof(m).machine == m.(readHalfClosed := true) || ReadEof(m).machine.phase.Closing? || ReadEof(m).machine == m;
  }

  /** The operations that send nothing. */
  lemma QuietOutput(w: Wire, done: seq<Bytes>, partial: Bytes, story: Story, m: Machine, now: Instant, e: Event)
    requires WellFormed(m) && OutputShape(w, done, partial, story, m) && Allowed(m, e) && !e.Sent?
    ensures var n := Step(w, m, now, e); OutputShape(w, done, partial, Told(story, m, n, e), n.machine)
  {
    match e
    case Read(bytes) => ReadEvent(w, done, partial, story, m, now, bytes);
    case Respond(_) => CompletionEvent(w, done, partial, story, m, now, e);
    case AcceptSubscriber(_) => CompletionEvent(w, done, partial, story, m, now, e);
    case Publish(frame) => PublishEvent(w, done, partial, story, m, now, frame);
    case StartShutdown => ShutdownEvent(w, done, partial, story, m, now);
    case Eof => EofEvent(w, done, partial, story, m);
    case Tick => ShutOutput(w, done, partial, story, m);
  }

  lemma SentOutput(w: Wire, sent: Bytes, story: Story, m: Machine, now: Instant, count: nat)
    requires WellFormed(m) && OutputShape(w, Complete(sent), Partial(sent), story, m)
    requires m.output.Some? && Allowed(m, Sent(count))
    ensures var sent' := sent + Remaining(m)[..count];
            OutputShape(w, Complete(sent'), Partial(sent'), story, AdvanceOutput(w, m, now, count).machine)
  {
    var done, partial, c := Complete(sent), Partial(sent), m.output.value;
    PlanLegal(w, done, partial, story, m);
    SentSplit(sent, c, count);
    if c.offset + count == |c.bytes| {
      FinishOutput(w, done, partial, story, m, now);
    } else {
      StartedOutput(w, done, partial, story, m, AdvanceOutput(w, m, now, count).machine);
    }
  }

  lemma StepOutput(w: Wire, log: Log, m: Machine, now: Instant, e: Event)
    requires WellFormed(m) && OutputInv(w, log, m) && Allowed(m, e)
    ensures OutputInv(w, Observe(w, log, m, now, e), Step(w, m, now, e).machine)
  {
    if !e.Sent? {
      QuietOutput(w, Complete(log.sent), Partial(log.sent), log.story, m, now, e);
    } else if m.output.Some? {
      SentOutput(w, log.sent, log.story, m, now, e.count);
    } else {
      assert log.sent + [] == log.sent;
    }
  }
}
