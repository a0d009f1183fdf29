/** What holds of every run of one connection. */
module ConnectionTheorems {
  import opened Optional
  import opened Frames
  import opened Protocol
  import opened ConnectionRuns
  import opened ConnectionStreams
  import opened ConnectionOutput

  function Completions(story: Story): (n: nat) {
    |story.replies| + if story.initial.Some? then 1 else 0
  }

  /** Requests out and completions in differ by the one that is pending. */
  predicate CountInv(log: Log, m: Machine) {
    if m.phase.Closing? then Completions(log.story) <= |log.emitted| <= Completions(log.story) + 1
    else |log.emitted| == Completions(log.story) + if m.requestPending then 1 else 0
  }

  lemma {:induction false} FeedCount(w: Wire, m: Machine, now: Instant, bytes: Bytes)
    requires WellFormed(m) && Reading(m)
    ensures var n := Feed(w, m, now, bytes);
            !n.machine.phase.Closing? ==> (n.action.Emit? <==> n.machine.requestPending)
    ensures Feed(w, m, now, bytes).machine.phase.Closing? ==> !Feed(w, m, now, bytes).action.Emit?
    decreases |bytes|
  {
    if bytes != [] {
      OnByteKeeps(w, m, now, bytes[0], |bytes| == 1);
      match OnByte(w, m, now, bytes[0], |bytes| == 1)
      case Halt(_) =>
      case Go(m') => FeedCount(w, m', now, bytes[1..]);
    }
  }

  /** How one step moves the two counts. */
  lemma StepCount(w: Wire, story: Story, m: Machine, now: Instant, e: Event)
    requires WellFormed(m) && Allowed(m, e)
    requires m.phase in {AwaitHello, SendingHello, Ready} ==> story.initial.None?
    ensures var n := Step(w, m, now, e);
            var gained := if n.action.Emit? then 1 else 0;
            var done := Completions(Told(story, m, n, e)) - Completions(story);
            && 0 <= done <= gained + (if m.requestPending then 1 else 0)
            && (n.machine.phase.Closing? ==> gained == 0 && done == 0)
            && (!n.machine.phase.Closing? ==>
                  gained - done == (if n.machine.requestPending then 1 else 0) - (if m.requestPending then 1 else 0))
  {
    match e
    case Read(bytes) => if Reading(m) { FeedCount(w, m, now, bytes); }
    case Sent(count) => SentCount(w, m, now, count);
    case StartShutdown => ShutdownCount(w, m, now);
    case _ =>
  }

  lemma ShutdownCount(w: Wire, m: Machine, now: Instant)
    ensures var n := BeginShutdown(w, m, now);
            !n.action.Emit? && (!n.machine.phase.Closing? ==> n.machine.requestPending == m.requestPending)
  {}

  lemma SentCount(w: Wire, m: Machine, now: Instant, count: nat)
    requires WellFormed(m) && count <= |Remaining(m)|
    ensures var n := AdvanceOutput(w, m, now, count);
            if n.machine.phase.Closing? then !n.action.Emit?
            else if n.action.Emit? then n.machine.requestPending && !m.requestPending
            else n.machine.requestPending == m.requestPending
  {
    if m.output.Some? {
      match m.phase
      case SendingHello =>
      case Ready =>
      case Subscriber =>
      case CloseAfterReply =>
    }
  }

  /** The Hello reply is the first thing sent, and complete before the first request goes out. */
  predicate HelloInv(w: Wire, log: Log, m: Machine) {
    log.emitted != [] || m.phase in {Ready, Subscriber} ==> [FrameOf(w.hello)] <= Complete(log.sent)
  }

  ghost predicate RunInv(w: Wire, c: Conf) {
    && WellFormed(c.machine)
    && InputInv(w, c.log, c.machine)
    && OutputInv(w, c.log, c.machine)
    && CountInv(c.log, c.machine)
    && HelloInv(w, c.log, c.machine)
  }

  lemma RefusalEnds(w: Wire, m: Machine, now: Instant, refusal: Refusal)
    ensures QueueRefusal(w, m, now, refusal).phase in {CloseAfterReply, Closing}
  {}

  lemma ActStays(w: Wire, m: Machine, now: Instant, decoded: Decoded, last: bool)
    requires m.phase in {AwaitHello, SendingHello}
    ensures var n := After(Act(w, m, now, decoded, last)); !n.action.Emit? && n.machine.phase !in {Ready, Subscriber}
    ensures Act(w, m, now, decoded, last).Go? ==> Act(w, m, now, decoded, last).machine.phase == SendingHello
  {
    if m.phase.AwaitHello? {
      RefusalEnds(w, m, now, InvalidRequest);
      RefusalEnds(w, m, now, ExpectedHello);
    }
  }

  lemma OnByteStays(w: Wire, m: Machine, now: Instant, b: Byte, last: bool)
    requires m.phase in {AwaitHello, SendingHello}
    ensures var n := After(OnByte(w, m, now, b, last)); !n.action.Emit? && n.machine.phase !in {Ready, Subscriber}
    ensures OnByte(w, m, now, b, last).Go? ==> OnByte(w, m, now, b, last).machine.phase in {AwaitHello, SendingHello}
  {
    ActStays(w, StartPartial(m, now).(input := [], partialDeadline := None), now, w.decode(m.input + [b]), last);
  }

  lemma {:induction false} FeedStays(w: Wire, m: Machine, now: Instant, bytes: Bytes)
    requires m.phase in {AwaitHello, SendingHello}
    ensures var n := Feed(w, m, now, bytes); !n.action.Emit? && n.machine.phase !in {Ready, Subscriber}
    decreases |bytes|
  {
    if bytes != [] {
      OnByteStays(w, m, now, bytes[0], |bytes| == 1);
      match OnByte(w, m, now, bytes[0], |bytes| == 1)
      case Halt(_) =>
      case Go(m') => FeedStays(w, m', now, bytes[1..]);
    }
  }

  /** Only the last byte of the Hello reply makes a connection ready. */
  lemma BecomesReady(w: Wire, m: Machine, now: Instant, e: Event)
    requires WellFormed(m) && Allowed(m, e) && m.phase !in {Ready, Subscriber}
    ensures var n := Step(w, m, now, e);
            n.action.Emit? || n.machine.phase in {Ready, Subscriber} ==>
              m.phase.SendingHello? && e.Sent? && m.output.value.offset + e.count == |m.output.value.bytes|
  {
    if e.Read? && m.phase in {AwaitHello, SendingHello} {
      FeedStays(w, m, now, e.bytes);
    }
  }

  lemma HelloStep(w: Wire, log: Log, m: Machine, now: Instant, e: Event)
    requires WellFormed(m) && OutputInv(w, log, m) && HelloInv(w, log, m) && Allowed(m, e)
    ensures HelloInv(w, Observe(w, log, m, now, e), Step(w, m, now, e).machine)
  {
    var log' := Observe(w, log, m, now, e);
    assert Complete(log.sent) <= Complete(log'.sent) by {
      if e.Sent? {
        SplitGrows(log.sent, Remaining(m)[..e.count]);
      }
    }
    if m.phase !in {Ready, Subscriber} {
      BecomesReady(w, m, now, e);
      if m.phase.SendingHello? && e.Sent? {
        SentSplit(log.sent, m.output.value, e.count);
      }
    }
  }

  lemma CountStep(w: Wire, log: Log, m: Machine, now: Instant, e: Event)
    requires WellFormed(m) && OutputInv(w, log, m) && CountInv(log, m) && Allowed(m, e)
    ensures CountInv(Observe(w, log, m, now, e), Step(w, m, now, e).machine)
  {
    StepCount(w, log.story, m, now, e);
  }

  lemma RunStep(w: Wire, c: Conf, s: Stimulus)
    requires RunInv(w, c) && Allowed(c.machine, s.event)
    ensures RunInv(w, Advance(w, c, s))
  {
    StepKeeps(w, c.machine, s.now, s.event);
    StepInput(w, c.log, c.machine, s.now, s.event);
    StepOutput(w, c.log, c.machine, s.now, s.event);
    CountStep(w, c.log, c.machine, s.now, s.event);
    HelloStep(w, c.log, c.machine, s.now, s.event);
  }

  lemma {:induction false} RunKeeps(w: Wire, start: Instant, es: seq<Stimulus>)
    requires LegalRun(w, start, es)
    ensures RunInv(w, Run(w, start, es))
  {
    if es != [] {
      RunKeeps(w, start, es[..|es| - 1]);
      RunStep(w, Run(w, start, es[..|es| - 1]), es[|es| - 1]);
    }
  }

  lemma RunShape(w: Wire, start: Instant, es: seq<Stimulus>)
    requires LegalRun(w, start, es)
    ensures WellFormed(Run(w, start, es).machine)
  {
    RunKeeps(w, start, es);
  }

  // ---- the outgoing stream ------------------------------------------------------

  /** Every stream sent is whole frames of a legal conversation and a prefix of its next one. */
  lemma OutgoingStream(w: Wire, start: Instant, es: seq<Stimulus>)
    requires LegalRun(w, start, es)
    ensures var log := Run(w, start, es).log;
            var fs, partial := Complete(log.sent), Partial(log.sent);
            && log.sent == Concat(fs) + partial
            && ((partial == [] && Legal(w, log.story, fs))
                || exists f :: partial <= f && Legal(w, log.story, fs + [f]))
  {
    RunKeeps(w, start, es);
    var c := Run(w, start, es);
    SplitWhole(c.log.sent);
    ShutOutput(w, Complete(c.log.sent), Partial(c.log.sent), c.log.story, c.machine);
  }

  /** A ready connection with nothing in flight has sent every accepted response, in order. */
  lemma RepliesDelivered(w: Wire, start: Instant, es: seq<Stimulus>)
    requires LegalRun(w, start, es)
    ensures var c := Run(w, start, es);
            c.machine.phase.Ready? && c.machine.output.None? ==>
              c.log.sent == Concat([FrameOf(w.hello)] + c.log.story.replies)
  {
    RunKeeps(w, start, es);
    var c := Run(w, start, es);
    SplitWhole(c.log.sent);
    assert Complete(c.log.sent) + [] == Complete(c.log.sent);
    assert Concat(Complete(c.log.sent)) + [] == Concat(Complete(c.log.sent));
  }

  /** A drained subscriber that is not shutting down has been sent the newest state last. */
  lemma NewestStateDelivered(w: Wire, start: Instant, es: seq<Stimulus>)
    requires LegalRun(w, start, es)
    ensures var c := Run(w, start, es);
            var story, fs := c.log.story, Complete(c.log.sent);
            c.machine.phase.Subscriber? && c.machine.output.None? && !c.machine.shuttingDown ==>
              && story.initial.Some? && Partial(c.log.sent) == []
              && [FrameOf(w.hello)] + story.replies + [story.initial.value] <= fs
              && Subsequence(fs[|story.replies| + 2..], story.published)
              && fs[|fs| - 1] == (if story.published == [] then story.initial.value
                                  else story.published[|story.published| - 1])
  {
    RunKeeps(w, start, es);
    var c := Run(w, start, es);
    if c.machine.phase.Subscriber? && c.machine.output.None? && !c.machine.shuttingDown {
      DrainedSubscriber(w, Complete(c.log.sent), c.log.story, c.machine);
    }
  }

  lemma DrainedSubscriber(w: Wire, fs: seq<Bytes>, story: Story, m: Machine)
    requires Subscribed(w, fs, story, m) && m.output.None? && m.latest.None? && !m.shuttingDown
    ensures [FrameOf(w.hello)] + story.replies + [story.initial.value] <= fs
    ensures Subsequence(fs[|story.replies| + 2..], story.published)
    ensures fs[|fs| - 1] == (if story.published == [] then story.initial.value
                             else story.published[|story.published| - 1])
  {
    assert fs + [] + [] == fs;
  }

  // ---- requests -------------------------------------------------------------------

  /** No request leaves before a matching Hello came in and its reply went out whole; the requests
      are exactly what the following frames decode to, and at most one awaits its completion. */
  lemma RequestsInOrder(w: Wire, start: Instant, es: seq<Stimulus>)
    requires LegalRun(w, start, es)
    ensures var c := Run(w, start, es);
            && (c.log.emitted != [] ==>
                  && [FrameOf(w.hello)] <= Complete(c.log.sent)
                  && Matches(w, Complete(c.log.received), c.log.emitted))
            && Completions(c.log.story) <= |c.log.emitted| <= Completions(c.log.story) + 1
            && (!c.machine.phase.Closing? ==>
                  (c.machine.requestPending <==> |c.log.emitted| == Completions(c.log.story) + 1))
  {
    RunKeeps(w, start, es);
  }

  /** On a live connection every complete frame after the Hello has been handed over or is retained. */
  lemma NothingLost(w: Wire, start: Instant, es: seq<Stimulus>)
    requires LegalRun(w, start, es)
    ensures var c := Run(w, start, es);
            c.machine.phase in {SendingHello, Ready, Subscriber} ==>
              && |Complete(c.log.received)| ==
                   1 + |c.log.emitted| + (if c.machine.retained.Some? then 1 else 0)
              && c.log.received == Concat(Complete(c.log.received)) + c.machine.input
  {
    RunKeeps(w, start, es);
    SplitWhole(Run(w, start, es).log.received);
  }

  /** A half-closed ready connection is kept only for work it owes. */
  lemma HalfClosedOwesWork(w: Wire, start: Instant, es: seq<Stimulus>)
    requires LegalRun(w, start, es)
    ensures var m := Run(w, start, es).machine;
            m.phase.Ready? && m.readHalfClosed ==> m.requestPending || m.output.Some?
  {
    RunKeeps(w, start, es);
  }

  /** The one request that may still come after end of file: the retained one. */
  function Credit(m: Machine): (n: nat) {
    if m.phase.SendingHello? && m.retained.Some? && m.retained.value.Pipelined? then 1 else 0
  }

  lemma CreditStep(w: Wire, m: Machine, now: Instant, e: Event)
    requires WellFormed(m) && m.readHalfClosed && Allowed(m, e)
    ensures var n := Step(w, m, now, e);
            n.machine.readHalfClosed && Credit(n.machine) + (if n.action.Emit? then 1 else 0) <= Credit(m)
  {
    match e
    case Sent(count) =>
      if m.output.Some? && m.output.value.offset + count == |m.output.value.bytes| {
        FinishCredit(w, m, now);
      }
    case StartShutdown =>
      assert Credit(Step(w, m, now, e).machine) <= Credit(m);
    case _ =>
  }

  lemma FinishCredit(w: Wire, m: Machine, now: Instant)
    requires WellFormed(m) && m.readHalfClosed && m.output.Some?
    ensures var n := Finish(w, Emptied(m), now, m.output.value.kind);
            n.machine.readHalfClosed && Credit(n.machine) + (if n.action.Emit? then 1 else 0) <= Credit(m)
  {
    match m.phase
    case SendingHello =>
    case Ready =>
    case Subscriber =>
    case CloseAfterReply =>
  }

  lemma {:induction false} CreditRun(w: Wire, start: Instant, es: seq<Stimulus>, k: nat)
    requires LegalRun(w, start, es) && k <= |es|
    requires Run(w, start, es[..k]).machine.readHalfClosed
    ensures var before, after := Run(w, start, es[..k]), Run(w, start, es);
            && after.machine.readHalfClosed
            && |after.log.emitted| + Credit(after.machine) <= |before.log.emitted| + Credit(before.machine)
    decreases |es|
  {
    if k == |es| {
      assert es[..k] == es;
    } else {
      var p := es[..|es| - 1];
      assert p[..k] == es[..k];
      CreditRun(w, start, p, k);
      RunShape(w, start, p);
      CreditStep(w, Run(w, start, p).machine, es[|es| - 1].now, es[|es| - 1].event);
    }
  }

  /** After end of file at most one more request is emitted. */
  lemma OneRequestAfterEof(w: Wire, start: Instant, es: seq<Stimulus>, k: nat)
    requires LegalRun(w, start, es) && k <= |es|
    requires Run(w, start, es[..k]).machine.readHalfClosed
    ensures |Run(w, start, es).log.emitted| <= |Run(w, start, es[..k]).log.emitted| + 1
  {
    CreditRun(w, start, es, k);
  }

  // ---- the reports -------------------------------------------------------------------

  lemma {:induction false} FeedReports(w: Wire, m: Machine, now: Instant, bytes: Bytes)
    requires w.Fits() && WellFormed(m) && Reading(m)
    ensures Feed(w, m, now, bytes).machine.phase.Closing? <==> Feed(w, m, now, bytes).action.Close?
    decreases |bytes|
  {
    if bytes != [] {
      OnByteKeeps(w, m, now, bytes[0], |bytes| == 1);
      match OnByte(w, m, now, bytes[0], |bytes| == 1)
      case Halt(_) =>
      case Go(m') => FeedReports(w, m', now, bytes[1..]);
    }
  }

  /** When the fixed replies fit, the caller hears of every close. */
  lemma ClosingIsReported(w: Wire, m: Machine, now: Instant, e: Event)
    requires w.Fits() && WellFormed(m) && !m.phase.Closing? && Allowed(m, e)
    ensures Step(w, m, now, e).machine.phase.Closing? <==> Step(w, m, now, e).action.Close?
  {
    match e
    case Read(bytes) => if Reading(m) { FeedReports(w, m, now, bytes); }
    case Sent(count) => SentReports(w, m, now, count);
    case StartShutdown => assert BeginShutdown(w, m, now).machine.phase.Closing? <==> BeginShutdown(w, m, now).action.Close?;
    case _ =>
  }

  lemma SentReports(w: Wire, m: Machine, now: Instant, count: nat)
    requires w.Fits() && WellFormed(m) && !m.phase.Closing? && count <= |Remaining(m)|
    ensures AdvanceOutput(w, m, now, count).machine.phase.Closing? <==> AdvanceOutput(w, m, now, count).action.Close?
  {
    if m.output.Some? {
      match m.phase
      case SendingHello =>
      case Ready =>
      case Subscriber =>
      case CloseAfterReply =>
    }
  }
}
