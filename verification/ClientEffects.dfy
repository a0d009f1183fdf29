/** What decides each call of the client: the first reply that is not merely a reason to try again. */
module ClientEffects {
  import opened Optional
  import opened Frames
  import opened ClientModel
  import opened ClientTheorems

  // ---- waiting -------------------------------------------------------------------------------

  /** An interruption in time: the client polls again. */
  predicate PollAgain(deadline: Option<Instant>, p: Poll) { !Late(deadline, p.before) && p.reply.PollInterrupted? }

  /** What any other reply comes to. */
  function PollDecides(deadline: Option<Instant>, p: Poll): (r: Outcome<()>)
    requires !PollAgain(deadline, p)
  {
    if Late(deadline, p.before) || p.reply.Expired? || (p.reply.Woken? && Late(deadline, p.reply.after)) then Failed(TimedOut)
    else if p.reply.PollBroken? then Failed(Broken)
    else Done(())
  }

  /** A wait is over exactly with the first reply that is no interruption in time, and that one decides. */
  lemma {:induction false} PollOutcome(deadline: Option<Instant>, polls: seq<Poll>, k: nat)
    requires k <= |polls| && (forall i :: 0 <= i < k ==> PollAgain(deadline, polls[i]))
    requires k < |polls| ==> !PollAgain(deadline, polls[k])
    ensures PollUntil(deadline, polls) == if k == |polls| then Waiting else PollDecides(deadline, polls[k])
    decreases |polls|
  {
    if k > 0 {
      assert PollAgain(deadline, polls[0]);
      forall i | 0 <= i < k - 1 ensures PollAgain(deadline, polls[1..][i]) {
        assert polls[1..][i] == polls[i + 1];
      }
      PollOutcome(deadline, polls[1..], k - 1);
    }
  }

  // ---- reading -----------------------------------------------------------------------------------

  /** The bytes can be kept: some, no more than one read asks for, no more than the buffer holds. */
  predicate Fits(rd: Reader, chunk: Bytes) {
    0 < |chunk| <= READ_CHUNK_BYTES && |rd.input| + |chunk| <= MAX_FRAME_BYTES
  }

  /** One attempt, reply by reply; nothing but bytes that fit changes the buffer. */
  lemma AttemptOutcome(rd: Reader, bound: Bound, a: Receive)
    requires ReaderInv(rd)
    ensures var (rd', outcome, got) := Attempt(rd, bound, a);
            var late := Late(if bound.Until? then Some(bound.deadline) else rd.partial, a.before);
            && (rd' != rd ==> got != []) && (got != [] <==> !late && a.reply.Got? && Fits(rd, a.reply.chunk))
            && (got != [] ==> got == a.reply.chunk && rd'.input == rd.input + got && outcome == Done(()))
            && (late ==> outcome == Failed(TimedOut))
            && (!late ==>
                  match a.reply
                  case Got(chunk, _) =>
                    outcome == (if chunk == [] then Failed(Ended) else if Fits(rd, chunk) then Done(()) else Failed(Broken))
                  case ReceiveInterrupted => outcome == Done(())
                  case NotReadable(polls) =>
                    outcome == PollUntil(if bound.Until? then Some(bound.deadline) else rd.partial, polls)
                  case ReceiveBroken => outcome == Failed(Broken))
  {}

  /** A subscription with nothing buffered waits without a deadline. */
  lemma IdleNeverLate(rd: Reader, now: Instant)
    requires ReaderInv(rd) && rd.input == []
    ensures !Late(Active(rd, OnSubscription), now)
  {}

  /** The reader after `k` attempts that all went well without completing a frame, if they did. */
  function Rounds(rd: Reader, bound: Bound, script: seq<Receive>, k: nat): (r: Option<Reader>)
    requires k <= |script|
    decreases k
  {
    if k == 0 then Some(rd)
    else if LF in rd.input || |rd.input| >= MAX_FRAME_BYTES then None
    else
      var (rd', outcome, _) := Attempt(rd, bound, script[0]);
      if outcome.Done? then Rounds(rd', bound, script[1..], k - 1) else None
  }

  /** What ends a call after those attempts: a frame, a full buffer, or the attempt that failed. */
  function ReadDecides(rd: Reader, bound: Bound, rest: seq<Receive>): (r: Option<Outcome<Bytes>>) {
    if LF in rd.input then Some(Done(rd.input[..NewlineAt(rd.input).value + 1]))
    else if |rd.input| >= MAX_FRAME_BYTES then Some(Failed(TooLarge))
    else if rest == [] then Some(Waiting)
    else
      var outcome := Attempt(rd, bound, rest[0]).1;
      if outcome.Done? then None else Some(Stopped(outcome))
  }

  /** A call goes on until one of these decides it, and then that is its outcome. */
  lemma {:induction false} ReadOutcome(rd: Reader, bound: Bound, script: seq<Receive>, k: nat)
    requires k <= |script| && Rounds(rd, bound, script, k).Some?
    requires ReadDecides(Rounds(rd, bound, script, k).value, bound, script[k..]).Some?
    ensures Read(rd, bound, script).outcome == ReadDecides(Rounds(rd, bound, script, k).value, bound, script[k..]).value
    decreases k
  {
    if k == 0 {
      assert script[0..] == script;
    } else {
      var rd' := Attempt(rd, bound, script[0]).0;
      assert script[1..][k - 1..] == script[k..];
      ReadOutcome(rd', bound, script[1..], k - 1);
    }
  }

  /** Some such number of attempts always decides. */
  lemma {:induction false} ReadDecided(rd: Reader, bound: Bound, script: seq<Receive>) returns (k: nat)
    ensures k <= |script| && Rounds(rd, bound, script, k).Some?
    ensures ReadDecides(Rounds(rd, bound, script, k).value, bound, script[k..]).Some?
    decreases |script|
  {
    k := 0;
    assert script[0..] == script;
    if ReadDecides(rd, bound, script).None? {
      var rd' := Attempt(rd, bound, script[0]).0;
      var j := ReadDecided(rd', bound, script[1..]);
      assert script[1..][j..] == script[j + 1..];
      k := j + 1;
    }
  }

  // ---- writing --------------------------------------------------------------------------------------

  /** The reply moves the write on or lets it try again. */
  predicate SendGoes(left: nat, deadline: Instant, s: Send) {
    && s.before < deadline
    && match s.reply
       case Took(count) => 0 < count <= left
       case SendInterrupted => true
       case NotWritable(polls) => PollUntil(Some(deadline), polls).Done?
       case SendBroken => false
  }

  function Took1(s: Send): (n: nat) { if s.reply.Took? then s.reply.count else 0 }

  /** What any other reply comes to. */
  function SendStops(left: nat, deadline: Instant, s: Send): (r: Outcome<()>)
    requires !SendGoes(left, deadline, s)
  {
    if s.before >= deadline then Failed(TimedOut)
    else if s.reply.NotWritable? then PollUntil(Some(deadline), s.reply.polls)
    else Failed(Broken)
  }

  /** How far `k` replies that all go carry the write, if they do. */
  function Carries(frame: Bytes, offset: nat, deadline: Instant, script: seq<Send>, k: nat): (r: Option<nat>)
    requires k <= |script| && offset <= |frame|
    ensures r.Some? ==> offset <= r.value <= |frame|
    decreases k
  {
    if k == 0 then Some(offset)
    else if offset == |frame| || !SendGoes(|frame| - offset, deadline, script[0]) then None
    else Carries(frame, offset + Took1(script[0]), deadline, script[1..], k - 1)
  }

  /** A write ends with the whole frame taken, or with the first reply that does not go, or it waits. */
  lemma {:induction false} WriteOutcome(frame: Bytes, offset: nat, deadline: Instant, script: seq<Send>, k: nat)
    requires k <= |script| && offset <= |frame| && Carries(frame, offset, deadline, script, k).Some?
    ensures var at := Carries(frame, offset, deadline, script, k).value;
            && (at == |frame| ==> Write(frame, offset, deadline, script) == (Done(()), at))
            && (at < |frame| && k == |script| ==> Write(frame, offset, deadline, script) == (Waiting, at))
            && (at < |frame| && k < |script| && !SendGoes(|frame| - at, deadline, script[k]) ==>
                  Write(frame, offset, deadline, script) == (SendStops(|frame| - at, deadline, script[k]), at))
    decreases k
  {
    if k > 0 {
      WriteOutcome(frame, offset + Took1(script[0]), deadline, script[1..], k - 1);
    }
  }

  // ---- a subscription -----------------------------------------------------------------------------------

  /** A finished subscription gives nothing; any other gives an item, the initial state first, unless it
      is still waiting for a frame. */
  lemma PullOutcome(decode: Bytes -> Option<Event>, s: Sub, script: seq<Receive>)
    ensures var (p, r) := (Pull(decode, s, script), Read(s.reader, OnSubscription, script));
            if s.finished then p.item == Done(None) && p.sub == s
            else if s.pending.Some? then p.item == Done(Some(Yield(s.pending.value))) && p.sub.reader == s.reader
            else
              && (p.item.Waiting? <==> r.outcome.Waiting?)
              && (r.outcome.Failed? ==> p.item == Done(Some(Error)) && p.sub.finished)
              && (r.outcome.Done? && decode(r.outcome.value).None? ==> p.item == Done(Some(Error)) && p.sub.finished)
              && (r.outcome.Done? && decode(r.outcome.value).Some? ==>
                    && p.item == Done(Some(Yield(decode(r.outcome.value).value)))
                    && (p.sub.finished <==> decode(r.outcome.value) == Some(Shutdown)))
  {}
}
