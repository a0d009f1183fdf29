/** The client transport and subscription as objects updated in place. */
module Clients {
  import opened Optional
  import opened Frames
  import opened ClientModel
  import T = ClientTheorems

  /** Waits for the socket, retrying when interrupted. */
  method Wait(deadline: Option<Instant>, polls: seq<Poll>) returns (r: Outcome<()>)
    ensures r == PollUntil(deadline, polls)
  {
    var i := 0;
    while i < |polls|
      invariant i <= |polls| && PollUntil(deadline, polls) == PollUntil(deadline, polls[i..])
    {
      var poll := polls[i];
      if Late(deadline, poll.before) {
        return Failed(TimedOut);
      }
      match poll.reply {
        case Expired => return Failed(TimedOut);
        case Woken(after) => return if Late(deadline, after) then Failed(TimedOut) else Done(());
        case PollBroken => return Failed(Broken);
        case PollInterrupted =>
      }
      assert polls[i..][1..] == polls[i + 1..];
      i := i + 1;
    }
    return Waiting;
  }

  class FramedTransport {
    var input: Bytes
    var partialDeadline: Option<Instant>
    var wire: Bytes            // everything the socket has taken so far

    constructor ()
      ensures View() == Reader([], None) && wire == []
    {
      input, partialDeadline, wire := [], None, [];
    }

    function View(): (rd: Reader)
      reads this
    {
      Reader(input, partialDeadline)
    }

    /** One attempt to read more. */
    method ReceiveOnce(bound: Bound, a: Receive) returns (outcome: Outcome<()>, got: Bytes)
      requires |input| < MAX_FRAME_BYTES
      modifies this
      ensures (View(), outcome, got) == Attempt(old(View()), bound, a) && wire == old(wire)
    {
      got := [];
      var active := if bound.Until? then Some(bound.deadline) else partialDeadline;
      if Late(active, a.before) {
        return Failed(TimedOut), got;
      }
      var room := MAX_FRAME_BYTES - |input|;
      var capacity := if room < READ_CHUNK_BYTES then room else READ_CHUNK_BYTES;
      match a.reply {
        case Got(chunk, after) =>
          if chunk == [] {
            outcome := Failed(Ended);
          } else if |chunk| <= capacity {
            if input == [] {
              partialDeadline := Some(after + EXCHANGE_TIMEOUT);
            }
            input := input + chunk;
            outcome, got := Done(()), chunk;
          } else {
            outcome := Failed(Broken);
          }
        case ReceiveInterrupted => outcome := Done(());
        case NotReadable(polls) => outcome := Wait(active, polls);
        case ReceiveBroken => outcome := Failed(Broken);
      }
    }

    /** Hands over the first frame; the assertion that a non-empty rest has a deadline is proved. */
    method TakeBuffered(newline: nat) returns (frame: Bytes)
      requires NewlineAt(input) == Some(newline) && T.ReaderInv(View())
      modifies this
      ensures frame == old(input)[..newline + 1] && input == old(input)[newline + 1..] && wire == old(wire)
      ensures partialDeadline == if input == [] then None else old(partialDeadline)
    {
      frame := input[..newline + 1];
      input := input[newline + 1..];
      if input == [] {
        partialDeadline := None;
      } else {
        assert partialDeadline.Some?;
      }
    }

    method ReadFrame(bound: Bound, script: seq<Receive>) returns (outcome: Outcome<Bytes>, got: Bytes)
      requires T.ReaderInv(View())
      modifies this
      ensures Reading(View(), outcome, got) == Read(old(View()), bound, script) && wire == old(wire)
      ensures T.Conserves(old(View()), Reading(View(), outcome, got))
    {
      T.ReadConserves(View(), bound, script);
      outcome, got := ReadLoop(bound, script);
    }

    /** The cases that need no more bytes: a buffered frame, or a full buffer without one. */
    method Settle(ghost bound: Bound, ghost script: seq<Receive>) returns (outcome: Option<Outcome<Bytes>>)
      requires T.ReaderInv(View())
      modifies this
      ensures wire == old(wire)
      ensures outcome.None? ==> View() == old(View()) && LF !in input && |input| < MAX_FRAME_BYTES
      ensures outcome.Some? ==> Read(old(View()), bound, script) == Reading(View(), outcome.value, [])
    {
      var newline := NewlineAt(input);
      if newline.Some? {
        var frame := TakeBuffered(newline.value);
        return Some(Done(frame));
      }
      return if |input| >= MAX_FRAME_BYTES then Some(Failed(TooLarge)) else None;
    }

    method ReadLoop(bound: Bound, script: seq<Receive>) returns (outcome: Outcome<Bytes>, got: Bytes)
      requires T.ReaderInv(View())
      modifies this
      ensures Reading(View(), outcome, got) == Read(old(View()), bound, script) && wire == old(wire)
    {
      ghost var goal := Read(View(), bound, script);
      var i := 0;
      got := [];
      while true
        invariant i <= |script| && T.ReaderInv(View()) && wire == old(wire)
        invariant goal == Prepend(got, Read(View(), bound, script[i..]))
        decreases |script| - i
      {
        var settled := Settle(bound, script[i..]);
        if settled.Some? {
          return settled.value, got;
        }
        if i == |script| {
          return Waiting, got;
        }
        T.AttemptKeeps(View(), bound, script[i]);
        GoesRound(View(), bound, script, i, got);
        var result, chunk := ReceiveOnce(bound, script[i]);
        if !result.Done? {
          return Stopped(result), got + chunk;
        }
        got := got + chunk;
        i := i + 1;
      }
    }

    /** Encodes one request and writes its frame. */
    method SendRequest(chunks: seq<Bytes>, deadline: Instant, script: seq<Send>) returns (outcome: Outcome<()>)
      requires LF !in Concat(chunks)
      modifies this
      ensures View() == old(View())
      ensures Encode(Concat(chunks)).None? ==> outcome == Failed(TooLarge) && wire == old(wire)
      ensures Encode(Concat(chunks)).Some? ==>
                var frame := Encode(Concat(chunks)).value;
                && outcome == Write(frame, 0, deadline, script).0
                && wire == old(wire) + frame[..Write(frame, 0, deadline, script).1]
                && (outcome.Done? <==> wire == old(wire) + frame)
    {
      var encoded := EncodeChunks(chunks);
      if encoded.None? {
        return Failed(TooLarge);
      }
      outcome := WriteFrame(encoded.value, deadline, script);
      T.WriteWhole(encoded.value, 0, deadline, script);
    }

    method WriteFrame(frame: Bytes, deadline: Instant, script: seq<Send>) returns (outcome: Outcome<()>)
      modifies this
      ensures View() == old(View())
      ensures outcome == Write(frame, 0, deadline, script).0
      ensures wire == old(wire) + frame[..Write(frame, 0, deadline, script).1]
    {
      var offset, i := 0, 0;
      assert wire + frame[..0] == wire && script[0..] == script;
      while offset < |frame|
        invariant offset <= |frame| && i <= |script| && View() == old(View())
        invariant wire == old(wire) + frame[..offset]
        invariant Write(frame, 0, deadline, script) == Write(frame, offset, deadline, script[i..])
        decreases |script| - i
      {
        if i == |script| {
          return Waiting;
        }
        var step := script[i];
        assert script[i..][0] == step && script[i..][1..] == script[i + 1..];
        if Late(Some(deadline), step.before) {
          return Failed(TimedOut);
        }
        match step.reply {
          case Took(count) =>
            if count == 0 || count > |frame| - offset {
              return Failed(Broken);
            }
            assert frame[..offset] + frame[offset..][..count] == frame[..offset + count];
            wire := wire + frame[offset..][..count];
            offset := offset + count;
          case SendInterrupted =>
          case NotWritable(polls) =>
            var woken := Wait(Some(deadline), polls);
            if !woken.Done? {
              return woken;
            }
          case SendBroken => return Failed(Broken);
        }
        i := i + 1;
      }
      return Done(());
    }
  }

  ghost function Prepend(got: Bytes, r: Reading): (s: Reading) { r.(got := got + r.got) }

  lemma PrependTwice(a: Bytes, b: Bytes, r: Reading)
    ensures Prepend(a, Prepend(b, r)) == Prepend(a + b, r)
  {
    assert a + (b + r.got) == a + b + r.got;
  }

  /** One turn of the reading loop. */
  lemma GoesRound(rd: Reader, bound: Bound, script: seq<Receive>, i: nat, got: Bytes)
    requires i < |script| && LF !in rd.input && |rd.input| < MAX_FRAME_BYTES
    ensures var (rd', outcome, chunk) := Attempt(rd, bound, script[i]);
            Prepend(got, Read(rd, bound, script[i..])) ==
            if outcome.Done? then Prepend(got + chunk, Read(rd', bound, script[i + 1..]))
            else Reading(rd', Stopped(outcome), got + chunk)
  {
    var (rd', outcome, chunk) := Attempt(rd, bound, script[i]);
    assert script[i..][0] == script[i] && script[i..][1..] == script[i + 1..];
    if outcome.Done? {
      PrependTwice(got, chunk, Read(rd', bound, script[i + 1..]));
    }
  }

  class Subscription {
    const transport: FramedTransport
    var pending: Option<Event>
    var finished: bool

    /** What `subscribe` hands over once the initial state has arrived. */
    constructor (transport: FramedTransport, initial: Event)
      ensures this.transport == transport && View() == Sub(transport.View(), Some(initial), false)
    {
      this.transport := transport;
      pending, finished := Some(initial), false;
    }

    function View(): (s: Sub)
      reads this, transport
    {
      Sub(transport.View(), pending, finished)
    }

    method Next(decode: Bytes -> Option<Event>, script: seq<Receive>) returns (item: Outcome<Option<Item>>, got: Bytes)
      requires T.ReaderInv(transport.View())
      modifies this, transport
      ensures var p := Pull(decode, old(View()), script); View() == p.sub && item == p.item && got == p.got
      ensures T.ReaderInv(transport.View())
    {
      got := [];
      if finished {
        return Done(None), got;
      }
      var result: Item;
      if pending.Some? {
        result := Yield(pending.value);
        pending := None;
      } else {
        var outcome;
        outcome, got := transport.ReadFrame(OnSubscription, script);
        if outcome.Waiting? {
          return Waiting, got;
        }
        result := ItemOf(decode, outcome);
      }
      if Last(result) {
        finished := true;
      }
      return Done(Some(result)), got;
    }
  }
}
