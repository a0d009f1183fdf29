/** Newline-delimited frames: how a byte stream splits into frames, and the bounded encoder. */
module Frames {
  import opened Optional

  newtype Byte = b: int | 0 <= b < 256

  type Bytes = seq<Byte>

  const LF: Byte := 10
  const MAX_FRAME_BYTES: nat := 65536

  /** One compact JSON document. Control characters are escaped inside JSON strings
      (section 7 of RFC 8259) and the compact encoder adds none, so it holds no LF. */
  type Text = t: Bytes | LF !in t

  /** A frame ends in LF and holds no other. */
  predicate IsFrame(f: Bytes) {
    && f != []
    && f[|f| - 1] == LF
    && LF !in f[..|f| - 1]
  }

  predicate AllFrames(fs: seq<Bytes>) {
    forall i :: 0 <= i < |fs| ==> IsFrame(fs[i])
  }

  function Concat(fs: seq<Bytes>): Bytes {
    if fs == [] then [] else Concat(fs[..|fs| - 1]) + fs[|fs| - 1]
  }

  /** The complete frames of a stream, in order. */
  function Complete(s: Bytes): (fs: seq<Bytes>)
    decreases |s|, 1
  {
    if s == [] then []
    else
      var p := s[..|s| - 1];
      if s[|s| - 1] == LF then Complete(p) + [Partial(p) + [LF]] else Complete(p)
  }

  /** The bytes after the last LF of a stream. */
  function Partial(s: Bytes): (r: Bytes)
    decreases |s|, 0
  {
    if s == [] || s[|s| - 1] == LF then []
    else Partial(s[..|s| - 1]) + [s[|s| - 1]]
  }

  lemma {:induction false} ConcatPush(fs: seq<Bytes>, f: Bytes)
    ensures Concat(fs + [f]) == Concat(fs) + f
  {
    assert (fs + [f])[..|fs|] == fs;
  }

  lemma {:induction false} ConcatAppend(a: seq<Bytes>, b: seq<Bytes>)
    ensures Concat(a + b) == Concat(a) + Concat(b)
  {
    if b == [] {
      assert a + b == a;
    } else {
      var k := |b| - 1;
      ConcatAppend(a, b[..k]);
      ConcatPush(a + b[..k], b[k]);
      assert a + b == (a + b[..k]) + [b[k]];
    }
  }

  lemma {:induction false} SplitPush(s: Bytes, b: Byte)
    ensures b == LF ==> Complete(s + [b]) == Complete(s) + [Partial(s) + [LF]] && Partial(s + [b]) == []
    ensures b != LF ==> Complete(s + [b]) == Complete(s) && Partial(s + [b]) == Partial(s) + [b]
  {
    assert (s + [b])[..|s|] == s;
  }

  /** Bytes without LF only lengthen the partial frame. */
  lemma {:induction false} SplitText(s: Bytes, t: Bytes)
    requires LF !in t
    ensures Complete(s + t) == Complete(s)
    ensures Partial(s + t) == Partial(s) + t
  {
    if t == [] {
      assert s + t == s;
    } else {
      var k := |t| - 1;
      SplitText(s, t[..k]);
      assert t[k] in t;
      SplitPush(s + t[..k], t[k]);
      assert s + t == (s + t[..k]) + [t[k]];
      assert Partial(s) + t == (Partial(s) + t[..k]) + [t[k]];
    }
  }

  lemma AppendLast(s: Bytes, x: Bytes, b: Byte)
    ensures s + (x + [b]) == (s + x) + [b]
  {}

  /** The bytes that end a frame move it to the complete frames. */
  lemma {:induction false} SplitFrameEnd(s: Bytes, t: Bytes)
    requires IsFrame(t)
    ensures Complete(s + t) == Complete(s) + [Partial(s) + t]
    ensures Partial(s + t) == []
  {
    var x := t[..|t| - 1];
    assert t == x + [LF];
    SplitText(s, x);
    SplitPush(s + x, LF);
    AppendLast(s, x, LF);
    AppendLast(Partial(s), x, LF);
  }

  lemma {:induction false} PartialText(s: Bytes)
    ensures LF !in Partial(s)
  {
    if s != [] && s[|s| - 1] != LF {
      PartialText(s[..|s| - 1]);
    }
  }

  lemma {:induction false} CompleteFrames(s: Bytes)
    ensures AllFrames(Complete(s))
  {
    if s != [] {
      var p := s[..|s| - 1];
      CompleteFrames(p);
      PartialText(p);
      var f := Partial(p) + [LF];
      assert f[..|f| - 1] == Partial(p);
    }
  }

  lemma {:induction false} SplitConcat(s: Bytes)
    ensures Concat(Complete(s)) + Partial(s) == s
  {
    if s != [] {
      var p, b := s[..|s| - 1], s[|s| - 1];
      assert s == p + [b];
      SplitConcat(p);
      SplitPush(p, b);
      ConcatPush(Complete(p), Partial(p) + [LF]);
      AppendLast(Concat(Complete(p)), Partial(p), b);
    }
  }

  /** Splitting loses nothing and only yields frames. */
  lemma SplitWhole(s: Bytes)
    ensures Concat(Complete(s)) + Partial(s) == s
    ensures AllFrames(Complete(s)) && LF !in Partial(s)
  {
    SplitConcat(s);
    CompleteFrames(s);
    PartialText(s);
  }

  /** The split is the only one into frames and an LF-free rest. */
  lemma {:induction false} SplitUnique(fs: seq<Bytes>, r: Bytes)
    requires AllFrames(fs) && LF !in r
    ensures Complete(Concat(fs) + r) == fs
    ensures Partial(Concat(fs) + r) == r
  {
    if fs == [] {
      assert Concat(fs) + r == [] + r;
      SplitText([], r);
    } else {
      var k := |fs| - 1;
      SplitUnique(fs[..k], []);
      assert Concat(fs[..k]) + [] == Concat(fs[..k]);
      SplitFrameEnd(Concat(fs[..k]), fs[k]);
      assert fs == fs[..k] + [fs[k]];
      assert [] + fs[k] == fs[k];
      SplitText(Concat(fs), r);
      assert [] + r == r;
    }
  }

  /** A longer stream only adds complete frames. */
  lemma {:induction false} SplitGrows(s: Bytes, t: Bytes)
    ensures Complete(s) <= Complete(s + t)
  {
    if t == [] {
      assert s + t == s;
    } else {
      var k := |t| - 1;
      SplitGrows(s, t[..k]);
      SplitPush(s + t[..k], t[k]);
      assert s + t == (s + t[..k]) + [t[k]];
    }
  }

  // ---- the bounded encoder ----------------------------------------------

  /** The frame of one document, when it fits. */
  function Encode(text: Text): (r: Option<Bytes>)
    ensures r.Some? <==> |text| < MAX_FRAME_BYTES
    ensures r.Some? ==> IsFrame(r.value) && |r.value| <= MAX_FRAME_BYTES && r.value[..|r.value| - 1] == text
  {
    if |text| > MAX_FRAME_BYTES - 1 then None
    else
      assert (text + [LF])[..|text|] == text;
      Some(text + [LF])
  }

  /** Distinct documents never share a frame. */
  lemma EncodeInjective(a: Text, b: Text)
    requires Encode(a).Some? && Encode(a) == Encode(b)
    ensures a == b
  {
    assert (a + [LF])[..|a|] == a && (b + [LF])[..|b|] == b;
  }

  class FrameWriter {
    var bytes: Bytes
    var overflowed: bool

    constructor ()
      ensures bytes == [] && !overflowed
    {
      bytes, overflowed := [], false;
    }

    /** Appends the whole chunk or nothing. */
    method Write(chunk: Bytes) returns (ok: bool)
      modifies this
      ensures ok <==> |old(bytes)| + |chunk| <= MAX_FRAME_BYTES - 1
      ensures bytes == if ok then old(bytes) + chunk else old(bytes)
      ensures overflowed == (old(overflowed) || !ok)
    {
      if |bytes| + |chunk| > MAX_FRAME_BYTES - 1 {
        overflowed := true;
        return false;
      }
      bytes := bytes + chunk;
      return true;
    }
  }

  lemma {:induction false} ConcatPrefix(cs: seq<Bytes>, i: nat)
    requires i <= |cs|
    ensures |Concat(cs[..i])| <= |Concat(cs)|
  {
    ConcatAppend(cs[..i], cs[i..]);
    assert cs == cs[..i] + cs[i..];
  }

  /** However the serialiser chunks the document, the frame depends on its text alone. */
  method EncodeChunks(chunks: seq<Bytes>) returns (r: Option<Bytes>)
    requires LF !in Concat(chunks)
    ensures r == Encode(Concat(chunks))
  {
    var writer := new FrameWriter();
    for i := 0 to |chunks|
      invariant fresh(writer)
      invariant writer.bytes == Concat(chunks[..i])
      invariant |writer.bytes| <= MAX_FRAME_BYTES - 1
    {
      assert chunks[..i + 1] == chunks[..i] + [chunks[i]];
      ConcatPush(chunks[..i], chunks[i]);
      var ok := writer.Write(chunks[i]);
      if !ok {
        ConcatPrefix(chunks, i + 1);
        return None;
      }
    }
    assert chunks[..|chunks|] == chunks;
    return Some(writer.bytes + [LF]);
  }
}
