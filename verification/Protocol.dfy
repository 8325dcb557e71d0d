/** src/ipc/protocol.rs: newline-delimited frames over a byte stream that arrives in
    arbitrary chunks, and the bounded ring of recent events. */
module Protocol {
  import opened Types

  const NL: Byte := 10
  /** Including the trailing newline. */
  const MAX_FRAME_BYTES: nat := 65536

  // ---------------------------------------------------------------------------
  // What a stream means, whatever its chunks
  // ---------------------------------------------------------------------------

  function FirstNl(s: Bytes): (n: nat)
    ensures n <= |s| && NL !in s[..n]
    ensures n < |s| ==> s[n] == NL
  {
    if s == [] || s[0] == NL then 0
    else
      var n := 1 + FirstNl(s[1..]);
      assert s[..n] == [s[0]] + s[1..][..n - 1];
      n
  }

  /** The complete frames of a stream, newlines included. */
  function Frames(s: Bytes): seq<Bytes> {
    var n := FirstNl(s);
    if n == |s| then [] else [s[..n + 1]] + Frames(s[n + 1..])
  }

  /** What follows the last newline. */
  function Rest(s: Bytes): Bytes {
    var n := FirstNl(s);
    if n == |s| then s else Rest(s[n + 1..])
  }

  /** Some frame, or the unfinished one, exceeds the limit. */
  predicate Oversized(s: Bytes) {
    |Rest(s)| > MAX_FRAME_BYTES || exists f | f in Frames(s) :: |f| > MAX_FRAME_BYTES
  }

  function Flat(frames: seq<Bytes>): Bytes {
    if frames == [] then [] else frames[0] + Flat(frames[1..])
  }

  /** One newline, and it comes last. */
  predicate IsFrame(f: Bytes) { f != [] && f[|f| - 1] == NL && NL !in f[..|f| - 1] }

  lemma FirstNlAt(a: Bytes, b: Bytes)
    requires NL !in a
    ensures FirstNl(a + [NL] + b) == |a|
  {
    var s := a + [NL] + b;
    var n := FirstNl(s);
    assert s[|a|] == NL && forall k | 0 <= k < |a| :: s[k] == a[k];
    assert forall k | 0 <= k < n :: s[k] in s[..n];
  }

  lemma HeadFrame(a: Bytes, tail: Bytes)
    requires NL !in a
    ensures Frames(a + [NL] + tail) == [a + [NL]] + Frames(tail) && Rest(a + [NL] + tail) == Rest(tail)
  {
    FirstNlAt(a, tail);
    var s := a + [NL] + tail;
    assert s[..|a| + 1] == a + [NL] && s[|a| + 1..] == tail;
  }

  lemma {:induction false} CutIsCut(s: Bytes)
    ensures Flat(Frames(s)) + Rest(s) == s && NL !in Rest(s)
    ensures forall f | f in Frames(s) :: IsFrame(f)
  {
    hide Frames, Rest, Flat;
    var n := FirstNl(s);
    if n == |s| {
      assert s[..n] == s;
      NoNlNoFrames(s);
      FlatNil();
    } else {
      var a, tail := s[..n], s[n + 1..];
      assert s == a + [NL] + tail;
      HeadFrame(a, tail);
      CutIsCut(tail);
      FlatCons(a + [NL], Frames(tail));
      assert (a + [NL])[..|a|] == a;
      assert Flat(Frames(s)) + Rest(s) == a + [NL] + (Flat(Frames(tail)) + Rest(tail));
    }
  }

  lemma FlatNil()
    ensures Flat([]) == []
  {}

  /** There is one way to cut a stream into frames and a newline-free remainder. */
  lemma {:induction false} CutIsUnique(s: Bytes, frames: seq<Bytes>, rest: Bytes)
    requires Flat(frames) + rest == s && NL !in rest && forall f | f in frames :: IsFrame(f)
    ensures Frames(s) == frames && Rest(s) == rest
    decreases |frames|
  {
    if frames == [] {
      assert s == rest;
      NoNlNoFrames(s);
    } else {
      var f := frames[0];
      assert f in frames && IsFrame(f);
      var a := f[..|f| - 1];
      assert f == a + [NL];
      var tail := Flat(frames[1..]) + rest;
      assert s == a + [NL] + tail;
      HeadFrame(a, tail);
      CutIsUnique(tail, frames[1..], rest);
    }
  }

  lemma FlatCons(f: Bytes, more: seq<Bytes>)
    ensures Flat([f] + more) == f + Flat(more)
  {}

  lemma {:induction false} FlatAppend(a: seq<Bytes>, b: seq<Bytes>)
    ensures Flat(a + b) == Flat(a) + Flat(b)
  {
    if a == [] {
      assert a + b == b;
    } else {
      assert (a + b)[1..] == a[1..] + b;
      FlatAppend(a[1..], b);
    }
  }

  /** A stream can be cut in two stages: only the remainder of the first matters. */
  lemma CutInStages(s: Bytes, t: Bytes)
    ensures Frames(s + t) == Frames(s) + Frames(Rest(s) + t)
    ensures Rest(s + t) == Rest(Rest(s) + t)
    ensures Oversized(s) ==> Oversized(s + t)
    ensures !Oversized(s) ==> (Oversized(s + t) <==> Oversized(Rest(s) + t))
  {
    hide Frames, Rest;
    CutIsCut(s);
    CutIsCut(Rest(s) + t);
    var more := Frames(Rest(s) + t);
    FlatAppend(Frames(s), more);
    var last := Rest(Rest(s) + t);
    assert s + t == Flat(Frames(s)) + (Rest(s) + t);
    assert Flat(Frames(s)) + (Flat(more) + last) == Flat(Frames(s)) + Flat(more) + last;
    assert forall f | f in Frames(s) + more :: f in Frames(s) || f in more;
    CutIsUnique(s + t, Frames(s) + more, Rest(Rest(s) + t));
    if |Rest(s)| > MAX_FRAME_BYTES { LongStaysLong(Rest(s), t); }
    assert forall f :: f in Frames(s + t) <==> f in Frames(s) || f in more;
  }

  lemma LongStaysLong(a: Bytes, t: Bytes)
    requires |a| > MAX_FRAME_BYTES && NL !in a
    ensures Oversized(a + t)
  {
    var s := a + t;
    var n := FirstNl(s);
    assert forall k | 0 <= k < |a| :: s[k] == a[k];
    if n < |s| { assert s[..n + 1] in Frames(s); }
  }

  // ---------------------------------------------------------------------------
  // The decoder
  // ---------------------------------------------------------------------------

  class FrameDecoder {
    var buf: Bytes
    var rejected: bool

    ghost predicate Valid()
      reads this
    {
      NL !in buf && |buf| <= MAX_FRAME_BYTES
    }

    constructor ()
      ensures Valid() && buf == [] && !rejected
    {
      buf, rejected := [], false;
    }

    /** The decoder holds exactly what this stream leaves behind, or has given up on it. */
    ghost predicate Digested(stream: Bytes)
      reads this
    {
      rejected == Oversized(stream) && (!rejected ==> buf == Rest(stream))
    }

    /** One chunk: the frames it completes, or None for good once anything is too large. */
    method Feed(chunk: Bytes) returns (frames: Option<seq<Bytes>>)
      requires Valid()
      modifies this
      ensures Valid()
      ensures old(rejected) ==> frames.None? && rejected
      ensures !old(rejected) ==>
                rejected == Oversized(old(buf) + chunk)
                && (if rejected then frames.None?
                    else frames == Some(Frames(old(buf) + chunk)) && buf == Rest(old(buf) + chunk))
    {
      hide Frames, Rest;
      if rejected { return None; }
      ghost var all := buf + chunk;
      var done: seq<Bytes> := [];
      var todo := chunk;
      while todo != []
        invariant Valid() && !rejected
        invariant Frames(all) == done + Frames(buf + todo) && Rest(all) == Rest(buf + todo)
        invariant forall f | f in done :: |f| <= MAX_FRAME_BYTES
        decreases |todo|
      {
        var part := FirstPart(todo);
        ghost var s := buf + todo;
        PartIsHead(buf, todo);
        if |part| > MAX_FRAME_BYTES - |buf| {
          assert part[|part| - 1] == NL ==> Frames(all)[|done|] == buf + part;
          buf := [];
          rejected := true;
          return None;
        }
        buf := buf + part;
        todo := todo[|part|..];
        assert buf + todo == s;
        if part[|part| - 1] == NL {
          assert done + ([buf] + Frames(todo)) == done + [buf] + Frames(todo);
          done := done + [buf];
          buf := [];
          assert [] + todo == todo;
        }
      }
      assert buf + todo == buf;
      NoNlNoFrames(buf);
      assert done + [] == done;
      frames := Some(done);
    }
  }

  /** The first piece of `split_inclusive`: up to and including the first newline, or all. */
  function FirstPart(todo: Bytes): (part: Bytes)
    requires todo != []
    ensures part != [] && part <= todo
  {
    var n := FirstNl(todo);
    if n < |todo| then todo[..n + 1] else todo
  }

  /** Glued to the buffer, it is the next frame or all of the remainder. */
  lemma PartIsHead(b: Bytes, todo: Bytes)
    requires NL !in b && todo != []
    ensures var part := FirstPart(todo); var more := todo[|part|..];
            if part[|part| - 1] == NL then
              Frames(b + todo) == [b + part] + Frames(more) && Rest(b + todo) == Rest(more)
            else
              part == todo && NL !in b + part && Rest(b + todo) == b + part
  {
    hide Frames, Rest;
    var n := FirstNl(todo);
    if n < |todo| {
      var a, more := b + todo[..n], todo[n + 1..];
      assert b + todo == a + [NL] + more && a + [NL] == b + todo[..n + 1];
      HeadFrame(a, more);
    } else {
      assert todo[..n] == todo;
      assert todo[|todo| - 1] in todo;
      NoNlNoFrames(b + todo);
    }
  }

  lemma NoNlNoFrames(s: Bytes)
    requires NL !in s
    ensures Frames(s) == [] && Rest(s) == s
  {
    assert forall k | 0 <= k < |s| :: s[k] in s;
    assert s[..|s|] == s;
  }

  /** Chunk invariance: however a stream is cut into chunks, the decoder rejects it exactly
      when one of its frames or its unfinished remainder is too large, and otherwise
      delivers exactly its frames, in order. */
  method Decode(chunks: seq<Bytes>) returns (frames: Option<seq<Bytes>>)
    ensures frames == if Oversized(Flat(chunks)) then None else Some(Frames(Flat(chunks)))
  {
    var decoder := new FrameDecoder();
    var all: seq<Bytes> := [];
    NoNlNoFrames([]);
    for i := 0 to |chunks|
      invariant fresh(decoder) && decoder.Valid() && decoder.Digested(Flat(chunks[..i]))
      invariant !decoder.rejected ==> all == Frames(Flat(chunks[..i]))
    {
      var more := decoder.Feed(chunks[i]);
      FlatSnoc(chunks, i);
      CutInStages(Flat(chunks[..i]), chunks[i]);
      if more.Some? { all := all + more.value; }
    }
    assert chunks[..|chunks|] == chunks;
    frames := if decoder.rejected then None else Some(all);
  }

  lemma FlatSnoc(chunks: seq<Bytes>, i: nat)
    requires i < |chunks|
    ensures Flat(chunks[..i + 1]) == Flat(chunks[..i]) + chunks[i]
  {
    assert chunks[..i + 1] == chunks[..i] + [chunks[i]];
    FlatAppend(chunks[..i], [chunks[i]]);
    var one: seq<Bytes> := [chunks[i]];
    assert one[1..] == [];
  }

  // ---------------------------------------------------------------------------
  // Round trip
  // ---------------------------------------------------------------------------

  /** `encode_frame` on an already serialised message, which contains no raw newline. */
  function EncodeFrame(json: Bytes): Bytes { json + [NL] }

  function EncodeAll(msgs: seq<Bytes>): seq<Bytes> {
    if msgs == [] then [] else [EncodeFrame(msgs[0])] + EncodeAll(msgs[1..])
  }

  lemma {:induction false} EncodedAreFrames(msgs: seq<Bytes>)
    requires forall m | m in msgs :: NL !in m
    ensures forall f | f in EncodeAll(msgs) :: IsFrame(f)
    ensures (forall m | m in msgs :: |m| < MAX_FRAME_BYTES) ==> forall f | f in EncodeAll(msgs) :: |f| <= MAX_FRAME_BYTES
  {
    if msgs != [] {
      EncodedAreFrames(msgs[1..]);
      var f := EncodeFrame(msgs[0]);
      assert f[..|f| - 1] == msgs[0];
    }
  }

  lemma {:induction false} EncodedOneByOne(msgs: seq<Bytes>)
    ensures |EncodeAll(msgs)| == |msgs| && forall k | 0 <= k < |msgs| :: EncodeAll(msgs)[k] == msgs[k] + [NL]
  {
    if msgs != [] {
      EncodedOneByOne(msgs[1..]);
      assert forall k | 0 < k < |msgs| :: EncodeAll(msgs)[k] == EncodeAll(msgs[1..])[k - 1] && msgs[1..][k - 1] == msgs[k];
    }
  }

  /** Messages below the limit, encoded one after another, come back as exactly those
      frames; by Decode that holds for every way the stream is chunked. */
  lemma EncodeThenDecode(msgs: seq<Bytes>)
    requires forall m | m in msgs :: NL !in m && |m| < MAX_FRAME_BYTES
    ensures var stream := Flat(EncodeAll(msgs));
            !Oversized(stream) && Frames(stream) == EncodeAll(msgs) && Rest(stream) == []
    ensures var frames := Frames(Flat(EncodeAll(msgs)));
            |frames| == |msgs| && forall k | 0 <= k < |msgs| :: frames[k] == msgs[k] + [NL]
  {
    EncodedOneByOne(msgs);
    EncodedAreFrames(msgs);
    var stream := Flat(EncodeAll(msgs));
    assert stream + [] == stream;
    CutIsUnique(stream, EncodeAll(msgs), []);
  }

  // ---------------------------------------------------------------------------
  // The event ring
  // ---------------------------------------------------------------------------

  const RING_CAPACITY: nat := 20

  function LastOf<T>(s: seq<T>, n: nat): seq<T> { if |s| <= n then s else s[|s| - n..] }

  class EventLog<T> {
    var ring: seq<T>
    /** Everything ever pushed. */
    ghost var history: seq<T>

    ghost predicate Valid()
      reads this
    {
      ring == LastOf(history, RING_CAPACITY)
    }

    constructor ()
      ensures Valid() && history == []
    {
      ring, history := [], [];
    }

    method Push(line: T)
      requires Valid()
      modifies this
      ensures Valid() && history == old(history) + [line]
    {
      if |ring| >= RING_CAPACITY { ring := ring[1..]; }
      ring := ring + [line];
      history := history + [line];
    }
  }
}
