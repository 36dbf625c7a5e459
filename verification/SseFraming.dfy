// Incremental framing of an event stream: src/proxy/sse_parser.rs, lines 28-47.

module SseFraming {
  import opened Basics
  import opened Utf8

  // A blank line: the only delimiter the parser knows.
  predicate BreakAt(b: Bytes, i: int) {
    0 <= i && i + 1 < |b| && b[i] == NEWLINE && b[i + 1] == NEWLINE
  }

  ghost predicate Unbroken(b: Bytes) {
    forall i :: !BreakAt(b, i)
  }

  function FindEventEnd(b: Bytes): (end: Option<nat>)
    ensures end.None? ==> Unbroken(b)
    ensures end.Some? ==> end.value + 2 <= |b| && BreakAt(b, end.value) && forall i :: BreakAt(b, i) ==> i >= end.value
  {
    if |b| < 2 then None
    else if BreakAt(b, 0) then Some(0)
    else
      var rest := FindEventEnd(b[1..]);
      assert forall i :: BreakAt(b, i) ==> i >= 1 && BreakAt(b[1..], i - 1);
      if rest.Some? then Some(rest.value + 1) else None
  }

  // All complete frames at the front of b, and the bytes left over.
  function Split(b: Bytes): (seq<Bytes>, Bytes)
    decreases |b|
  {
    match FindEventEnd(b)
    case None => ([], b)
    case Some(i) =>
      var (frames, rest) := Split(b[i + 2..]);
      ([b[..i + 2]] + frames, rest)
  }

  function Flatten(pieces: seq<Bytes>): Bytes {
    if pieces == [] then [] else pieces[0] + Flatten(pieces[1..])
  }

  // `push` silently drops a frame that is not valid UTF-8.
  function Decodable(frames: seq<Bytes>): seq<Bytes> {
    if frames == [] then []
    else (if IsUtf8(frames[0]) then [frames[0]] else []) + Decodable(frames[1..])
  }

  // One turn of the parser's loop.
  lemma SplitFirst(b: Bytes)
    ensures
      match FindEventEnd(b)
      case None => Decodable(Split(b).0) == [] && Split(b).1 == b
      case Some(i) =>
        var f, (frames, rest) := b[..i + 2], Split(b[i + 2..]);
        && Split(b).1 == rest
        && Decodable(Split(b).0) == (if IsUtf8(f) then [f] else []) + Decodable(frames)
  {
    hide IsUtf8, BreakAt, FindEventEnd;
    match FindEventEnd(b)
    case None =>
    case Some(i) =>
      HeadTail(b[..i + 2], Split(b[i + 2..]).0);
  }

  class SseParser {
    var buffer: Bytes

    constructor ()
      ensures buffer == []
    {
      buffer := [];
    }

    method Push(chunk: Bytes) returns (events: seq<Bytes>)
      modifies this
      ensures events == Decodable(Split(old(buffer) + chunk).0)
      ensures buffer == Split(old(buffer) + chunk).1
    {
      hide BreakAt, IsUtf8, Split, Decodable, FindEventEnd;
      buffer := buffer + chunk;
      events := [];
      ghost var whole := buffer;
      var end := FindEventEnd(buffer);
      while end.Some?
        invariant end == FindEventEnd(buffer)
        invariant Split(whole).1 == Split(buffer).1
        invariant Decodable(Split(whole).0) == events + Decodable(Split(buffer).0)
        decreases |buffer|
      {
        var eventBytes := buffer[..end.value + 2];
        SplitFirst(buffer);
        buffer := buffer[end.value + 2..];
        if IsUtf8(eventBytes) {
          events := events + [eventBytes];
        }
        end := FindEventEnd(buffer);
      }
      SplitFirst(buffer);
    }
  }

  // ---- What framing means -------------------------------------------------------

  ghost predicate IsFrame(f: Bytes) {
    BreakAt(f, |f| - 2) && forall i :: BreakAt(f, i) ==> i == |f| - 2
  }

  // The reference: frames that end at their first blank line, a remainder without
  // one, and nothing lost or moved.
  ghost predicate IsFraming(frames: seq<Bytes>, rest: Bytes, b: Bytes) {
    && Flatten(frames) + rest == b
    && (forall k :: 0 <= k < |frames| ==> IsFrame(frames[k]))
    && Unbroken(rest)
  }

  lemma HeadIsFrame(b: Bytes)
    requires FindEventEnd(b).Some?
    ensures IsFrame(b[..FindEventEnd(b).value + 2])
  {
    var head := b[..FindEventEnd(b).value + 2];
    assert BreakAt(head, |head| - 2);
    forall i | BreakAt(head, i)
      ensures i == |head| - 2
    {
      assert BreakAt(b, i);
    }
  }

  lemma {:induction false} SplitIsFraming(b: Bytes)
    ensures IsFraming(Split(b).0, Split(b).1, b)
    decreases |b|
  {
    hide IsFrame, BreakAt, FindEventEnd;
    var end := FindEventEnd(b);
    if end.Some? {
      var head, tail := b[..end.value + 2], b[end.value + 2..];
      HeadIsFrame(b);
      SplitIsFraming(tail);
      HeadTail(head, Split(tail).0);
      Associative(head, Flatten(Split(tail).0), Split(tail).1);
      assert b == head + tail;
    }
  }

  // There is only one way to frame a byte string, so Split is it.
  lemma {:induction false} FramingIsUnique(frames: seq<Bytes>, rest: Bytes, b: Bytes)
    requires IsFraming(frames, rest, b)
    ensures Split(b) == (frames, rest)
    decreases |frames|
  {
    if frames == [] {
      assert b == rest;
    } else {
      var f := frames[0];
      var tail := Flatten(frames[1..]) + rest;
      assert b == f + tail;
      assert BreakAt(b, |f| - 2);
      assert forall i :: BreakAt(b, i) && i < |f| - 1 ==> BreakAt(f, i);
      assert FindEventEnd(b) == Some(|f| - 2);
      assert b[|f|..] == tail && b[..|f|] == f;
      FramingIsUnique(frames[1..], rest, tail);
      assert frames == [f] + frames[1..];
      assert Split(b) == ([b[..|f|]] + Split(b[|f|..]).0, Split(b[|f|..]).1);
    }
  }

  lemma {:induction false} FlattenAppend(a: seq<Bytes>, b: seq<Bytes>)
    ensures Flatten(a + b) == Flatten(a) + Flatten(b)
  {
    if a == [] {
      assert a + b == b;
    } else {
      FlattenAppend(a[1..], b);
      assert (a + b)[1..] == a[1..] + b;
      Associative(a[0], Flatten(a[1..]), Flatten(b));
    }
  }

  lemma {:induction false} DecodableAppend(a: seq<Bytes>, b: seq<Bytes>)
    ensures Decodable(a + b) == Decodable(a) + Decodable(b)
  {
    hide IsUtf8;
    if a == [] {
      assert a + b == b;
    } else {
      DecodableAppend(a[1..], b);
      assert (a + b)[1..] == a[1..] + b;
      Associative(if IsUtf8(a[0]) then [a[0]] else [], Decodable(a[1..]), Decodable(b));
    }
  }

  // More bytes never change the frames already found.
  lemma SplitAppend(a: Bytes, b: Bytes)
    ensures
      var (frames, rest) := Split(a);
      var (more, left) := Split(rest + b);
      Split(a + b) == (frames + more, left)
  {
    hide IsFrame, Unbroken, Split, Flatten;
    var (frames, rest) := Split(a);
    var (more, left) := Split(rest + b);
    SplitIsFraming(a);
    SplitIsFraming(rest + b);
    FlattenAppend(frames, more);
    assert a + b == Flatten(frames) + (rest + b);
    assert Flatten(frames) + (Flatten(more) + left) == Flatten(frames + more) + left;
    FramingIsUnique(frames + more, left, a + b);
  }

  // ---- A parser fed chunk by chunk ------------------------------------------------

  // Events so far and buffer after pushing the chunks into an empty parser.
  function Feed(chunks: seq<Bytes>): (seq<Bytes>, Bytes) {
    if chunks == [] then ([], [])
    else
      var (events, buffer) := Feed(chunks[..|chunks| - 1]);
      var (frames, rest) := Split(buffer + chunks[|chunks| - 1]);
      (events + Decodable(frames), rest)
  }

  // Events and buffer depend on the bytes alone, not on where the network cut them.
  lemma {:induction false} FeedIsSplit(chunks: seq<Bytes>)
    ensures Feed(chunks) == (Decodable(Split(Flatten(chunks)).0), Split(Flatten(chunks)).1)
  {
    if chunks != [] {
      var before, last := chunks[..|chunks| - 1], chunks[|chunks| - 1];
      FeedIsSplit(before);
      assert chunks == before + [last];
      FlattenAppend(before, [last]);
      assert Flatten([last]) == last;
      SplitAppend(Flatten(before), last);
      DecodableAppend(Split(Flatten(before)).0, Split(Split(Flatten(before)).1 + last).0);
    }
  }

  lemma ChunkingInvariant(chunks: seq<Bytes>, others: seq<Bytes>)
    requires Flatten(chunks) == Flatten(others)
    ensures Feed(chunks) == Feed(others)
  {
    FeedIsSplit(chunks);
    FeedIsSplit(others);
  }

  // If what has arrived is the beginning of valid UTF-8, no frame is dropped, however
  // the chunks cut multi-byte characters.
  lemma NoFrameDropped(chunks: seq<Bytes>, future: Bytes)
    requires IsUtf8(Flatten(chunks) + future)
    ensures Feed(chunks).0 == Split(Flatten(chunks)).0
  {
    hide IsFrame, Unbroken, Split, Flatten, IsUtf8, Feed;
    FeedIsSplit(chunks);
    SplitIsFraming(Flatten(chunks));
    var (frames, rest) := Split(Flatten(chunks));
    assert Flatten(chunks) + future == Flatten(frames) + (rest + future);
    FramesDecode(frames, rest + future);
  }

  lemma {:induction false} FramesDecode(frames: seq<Bytes>, rest: Bytes)
    requires forall k :: 0 <= k < |frames| ==> IsFrame(frames[k])
    requires IsUtf8(Flatten(frames) + rest)
    ensures Decodable(frames) == frames
  {
    if frames != [] {
      var f := frames[0];
      var s := Flatten(frames) + rest;
      assert s == f + (Flatten(frames[1..]) + rest);
      CutAfterNewline(s, |f|);
      assert s[..|f|] == f && s[|f|..] == Flatten(frames[1..]) + rest;
      FramesDecode(frames[1..], rest);
    }
  }

  predicate CrlfOnly(b: Bytes) {
    forall i :: 0 <= i < |b| && b[i] as int == 10 ==> i > 0 && b[i - 1] as int == 13
  }

  // A frame ends at the first two line feeds in a row, which are the bytes 10 and 10.
  lemma EventEndIs(b: Bytes)
    ensures
      match FindEventEnd(b)
      case None => forall i :: 0 <= i < |b| - 1 ==> b[i] as int != 10 || b[i + 1] as int != 10
      case Some(end) =>
        && b[end] as int == 10 && b[end + 1] as int == 10
        && forall i :: 0 <= i < end ==> b[i] as int != 10 || b[i + 1] as int != 10
  {
    hide FindEventEnd;
    assert NEWLINE as int == 10;
    forall i | 0 <= i < |b| - 1
      ensures BreakAt(b, i) <==> b[i] as int == 10 && b[i + 1] as int == 10
    {
    }
  }

  // Some frame is found exactly when the bytes hold two line feeds in a row. A stream
  // whose lines all end in CR LF therefore yields no event at all, of any length,
  // and the whole of it stays in the buffer.
  lemma FramesNeedBlankLine(chunks: seq<Bytes>)
    ensures
      var b := Flatten(chunks);
      Split(b).0 == [] <==> forall i :: 0 <= i < |b| - 1 ==> b[i] as int != 10 || b[i + 1] as int != 10
    ensures CrlfOnly(Flatten(chunks)) ==> Feed(chunks) == ([], Flatten(chunks))
  {
    FeedIsSplit(chunks);
    EventEndIs(Flatten(chunks));
  }
}
