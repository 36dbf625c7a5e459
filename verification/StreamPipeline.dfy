// The passthrough body loop: src/proxy/stream.rs, lines 107-193.

module StreamPipeline {
  import opened Basics
  import opened Utf8
  import opened SseFraming
  import opened SseEvents

  // What one timed read of the upstream gives.
  datatype Poll = Chunk(bytes: Bytes) | EndOfStream | NetworkError | IdleTimeout

  // What the client is sent.
  datatype Item = Data(bytes: Bytes) | Failure

  // The reads before the loop stops; all of them if the client went away first.
  function ChunksRead(polls: seq<Poll>): (chunks: seq<Bytes>)
    ensures |chunks| <= |polls| && forall i :: 0 <= i < |chunks| ==> polls[i] == Chunk(chunks[i])
    ensures |chunks| < |polls| ==> !polls[|chunks|].Chunk?
  {
    if polls == [] || !polls[0].Chunk? then [] else [polls[0].bytes] + ChunksRead(polls[1..])
  }

  function Passed(chunks: seq<Bytes>): (items: seq<Item>)
    ensures |items| == |chunks| && forall i :: 0 <= i < |items| ==> items[i] == Data(chunks[i])
  {
    seq(|chunks|, i requires 0 <= i < |chunks| => Data(chunks[i]))
  }

  // Everything in the bytes that belongs to a complete, decodable event.
  function CompletePart(read: Bytes): Bytes {
    Flatten(Decodable(Split(read).0))
  }

  // The batch scans: over the lines of the whole, ignoring chunks and events.
  function BatchUsage(parse: JsonParser, read: Bytes): Option<Usage> {
    UsageInLines(parse, Lines(CompletePart(read)))
  }

  function BatchContent(parse: JsonParser, read: Bytes): bool {
    ContentInLines(parse, Lines(CompletePart(read)))
  }

  // A call of the usage callback, made while chunk `at` was handled.
  datatype Charge = Charge(at: nat, usage: Usage)

  // First chunk after which content is complete.
  ghost predicate FirstContentAt(parse: JsonParser, chunks: seq<Bytes>, k: nat) {
    && k < |chunks|
    && BatchContent(parse, Flatten(chunks[..k + 1]))
    && !BatchContent(parse, Flatten(chunks[..k]))
  }

  // First chunk after which a usage record is complete.
  ghost predicate FirstUsageAt(parse: JsonParser, chunks: seq<Bytes>, k: nat) {
    && k < |chunks|
    && BatchUsage(parse, Flatten(chunks[..k + 1])).Some?
    && BatchUsage(parse, Flatten(chunks[..k])).None?
  }

  // The one charge there is for a stream with a usage record.
  ghost predicate IsCharge(parse: JsonParser, chunks: seq<Bytes>, charges: seq<Charge>, usage: Usage) {
    |charges| == 1 && charges[0].usage == usage && FirstUsageAt(parse, chunks, charges[0].at)
  }

  // `ttft` lists the chunks at which a first token was recorded, `charges` the calls of
  // the usage callback, and `errors` the reads at which the error callback was called.
  method Passthrough(parse: JsonParser, polls: seq<Poll>)
    returns (output: seq<Item>, ttft: seq<nat>, charges: seq<Charge>, errors: seq<nat>)
    ensures
      var chunks := ChunksRead(polls);
      var failed := |chunks| < |polls| && polls[|chunks|] != EndOfStream;
      && output == Passed(chunks) + (if failed then [Failure] else [])
      && errors == (if failed then [|chunks|] else [])
      && (match BatchUsage(parse, Flatten(chunks))
          case None => charges == []
          case Some(usage) => IsCharge(parse, chunks, charges, usage))
      && (if BatchContent(parse, Flatten(chunks)) then |ttft| == 1 && FirstContentAt(parse, chunks, ttft[0])
          else ttft == [])
  {
    hide Decodable, Split, Feed, FirstContentAt, BatchContent, BatchUsage, ContentInEvents, UsageInEvents;
    hide ChunksRead, Passed, Flatten, IsCharge;
    output, ttft, charges, errors := [], [], [], [];
    var onError := true;  // the callback is still there to take
    var parser := new SseParser();
    ghost var chunks: seq<Bytes> := [];
    EmptyFeed(parse);
    var i := 0;
    assert polls[0..] == polls;
    while i < |polls|
      invariant 0 <= i <= |polls| && |chunks| == i
      invariant ChunksRead(polls) == chunks + ChunksRead(polls[i..])
      invariant output == Passed(chunks) && errors == [] && onError
      invariant parser.buffer == Feed(chunks).1
      invariant UsageInEvents(parse, Feed(chunks).0).None? ==> charges == []
      invariant UsageInEvents(parse, Feed(chunks).0).Some? ==>
                  IsCharge(parse, chunks, charges, UsageInEvents(parse, Feed(chunks).0).value)
      invariant ttft != [] <==> ContentInEvents(parse, Feed(chunks).0)
      invariant ttft != [] ==> |ttft| == 1 && FirstContentAt(parse, chunks, ttft[0])
    {
      ReadStep(polls, i);
      if polls[i].EndOfStream? {
        break;
      }
      if polls[i].IdleTimeout? || polls[i].NetworkError? {
        if onError {
          onError := false;
          errors := errors + [i];
        }
        output := output + [Failure];
        break;
      }
      var bytes := polls[i].bytes;
      var events := parser.Push(bytes);
      ghost var recordedBefore, chargesBefore := ttft != [], charges;
      assert charges == [] <==> UsageInEvents(parse, Feed(chunks).0).None? by { ChargesTell(parse, chunks, charges); }
      ttft, charges := Observe(parse, Feed(chunks).0, events, i, ttft, charges);
      output := output + [Data(bytes)];
      FeedSnoc(chunks, bytes);
      ContentStep(parse, chunks, bytes, ttft, recordedBefore);
      UsageStep(parse, chunks, bytes, chargesBefore, charges);
      PassedSnoc(chunks, bytes);
      Associative(chunks, [bytes], ChunksRead(polls[i + 1..]));
      chunks := chunks + [bytes];
      i := i + 1;
    }
    ReadStep(polls, i);
    assert ChunksRead(polls) == chunks;
    BatchIsEvents(parse, chunks);
  }

  // The once-only effects of the events completed by chunk i. A recorded first token
  // and a charged usage show as a non-empty list; `seen` are the events before them.
  method Observe(parse: JsonParser, ghost seen: seq<Bytes>, events: seq<Bytes>, i: nat,
      ttft0: seq<nat>, charges0: seq<Charge>)
    returns (ttft: seq<nat>, charges: seq<Charge>)
    requires charges0 == [] <==> UsageInEvents(parse, seen).None?
    requires ttft0 != [] <==> ContentInEvents(parse, seen)
    ensures charges == if charges0 != [] then charges0 else NewCharges(i, UsageInEvents(parse, seen + events))
    ensures charges0 != [] ==> UsageInEvents(parse, seen + events) == UsageInEvents(parse, seen)
    ensures ttft != [] <==> ContentInEvents(parse, seen + events)
    ensures ttft == if ttft0 != [] then ttft0 else if ttft != [] then [i] else []
  {
    hide ContentInEvents, UsageInEvents, IsContentEvent, ExtractUsage;
    ttft, charges := ttft0, charges0;
    var ttftRecorded, usageCharged := ttft != [], charges != [];
    var onUsage := !usageCharged;
    assert seen + events[..0] == seen;
    for j := 0 to |events|
      invariant charges == if charges0 != [] then charges0 else NewCharges(i, UsageInEvents(parse, seen + events[..j]))
      invariant charges0 != [] ==> UsageInEvents(parse, seen + events[..j]) == UsageInEvents(parse, seen)
      invariant usageCharged == (charges != []) && onUsage == !usageCharged
      invariant ttftRecorded == (ttft != []) == ContentInEvents(parse, seen + events[..j])
      invariant ttft == if ttft0 != [] then ttft0 else if ttft != [] then [i] else []
    {
      EventsSnoc(parse, seen, events, j);
      if !ttftRecorded && IsContentEvent(parse, events[j]) {
        ttftRecorded := true;
        ttft := ttft + [i];
      }
      if !usageCharged {
        var found := ExtractUsage(parse, events[j]);
        if found.Some? {
          usageCharged := true;
          if onUsage {
            onUsage := false;
            charges := charges + [Charge(i, found.value)];
          }
        }
      }
    }
    assert events[..|events|] == events;
  }

  function NewCharges(i: nat, usage: Option<Usage>): seq<Charge> {
    if usage.Some? then [Charge(i, usage.value)] else []
  }

  // ---- From events to lines of the whole -----------------------------------------

  function ContentInEvents(parse: JsonParser, events: seq<Bytes>): bool {
    if events == [] then false
    else ContentInEvents(parse, events[..|events| - 1]) || IsContentEvent(parse, events[|events| - 1])
  }

  function UsageInEvents(parse: JsonParser, events: seq<Bytes>): Option<Usage> {
    if events == [] then None
    else
      var earlier := UsageInEvents(parse, events[..|events| - 1]);
      if earlier.Some? then earlier else ExtractUsage(parse, events[|events| - 1])
  }

  lemma EventsSnoc(parse: JsonParser, before: seq<Bytes>, events: seq<Bytes>, j: nat)
    requires j < |events|
    ensures
      var done, next := before + events[..j], before + events[..j + 1];
      && ContentInEvents(parse, next) == (ContentInEvents(parse, done) || IsContentEvent(parse, events[j]))
      && UsageInEvents(parse, next) ==
         (if UsageInEvents(parse, done).Some? then UsageInEvents(parse, done) else ExtractUsage(parse, events[j]))
  {
    hide IsContentEvent, ExtractUsage;
    var next := before + events[..j + 1];
    assert next[..|next| - 1] == before + events[..j];
  }

  lemma ReadStep(polls: seq<Poll>, i: nat)
    requires i <= |polls|
    ensures ChunksRead(polls[i..]) ==
            if i < |polls| && polls[i].Chunk? then [polls[i].bytes] + ChunksRead(polls[i + 1..]) else []
  {
  }

  lemma PassedSnoc(chunks: seq<Bytes>, bytes: Bytes)
    ensures Passed(chunks + [bytes]) == Passed(chunks) + [Data(bytes)]
  {
  }

  lemma EmptyFeed(parse: JsonParser)
    ensures Feed([]) == ([], []) && UsageInEvents(parse, []) == None && !ContentInEvents(parse, [])
    ensures Passed([]) == []
  {
  }

  lemma FeedSnoc(chunks: seq<Bytes>, bytes: Bytes)
    ensures
      var (events, buffer) := Feed(chunks);
      Feed(chunks + [bytes]) == (events + Decodable(Split(buffer + bytes).0), Split(buffer + bytes).1)
  {
    hide Split, Decodable;
    assert (chunks + [bytes])[..|chunks|] == chunks;
  }

  lemma {:induction false} EventsAreLines(parse: JsonParser, events: seq<Bytes>)
    requires forall k :: 0 <= k < |events| ==> IsFrame(events[k])
    ensures Flatten(events) == [] || Flatten(events)[|Flatten(events)| - 1] == NEWLINE
    ensures ContentInLines(parse, Lines(Flatten(events))) == ContentInEvents(parse, events)
    ensures UsageInLines(parse, Lines(Flatten(events))) == UsageInEvents(parse, events)
  {
    hide IsFrame, IsContentEvent, ExtractUsage, Lines, ContentInLines, UsageInLines;
    EmptyScan(parse);
    if events != [] {
      var n := |events| - 1;
      EventsAreLines(parse, events[..n]);
      FrameScan(parse, events[n]);
      assert events == events[..n] + [events[n]];
      FlattenAppend(events[..n], [events[n]]);
      assert Flatten([events[n]]) == events[n];
      LinesAppend(Flatten(events[..n]), events[n]);
      ScanAppend(parse, Lines(Flatten(events[..n])), Lines(events[n]));
    }
  }

  lemma EmptyScan(parse: JsonParser)
    ensures Lines([]) == [] && !ContentInLines(parse, []) && UsageInLines(parse, []) == None
  {
  }

  lemma FrameScan(parse: JsonParser, f: Bytes)
    requires IsFrame(f)
    ensures f != [] && f[|f| - 1] == NEWLINE
    ensures IsContentEvent(parse, f) == ContentInLines(parse, Lines(f))
    ensures ExtractUsage(parse, f) == UsageInLines(parse, Lines(f))
  {
  }

  lemma {:induction false} DecodableFrames(frames: seq<Bytes>)
    requires forall k :: 0 <= k < |frames| ==> IsFrame(frames[k])
    ensures forall k :: 0 <= k < |Decodable(frames)| ==> IsFrame(Decodable(frames)[k])
  {
    hide IsFrame, IsUtf8;
    if frames != [] {
      DecodableFrames(frames[1..]);
    }
  }

  lemma BatchIsEvents(parse: JsonParser, chunks: seq<Bytes>)
    ensures BatchContent(parse, Flatten(chunks)) == ContentInEvents(parse, Feed(chunks).0)
    ensures BatchUsage(parse, Flatten(chunks)) == UsageInEvents(parse, Feed(chunks).0)
  {
    hide IsFrame, Split, Decodable, Feed, Lines, Flatten;
    FeedIsSplit(chunks);
    SplitIsFraming(Flatten(chunks));
    DecodableFrames(Split(Flatten(chunks)).0);
    EventsAreLines(parse, Feed(chunks).0);
  }

  lemma ContentStep(parse: JsonParser, chunks: seq<Bytes>, bytes: Bytes, ttft: seq<nat>, recordedBefore: bool)
    requires recordedBefore == ContentInEvents(parse, Feed(chunks).0)
    requires recordedBefore ==> |ttft| == 1 && FirstContentAt(parse, chunks, ttft[0])
    requires !recordedBefore ==>
               ttft == if ContentInEvents(parse, Feed(chunks + [bytes]).0) then [|chunks|] else []
    ensures ttft != [] ==> |ttft| == 1 && FirstContentAt(parse, chunks + [bytes], ttft[0])
  {
    hide BatchContent, ContentInEvents, Feed;
    var all := chunks + [bytes];
    if recordedBefore {
      var k := ttft[0];
      assert all[..k] == chunks[..k] && all[..k + 1] == chunks[..k + 1];
    } else if ttft != [] {
      assert all[..|chunks|] == chunks && all[..|chunks| + 1] == all;
      BatchIsEvents(parse, chunks);
      BatchIsEvents(parse, all);
    }
  }

  lemma {:induction false} FindsStay(parse: JsonParser, chunks: seq<Bytes>, j: nat)
    requires j <= |chunks|
    ensures ContentInEvents(parse, Feed(chunks[..j]).0) ==> ContentInEvents(parse, Feed(chunks).0)
    ensures UsageInEvents(parse, Feed(chunks[..j]).0).Some? ==>
              UsageInEvents(parse, Feed(chunks).0) == UsageInEvents(parse, Feed(chunks[..j]).0)
    decreases |chunks|
  {
    hide Split, Decodable;
    if j < |chunks| {
      var before := chunks[..|chunks| - 1];
      assert before[..j] == chunks[..j];
      FindsStay(parse, before, j);
      var events := Decodable(Split(Feed(before).1 + chunks[|chunks| - 1]).0);
      assert Feed(chunks).0 == Feed(before).0 + events;
      MoreEvents(parse, Feed(before).0, events);
    } else {
      assert chunks[..j] == chunks;
    }
  }

  lemma {:induction false} MoreEvents(parse: JsonParser, events: seq<Bytes>, more: seq<Bytes>)
    ensures ContentInEvents(parse, events) ==> ContentInEvents(parse, events + more)
    ensures UsageInEvents(parse, events).Some? ==> UsageInEvents(parse, events + more) == UsageInEvents(parse, events)
  {
    hide IsContentEvent, ExtractUsage;
    if more == [] {
      assert events + more == events;
    } else {
      MoreEvents(parse, events, more[..|more| - 1]);
      assert (events + more)[..|events + more| - 1] == events + more[..|more| - 1];
    }
  }

  // What has been found never goes away again, so there is one first chunk for each, and
  // the recorded TTFT and the charge are determined.
  lemma FirstFindsAreUnique(parse: JsonParser, chunks: seq<Bytes>, j: nat, k: nat)
    ensures FirstContentAt(parse, chunks, j) && FirstContentAt(parse, chunks, k) ==> j == k
    ensures FirstUsageAt(parse, chunks, j) && FirstUsageAt(parse, chunks, k) ==> j == k
  {
    hide BatchContent, BatchUsage, Feed, ContentInEvents, UsageInEvents;
    if j < k <= |chunks| {
      FoundBefore(parse, chunks, j, k);
    } else if k < j <= |chunks| {
      FoundBefore(parse, chunks, k, j);
    }
  }

  lemma FoundBefore(parse: JsonParser, chunks: seq<Bytes>, j: nat, k: nat)
    requires j < k <= |chunks|
    ensures BatchContent(parse, Flatten(chunks[..j + 1])) ==> BatchContent(parse, Flatten(chunks[..k]))
    ensures BatchUsage(parse, Flatten(chunks[..j + 1])).Some? ==> BatchUsage(parse, Flatten(chunks[..k])).Some?
  {
    hide BatchContent, BatchUsage, Feed, ContentInEvents, UsageInEvents;
    assert chunks[..k][..j + 1] == chunks[..j + 1];
    BatchIsEvents(parse, chunks[..j + 1]);
    BatchIsEvents(parse, chunks[..k]);
    FindsStay(parse, chunks[..k], j + 1);
  }

  lemma ChargesTell(parse: JsonParser, chunks: seq<Bytes>, charges: seq<Charge>)
    requires UsageInEvents(parse, Feed(chunks).0).None? ==> charges == []
    requires UsageInEvents(parse, Feed(chunks).0).Some? ==>
               IsCharge(parse, chunks, charges, UsageInEvents(parse, Feed(chunks).0).value)
    ensures charges == [] <==> UsageInEvents(parse, Feed(chunks).0).None?
  {
  }

  lemma UsageStep(parse: JsonParser, chunks: seq<Bytes>, bytes: Bytes, before: seq<Charge>, after: seq<Charge>)
    requires UsageInEvents(parse, Feed(chunks).0).None? ==> before == []
    requires UsageInEvents(parse, Feed(chunks).0).Some? ==>
               && IsCharge(parse, chunks, before, UsageInEvents(parse, Feed(chunks).0).value)
               && after == before
               && UsageInEvents(parse, Feed(chunks + [bytes]).0) == UsageInEvents(parse, Feed(chunks).0)
    requires before == [] ==> after == NewCharges(|chunks|, UsageInEvents(parse, Feed(chunks + [bytes]).0))
    ensures
      match UsageInEvents(parse, Feed(chunks + [bytes]).0)
      case None => after == []
      case Some(usage) => IsCharge(parse, chunks + [bytes], after, usage)
  {
    hide BatchUsage, UsageInEvents, Feed;
    var all := chunks + [bytes];
    if before != [] {
      var k := before[0].at;
      assert all[..k] == chunks[..k] && all[..k + 1] == chunks[..k + 1];
    } else {
      assert all[..|chunks|] == chunks && all[..|chunks| + 1] == all;
      BatchIsEvents(parse, chunks);
      BatchIsEvents(parse, all);
    }
  }

  // For a stream of valid UTF-8 the part that is scanned is simply everything before
  // the unfinished frame at the end.
  lemma CompletePartIsPrefix(read: Bytes, future: Bytes)
    requires IsUtf8(read + future)
    ensures CompletePart(read) + Split(read).1 == read
  {
    hide IsFrame, Split, IsUtf8;
    SplitIsFraming(read);
    var (frames, rest) := Split(read);
    assert read + future == Flatten(frames) + (rest + future);
    FramesDecode(frames, rest + future);
  }

  // A usage that is not an object, such as an explicit null, counts as a report of no
  // tokens. Wherever it is the first, it settles the charge of the whole stream at zero and
  // every later usage record is ignored; in particular the real one at the end.
  lemma {:induction false} NonObjectUsageIsCharged(parse: JsonParser, before: seq<Bytes>, line: Bytes,
      later: seq<Bytes>)
    requires UsageInLines(parse, before).None?
    requires Payload(parse, line).Some? && Payload(parse, line).value.Get("usage").Some?
    ensures UsageInLines(parse, before + [line] + later).Some?
    ensures !Payload(parse, line).value.Get("usage").value.Obj? ==>
              UsageInLines(parse, before + [line] + later) == Some(Usage(0, 0))
  {
    hide Payload;
    assert (before + [line] + later)[0] == if before == [] then line else before[0];
    assert (before + [line] + later)[1..] == if before == [] then later else before[1..] + [line] + later;
    if before != [] {
      NonObjectUsageIsCharged(parse, before[1..], line, later);
    }
  }
}
