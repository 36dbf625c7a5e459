// Reading one event: src/proxy/sse_parser.rs, lines 49-125. The JSON parser is a
// parameter, from the text after `data: ` to an optional value.

module SseEvents {
  import opened Basics
  import opened Utf8

  datatype Json =
    | Null
    | Bool(b: bool)
    | Number(asU64: Option<nat>)
    | Str(s: string)
    | Arr(items: seq<Json>)
    | Obj(fields: map<string, Json>)
  {
    function Get(key: string): Option<Json> {
      if Obj? && key in fields then Some(fields[key]) else None
    }

    function AsU64(): Option<nat> {
      if Number? then asU64 else None
    }
  }

  type JsonParser = Bytes -> Option<Json>

  datatype Usage = Usage(prompt: nat, completion: nat)

  const CARRIAGE_RETURN: Byte := 0x0D
  const DATA_PREFIX: Bytes := [100, 97, 116, 97, 58, 32]
  const DONE: Bytes := [91, 68, 79, 78, 69, 93]

  function FirstNewline(s: Bytes): (end: Option<nat>)
    ensures end.None? ==> NEWLINE !in s
    ensures end.Some? ==> end.value < |s| && s[end.value] == NEWLINE
    ensures end.Some? ==> forall k :: 0 <= k < end.value ==> s[k] != NEWLINE
  {
    if s == [] then None
    else if s[0] == NEWLINE then Some(0)
    else
      var rest := FirstNewline(s[1..]);
      if rest.None? then None else Some(rest.value + 1)
  }

  function StripCarriageReturn(s: Bytes): Bytes {
    if |s| > 0 && s[|s| - 1] == CARRIAGE_RETURN then s[..|s| - 1] else s
  }

  // `str::lines`: a final piece without a newline is kept as it is, CR included.
  function Lines(s: Bytes): seq<Bytes>
    decreases |s|
  {
    if s == [] then []
    else
      match FirstNewline(s)
      case None => [s]
      case Some(i) => [StripCarriageReturn(s[..i])] + Lines(s[i + 1..])
  }

  // The JSON value carried by a line, if it is a data line that carries one.
  function Payload(parse: JsonParser, line: Bytes): Option<Json> {
    if |line| >= 6 && line[..6] == DATA_PREFIX && line[6..] != DONE then parse(line[6..]) else None
  }

  predicate HasContent(val: Json) {
    && val.Get("choices").Some?
    && val.Get("choices").value.Arr?
    && exists i :: 0 <= i < |val.Get("choices").value.items| && IsContentChoice(val.Get("choices").value.items[i])
  }

  predicate IsContentChoice(choice: Json) {
    && choice.Get("delta").Some?
    && choice.Get("delta").value.Get("content").Some?
    && choice.Get("delta").value.Get("content").value.Str?
    && choice.Get("delta").value.Get("content").value.s != ""
  }

  // Any `usage` key counts, even one that is null: absent counts read as zero.
  function UsageOf(val: Json): Option<Usage> {
    if val.Get("usage").None? then None
    else Some(Usage(TokenCount(val.Get("usage").value, "prompt_tokens"),
                    TokenCount(val.Get("usage").value, "completion_tokens")))
  }

  function TokenCount(usage: Json, key: string): nat {
    var field := usage.Get(key);
    if field.Some? && field.value.AsU64().Some? then field.value.AsU64().value else 0
  }

  function ContentInLines(parse: JsonParser, lines: seq<Bytes>): bool {
    if lines == [] then false
    else
      var val := Payload(parse, lines[0]);
      (val.Some? && HasContent(val.value)) || ContentInLines(parse, lines[1..])
  }

  function UsageInLines(parse: JsonParser, lines: seq<Bytes>): Option<Usage> {
    if lines == [] then None
    else
      var val := Payload(parse, lines[0]);
      if val.Some? && UsageOf(val.value).Some? then UsageOf(val.value) else UsageInLines(parse, lines[1..])
  }

  function IsContentEvent(parse: JsonParser, event: Bytes): bool {
    ContentInLines(parse, Lines(event))
  }

  function ExtractUsage(parse: JsonParser, event: Bytes): Option<Usage> {
    UsageInLines(parse, Lines(event))
  }

  // ---- Scanning events one by one is scanning the lines of the whole -------------

  lemma {:induction false} ScanAppend(parse: JsonParser, a: seq<Bytes>, b: seq<Bytes>)
    ensures ContentInLines(parse, a + b) <==> ContentInLines(parse, a) || ContentInLines(parse, b)
    ensures UsageInLines(parse, a + b) ==
            if UsageInLines(parse, a).Some? then UsageInLines(parse, a) else UsageInLines(parse, b)
  {
    hide Payload, HasContent, UsageOf;
    if a == [] {
      assert a + b == b;
    } else {
      assert (a + b)[1..] == a[1..] + b && (a + b)[0] == a[0];
      ScanAppend(parse, a[1..], b);
    }
  }

  lemma FirstNewlineIs(s: Bytes, i: nat)
    requires i < |s| && s[i] == NEWLINE && forall k :: 0 <= k < i ==> s[k] != NEWLINE
    ensures FirstNewline(s) == Some(i)
  {
    hide FirstNewline;
    var end := FirstNewline(s);
    assert NEWLINE in s;
  }

  lemma {:induction false} LinesAppend(a: Bytes, b: Bytes)
    requires a == [] || a[|a| - 1] == NEWLINE
    ensures Lines(a + b) == Lines(a) + Lines(b)
    decreases |a|
  {
    hide StripCarriageReturn;
    if a == [] {
      assert a + b == b;
    } else {
      var i := FirstNewline(a).value;
      FirstNewlineIs(a + b, i);
      var c := a[i + 1..];
      assert (a + b)[..i] == a[..i] && (a + b)[i + 1..] == c + b;
      LinesAppend(c, b);
      Associative([StripCarriageReturn(a[..i])], Lines(c), Lines(b));
    }
  }

  // ---- What the scans find, written out ---------------------------------------------------

  // The bytes of a text in ASCII.
  function Ascii(text: string): (b: Bytes)
    requires forall i :: 0 <= i < |text| ==> text[i] as int < 128
    ensures |b| == |text| && forall i :: 0 <= i < |b| ==> b[i] as int == text[i] as int
  {
    seq(|text|, i requires 0 <= i < |text| => (text[i] as int) as Byte)
  }

  // A line carries what follows `data: `, unless that is `[DONE]`; other lines carry nothing.
  lemma DataLine(parse: JsonParser, line: Bytes)
    ensures forall rest :: line == Ascii("data: ") + rest && rest != Ascii("[DONE]") ==>
              Payload(parse, line) == parse(rest)
    ensures line == Ascii("data: ") + Ascii("[DONE]") ==> Payload(parse, line) == None
    ensures (forall rest :: line != Ascii("data: ") + rest) ==> Payload(parse, line) == None
  {
    assert Ascii("data: ") == DATA_PREFIX && Ascii("[DONE]") == DONE;
    if |line| >= 6 && line[..6] == DATA_PREFIX {
      assert line == Ascii("data: ") + line[6..];
    }
    forall rest | line == Ascii("data: ") + rest && rest != Ascii("[DONE]")
      ensures Payload(parse, line) == parse(rest)
    {
      assert line[..6] == DATA_PREFIX && line[6..] == rest;
    }
    if line == Ascii("data: ") + Ascii("[DONE]") {
      assert line[6..] == DONE;
    }
  }

  // A line ends at a line feed, without it and without one carriage return before it; what
  // follows the last line feed is a line too, unless it is empty.
  lemma FirstLine(line: Bytes, rest: Bytes)
    requires forall i :: 0 <= i < |line| ==> line[i] as int != 10
    ensures Lines(line + [10 as Byte] + rest) ==
            [if line != [] && line[|line| - 1] as int == 13 then line[..|line| - 1] else line] + Lines(rest)
    ensures Lines(line) == if line == [] then [] else [line]
  {
    var whole := line + [10 as Byte] + rest;
    FirstNewlineIs(whole, |line|);
    assert whole[..|line|] == line && whole[|line| + 1..] == rest;
    assert NEWLINE !in line;
    assert FirstNewline(line).None?;
  }

  // Content is a choice whose delta has a content that is a non-empty string.
  lemma ContentExactly(val: Json)
    ensures HasContent(val) <==>
            && val.Obj? && "choices" in val.fields && val.fields["choices"].Arr?
            && exists i :: 0 <= i < |val.fields["choices"].items| && Speaks(val.fields["choices"].items[i])
  {
    if val.Obj? && "choices" in val.fields && val.fields["choices"].Arr? {
      var items := val.fields["choices"].items;
      assert forall i :: 0 <= i < |items| ==> (IsContentChoice(items[i]) <==> Speaks(items[i]));
    }
  }

  predicate Speaks(choice: Json) {
    && choice.Obj? && "delta" in choice.fields && choice.fields["delta"].Obj?
    && "content" in choice.fields["delta"].fields
    && match choice.fields["delta"].fields["content"]
       case Str(text) => |text| > 0
       case _ => false
  }

  // In a chunk with one choice: a text counts, an empty one does not, nor does none.
  lemma ContentOfOneChoice(delta: map<string, Json>, text: string)
    ensures
      var choice := Obj(map["delta" := Obj(delta)]);
      var val := Obj(map["choices" := Arr([choice])]);
      && ("content" in delta && delta["content"] == Str(text) && text != "" ==> HasContent(val))
      && ("content" in delta && delta["content"] == Str("") ==> !HasContent(val))
      && ("content" !in delta ==> !HasContent(val))
  {
    var choice := Obj(map["delta" := Obj(delta)]);
    var val := Obj(map["choices" := Arr([choice])]);
    assert val.fields["choices"].items[0] == choice;
  }

  // The count under a key of a usage object.
  function CountUnder(usage: map<string, Json>, key: string): nat {
    if key !in usage then 0
    else match usage[key]
      case Number(Some(n)) => n
      case _ => 0
  }

  // The first usage record of a stream is the one that is found, with its two counts; a count
  // that is absent, or not a natural number of 64 bits, reads as zero.
  lemma {:induction false} FirstUsageIsFound(parse: JsonParser, before: seq<Bytes>, line: Bytes, later: seq<Bytes>,
      usage: map<string, Json>)
    requires UsageInLines(parse, before).None?
    requires
      && Payload(parse, line).Some? && Payload(parse, line).value.Obj?
      && "usage" in Payload(parse, line).value.fields
      && Payload(parse, line).value.fields["usage"] == Obj(usage)
    ensures UsageInLines(parse, before + [line] + later) ==
            Some(Usage(CountUnder(usage, "prompt_tokens"), CountUnder(usage, "completion_tokens")))
  {
    hide Payload;
    assert (before + [line] + later)[0] == if before == [] then line else before[0];
    assert (before + [line] + later)[1..] == if before == [] then later else before[1..] + [line] + later;
    if before != [] {
      FirstUsageIsFound(parse, before[1..], line, later, usage);
    }
  }

  // Nothing is found exactly if no line carries an object with a usage, or a content.
  lemma {:induction false} FoundIfThere(parse: JsonParser, lines: seq<Bytes>)
    ensures UsageInLines(parse, lines).Some? <==>
            exists k :: 0 <= k < |lines| && CarriesUsage(Payload(parse, lines[k]))
    ensures ContentInLines(parse, lines) <==>
            exists k :: 0 <= k < |lines| && CarriesContent(Payload(parse, lines[k]))
  {
    hide Payload, HasContent;
    if lines != [] {
      FoundIfThere(parse, lines[1..]);
      forall k | 0 <= k < |lines[1..]|
        ensures lines[1..][k] == lines[k + 1]
      {
      }
      if k :| 0 <= k < |lines| && CarriesUsage(Payload(parse, lines[k])) && k > 0 {
        assert lines[1..][k - 1] == lines[k];
      }
      if k :| 0 <= k < |lines| && CarriesContent(Payload(parse, lines[k])) && k > 0 {
        assert lines[1..][k - 1] == lines[k];
      }
    }
  }

  predicate CarriesUsage(val: Option<Json>) {
    val.Some? && val.value.Obj? && "usage" in val.value.fields
  }

  predicate CarriesContent(val: Option<Json>) {
    val.Some? && HasContent(val.value)
  }
}
