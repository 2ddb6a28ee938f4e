/**
 Complete lines of a text, and the two readings of a Server-Sent Events line.

 `Lines` and `Rest` say what the scanners' buffers must amount to: everything up to the last newline,
 cut into lines, and what follows it.
 */
module EventLines {
  import opened Wrappers
  import opened Json
  import opened Text

  function FirstBreak(s: string): (p: Option<nat>)
    ensures p.None? <==> '\n' !in s
    ensures p.Some? ==> p.value < |s| && s[p.value] == '\n' && '\n' !in s[..p.value]
  {
    if s == "" then None
    else if s[0] == '\n' then Some(0)
    else
      var q := FirstBreak(s[1..]);
      assert s == [s[0]] + s[1..];
      if q.None? then None
      else
        assert s[..q.value + 1] == [s[0]] + s[1..][..q.value];
        Some(q.value + 1)
  }

  function Lines(s: string): seq<string> {
    var p := FirstBreak(s);
    if p.None? then [] else [s[..p.value]] + Lines(s[p.value + 1..])
  }

  function Rest(s: string): string {
    var p := FirstBreak(s);
    if p.None? then s else Rest(s[p.value + 1..])
  }

  function Unlines(lines: seq<string>): string {
    if lines == [] then "" else lines[0] + "\n" + Unlines(lines[1..])
  }

  /** `Lines` and `Rest` cut a text at its newlines and lose nothing. */
  lemma {:induction false} LinesAndRest(s: string)
    ensures s == Unlines(Lines(s)) + Rest(s)
    ensures '\n' !in Rest(s)
    ensures forall l :: l in Lines(s) ==> '\n' !in l
  {
    var p := FirstBreak(s);
    if p.Some? {
      var line, more := s[..p.value], s[p.value + 1..];
      LinesAndRest(more);
      UnlinesCons(line, Lines(more), Rest(more));
      CutText(s, p.value);
    }
  }

  lemma UnlinesCons(line: string, lines: seq<string>, rest: string)
    ensures Unlines([line] + lines) + rest == line + "\n" + (Unlines(lines) + rest)
  {
  }

  lemma CutText(s: string, p: nat)
    requires p < |s| && s[p] == '\n'
    ensures s == s[..p] + "\n" + s[p + 1..]
  {
  }

  lemma {:induction false} BreakIsFirst(a: string, b: string)
    requires '\n' !in a
    ensures FirstBreak(a + "\n" + b) == Some(|a|)
  {
    var s := a + "\n" + b;
    if a != "" {
      assert s[1..] == a[1..] + "\n" + b;
      BreakIsFirst(a[1..], b);
    }
  }

  lemma {:induction false} BreakStays(a: string, b: string)
    requires FirstBreak(a).Some?
    ensures FirstBreak(a + b) == FirstBreak(a)
  {
    if a[0] != '\n' {
      assert (a + b)[1..] == a[1..] + b;
      BreakStays(a[1..], b);
    }
  }

  lemma LineFirst(a: string, b: string)
    requires '\n' !in a
    ensures Lines(a + "\n" + b) == [a] + Lines(b)
    ensures Rest(a + "\n" + b) == Rest(b)
  {
    BreakIsFirst(a, b);
    assert (a + "\n" + b)[..|a|] == a;
    assert (a + "\n" + b)[|a| + 1..] == b;
  }

  /** A text cut at its first newline, and the same text with more at its end. */
  lemma CutBoth(a: string, b: string) returns (line: string, more: string)
    requires FirstBreak(a).Some?
    ensures line == a[..FirstBreak(a).value] && more == a[FirstBreak(a).value + 1..]
    ensures Lines(a) == [line] + Lines(more) && Rest(a) == Rest(more) && |more| < |a|
    ensures Lines(a + b) == [line] + Lines(more + b) && Rest(a + b) == Rest(more + b)
  {
    var p := FirstBreak(a).value;
    line, more := a[..p], a[p + 1..];
    BreakStays(a, b);
    assert (a + b)[..p] == line && (a + b)[p + 1..] == more + b;
    CutAtBreak(a);
    CutAtBreak(a + b);
  }

  lemma {:induction false} RestAppend(a: string, b: string)
    ensures Rest(a + b) == Rest(Rest(a) + b)
    decreases |a|
  {
    if FirstBreak(a).Some? {
      var line, more := CutBoth(a, b);
      RestAppend(more, b);
    }
  }

  /** Feeding a text in two parts, the unfinished line carried over, is feeding it whole. */
  lemma {:induction false} LinesAppend(a: string, b: string)
    ensures Lines(a + b) == Lines(a) + Lines(Rest(a) + b)
    ensures Rest(a + b) == Rest(Rest(a) + b)
    decreases |a|
  {
    RestAppend(a, b);
    if FirstBreak(a).Some? {
      var line, more := CutBoth(a, b);
      LinesAppend(more, b);
      Regroup(line, Lines(more), Lines(Rest(more) + b));
    } else {
      assert Lines(a) == [];
    }
  }

  lemma Regroup<T>(x: T, a: seq<T>, b: seq<T>)
    ensures [x] + (a + b) == [x] + a + b
  {
  }

  lemma CutLines(s: string)
    requires FirstBreak(s).Some?
    ensures Lines(s) == [s[..FirstBreak(s).value]] + Lines(s[FirstBreak(s).value + 1..])
  {
  }

  lemma CutRest(s: string)
    requires FirstBreak(s).Some?
    ensures Rest(s) == Rest(s[FirstBreak(s).value + 1..])
  {
  }

  lemma CutAtBreak(s: string)
    requires FirstBreak(s).Some?
    ensures Lines(s) == [s[..FirstBreak(s).value]] + Lines(s[FirstBreak(s).value + 1..])
    ensures Rest(s) == Rest(s[FirstBreak(s).value + 1..])
  {
    CutLines(s);
    CutRest(s);
  }

  lemma {:induction false} RestIsIdempotent(s: string)
    ensures Lines(Rest(s)) == [] && Rest(Rest(s)) == Rest(s)
  {
    LinesAndRest(s);
  }

  // ---- data lines ---------------------------------------------------------------------------------

  type Parse = string -> Option<Value>

  predicate StartsWith(s: string, prefix: string) {
    |prefix| <= |s| && s[..|prefix|] == prefix
  }

  /** How `capture_usage_stream` reads a line: "data:" and any white space. */
  function CapturedValue(line: string, parse: Parse): Option<Value> {
    var t := Trim(line);
    if StartsWith(t, "data:") && TrimStart(t[5..]) != "[DONE]" then parse(TrimStart(t[5..])) else None
  }

  /** How `stream_response` reads a line: "data: " with exactly one space. */
  function ForwardedValue(line: string, parse: Parse): Option<Value> {
    var t := Trim(line);
    if StartsWith(t, "data: ") && t[6..] != "[DONE]" then parse(t[6..]) else None
  }

  /** The values of the data lines, in order. */
  function Values(lines: seq<string>, read: string -> Option<Value>): seq<Value> {
    if lines == [] then []
    else if read(lines[0]).Some? then [read(lines[0]).value] + Values(lines[1..], read)
    else Values(lines[1..], read)
  }

  function Capturing(parse: Parse): string -> Option<Value> {
    (line: string) => CapturedValue(line, parse)
  }

  function Forwarding(parse: Parse): string -> Option<Value> {
    (line: string) => ForwardedValue(line, parse)
  }

  /** Lines that end in CR LF read like lines that end in LF. */
  lemma CarriageReturnIsIgnored(line: string, parse: Parse)
    ensures CapturedValue(line + "\r", parse) == CapturedValue(line, parse)
    ensures ForwardedValue(line + "\r", parse) == ForwardedValue(line, parse)
  {
    TrimIgnoresWhite(line, '\r');
  }

  // ---- the two scanners compared ------------------------------------------------------------------

  /** The white space of JSON texts, section 2 of RFC 8259. */
  predicate IsJsonBlank(c: char) {
    c == ' ' || c == '\t' || c == '\n' || c == '\r'
  }

  function SkipBlanks(s: string): string {
    if s != "" && IsJsonBlank(s[0]) then SkipBlanks(s[1..]) else s
  }

  /**
   What is asked of a JSON reader: it skips JSON's own blanks, rejects a text that starts with any other
   white space, and finds no value in an empty text or in the end marker of a stream.
   */
  ghost predicate ReadsJson(parse: Parse) {
    && (forall s :: s != "" && IsJsonBlank(s[0]) ==> parse(s) == parse(s[1..]))
    && (forall s :: s != "" && IsWhite(s[0]) && !IsJsonBlank(s[0]) ==> parse(s).None?)
    && parse("") == None && parse("[DONE]") == None
  }

  /** A data line whose payload follows a space, perhaps more blanks, and no other white space. */
  predicate Spaced(line: string) {
    var t := Trim(line);
    StartsWith(t, "data: ") && SkipBlanks(t[6..]) == TrimStart(t[6..])
  }

  /** A data line with a JSON payload that is not spaced: the rewriting scanner does not see it. */
  predicate Missed(line: string, parse: Parse) {
    var t := Trim(line);
    StartsWith(t, "data:") && parse(TrimStart(t[5..])).Some? && !Spaced(line)
  }

  lemma {:induction false} TrimStartShortens(s: string)
    ensures |TrimStart(s)| <= |s|
  {
    if s != "" && IsWhite(s[0]) {
      TrimStartShortens(s[1..]);
    }
  }

  /** A reader that skips blanks sees the trimmed text exactly when nothing but blanks is trimmed. */
  lemma {:induction false} TrimmingReads(s: string, parse: Parse)
    requires ReadsJson(parse)
    ensures parse(s) == if SkipBlanks(s) == TrimStart(s) then parse(TrimStart(s)) else None
  {
    if s != "" && IsJsonBlank(s[0]) {
      TrimmingReads(s[1..], parse);
    } else if s != "" && IsWhite(s[0]) {
      TrimStartShortens(s[1..]);
    }
  }

  lemma DataPrefix(t: string)
    ensures StartsWith(t, "data: ") <==> StartsWith(t, "data:") && |t| > 5 && t[5] == ' '
    ensures StartsWith(t, "data: ") ==> TrimStart(t[5..]) == TrimStart(t[6..])
  {
  }

  /** The usage scanner sees whatever the rewriting scanner sees, and the missed lines besides. */
  lemma ScannersOnLine(line: string, parse: Parse)
    requires ReadsJson(parse)
    ensures ForwardedValue(line, parse) == if Missed(line, parse) then None else CapturedValue(line, parse)
    ensures Missed(line, parse) ==> CapturedValue(line, parse).Some?
  {
    var t := Trim(line);
    DataPrefix(t);
    if StartsWith(t, "data: ") {
      TrimmingReads(t[6..], parse);
    }
  }

  lemma {:induction false} MissedValuesAreFewer(lines: seq<string>, parse: Parse)
    requires ReadsJson(parse)
    ensures var captured, forwarded := Values(lines, Capturing(parse)), Values(lines, Forwarding(parse));
            if exists l :: l in lines && Missed(l, parse) then |forwarded| < |captured| else forwarded == captured
  {
    if lines != [] {
      ScannersOnLine(lines[0], parse);
      MissedValuesAreFewer(lines[1..], parse);
      assert forall l :: l in lines <==> l == lines[0] || l in lines[1..];
    }
  }

  /** The two scanners extract the same values exactly from the streams with no missed line. */
  lemma ScannersAgreeIff(lines: seq<string>, parse: Parse)
    requires ReadsJson(parse)
    ensures Values(lines, Capturing(parse)) == Values(lines, Forwarding(parse))
            <==> forall l :: l in lines ==> !Missed(l, parse)
  {
    MissedValuesAreFewer(lines, parse);
  }

  /** In particular from those that put a space after the colon and no exotic white space after it. */
  lemma SpacedStreamsAgree(lines: seq<string>, parse: Parse)
    requires ReadsJson(parse) && forall l :: l in lines && StartsWith(Trim(l), "data:") ==> Spaced(l)
    ensures Values(lines, Capturing(parse)) == Values(lines, Forwarding(parse))
  {
    ScannersAgreeIff(lines, parse);
  }

  /** Without the space, which the standard makes optional, only the usage scanner sees the value. */
  lemma UnspacedLineIsMissed(payload: string, parse: Parse)
    requires Tight(payload) && payload != "[DONE]" && parse(payload).Some?
    ensures Missed("data:" + payload, parse)
    ensures CapturedValue("data:" + payload, parse) == parse(payload)
    ensures ForwardedValue("data:" + payload, parse) == None
  {
    var line := "data:" + payload;
    TrimIsTight(line);
    DataPrefix(line);
    assert line[|line| - 1] == payload[|payload| - 1];
    assert line[5..] == payload && line[5] == payload[0];
    assert TrimStart(payload) == payload;
  }

  // ---- printing events ----------------------------------------------------------------------------

  /** `event` of src/routes/messages.rs, the JSON text already rendered. */
  function PrintEvent(name: string, payload: string): string {
    "event: " + name + "\ndata: " + payload + "\n\n"
  }

  datatype Event = Event(name: string, payload: Value)

  function PrintAll(events: seq<Event>, render: Value -> string): string {
    if events == [] then ""
    else PrintEvent(events[0].name, render(events[0].payload)) + PrintAll(events[1..], render)
  }

  /** What is asked of printing one payload: it is on one line, not blank at either end, and reads back. */
  predicate ReadsBack(render: Value -> string, parse: Parse, v: Value) {
    '\n' !in render(v) && Tight(render(v)) && render(v) != "[DONE]" && parse(render(v)) == Some(v)
  }

  function Payloads(events: seq<Event>): seq<Value> {
    if events == [] then [] else [events[0].payload] + Payloads(events[1..])
  }

  lemma DataLineReadsBack(v: Value, render: Value -> string, parse: Parse)
    requires ReadsBack(render, parse, v)
    ensures CapturedValue("data: " + render(v), parse) == Some(v)
    ensures ForwardedValue("data: " + render(v), parse) == Some(v)
  {
    var p := render(v);
    var line := "data: " + p;
    TrimIsTight(line);
    DataPrefix(line);
    assert line[|line| - 1] == p[|p| - 1];
    assert line[6..] == p && line[6] == p[0];
    assert TrimStart(p) == p;
  }

  lemma EventLineIsNoData(name: string, parse: Parse)
    ensures CapturedValue("event: " + name, parse) == None
    ensures ForwardedValue("event: " + name, parse) == None
  {
    var line := "event: " + name;
    assert line[0] == 'e';
    assert TrimStart(line) == line;
    TrimEndKeepsHead(line);
    HeadDiffers(Trim(line), "data:");
    HeadDiffers(Trim(line), "data: ");
  }

  lemma HeadDiffers(t: string, prefix: string)
    requires t != "" && prefix != "" && t[0] != prefix[0]
    ensures !StartsWith(t, prefix)
  {
  }

  lemma ThreeLines(l1: string, l2: string, l3: string, more: string)
    requires '\n' !in l1 && '\n' !in l2 && '\n' !in l3
    ensures Lines(l1 + "\n" + (l2 + "\n" + (l3 + "\n" + more))) == [l1, l2, l3] + Lines(more)
  {
    LineFirst(l1, l2 + "\n" + (l3 + "\n" + more));
    LineFirst(l2, l3 + "\n" + more);
    LineFirst(l3, more);
    Triple(l1, l2, l3, Lines(more));
  }

  lemma Triple<T>(a: T, b: T, c: T, more: seq<T>)
    ensures [a] + ([b] + ([c] + more)) == [a, b, c] + more
  {
  }

  lemma EventText(l1: string, l2: string, more: string)
    ensures l1 + "\n" + l2 + "\n\n" + more == l1 + "\n" + (l2 + "\n" + ("" + "\n" + more))
  {
  }

  lemma LinesOfEvent(name: string, payload: string, more: string)
    requires '\n' !in name && '\n' !in payload
    ensures Lines(PrintEvent(name, payload) + more)
         == ["event: " + name, "data: " + payload, ""] + Lines(more)
  {
    var l1, l2 := "event: " + name, "data: " + payload;
    assert PrintEvent(name, payload) == l1 + "\n" + l2 + "\n\n" by {
      assert "\ndata: " == "\n" + "data: ";
    }
    EventText(l1, l2, more);
    ThreeLines(l1, l2, "", more);
  }

  /** Scanning printed events gives back their payloads, in order, under both scanners. */
  lemma {:induction false} ScanInvertsPrint(events: seq<Event>, render: Value -> string, parse: Parse)
    requires forall e :: e in events ==> '\n' !in e.name && ReadsBack(render, parse, e.payload)
    ensures Values(Lines(PrintAll(events, render)), Capturing(parse)) == Payloads(events)
    ensures Values(Lines(PrintAll(events, render)), Forwarding(parse)) == Payloads(events)
  {
    if events != [] {
      var e, more := events[0], PrintAll(events[1..], render);
      ScanInvertsPrint(events[1..], render, parse);
      LinesOfEvent(e.name, render(e.payload), more);
      DataLineReadsBack(e.payload, render, parse);
      EventLineIsNoData(e.name, parse);
      EventValues(e, render, Capturing(parse), Lines(more));
      EventValues(e, render, Forwarding(parse), Lines(more));
    }
  }

  lemma EventValues(e: Event, render: Value -> string, read: string -> Option<Value>, more: seq<string>)
    requires read("event: " + e.name).None? && read("").None?
    requires read("data: " + render(e.payload)) == Some(e.payload)
    ensures Values(["event: " + e.name, "data: " + render(e.payload), ""] + more, read)
         == [e.payload] + Values(more, read)
  {
    var l1, l2 := "event: " + e.name, "data: " + render(e.payload);
    assert [l1, l2, ""] + more == [l1] + ([l2] + ([""] + more));
    ValuesCons(l1, [l2] + ([""] + more), read);
    ValuesCons(l2, [""] + more, read);
    ValuesCons("", more, read);
  }

  // ---- data-only streams ----------------------------------------------------------------------------

  /** A stream as OpenAI-style upstreams send it: data lines without names, and the end marker. */
  function PrintData(values: seq<Value>, render: Value -> string): string {
    if values == [] then "data: [DONE]\n\n" else "data: " + render(values[0]) + "\n\n" + PrintData(values[1..], render)
  }

  lemma TwoBreaks(l: string, more: string)
    ensures l + "\n\n" + more == l + "\n" + ("" + "\n" + more)
  {
  }

  lemma TwoLines(l: string, more: string)
    requires '\n' !in l
    ensures Lines(l + "\n" + ("" + "\n" + more)) == [l] + ([""] + Lines(more))
  {
    LineFirst(l, "" + "\n" + more);
    LineFirst("", more);
  }

  lemma EndMarkerIsNoData(parse: Parse)
    ensures CapturedValue("data: [DONE]", parse) == None && ForwardedValue("data: [DONE]", parse) == None
  {
    var line := "data: [DONE]";
    TrimIsTight(line);
    DataPrefix(line);
    assert line[..6] == "data: " && line[6..] == "[DONE]";
    assert TrimStart("[DONE]") == "[DONE]";
  }

  lemma LineValues(l: string, more: string, read: string -> Option<Value>)
    requires '\n' !in l && read("").None?
    ensures Values(Lines(l + "\n\n" + more), read)
         == (if read(l).Some? then [read(l).value] else []) + Values(Lines(more), read)
  {
    TwoBreaks(l, more);
    TwoLines(l, more);
    ValuesCons(l, [""] + Lines(more), read);
    ValuesCons("", Lines(more), read);
  }

  lemma DataLineValues(v: Value, more: string, render: Value -> string, parse: Parse, read: string -> Option<Value>)
    requires ReadsBack(render, parse, v) && (read == Capturing(parse) || read == Forwarding(parse))
    ensures Values(Lines("data: " + render(v) + "\n\n" + more), read) == [v] + Values(Lines(more), read)
  {
    DataLineReadsBack(v, render, parse);
    LineValues("data: " + render(v), more, read);
  }

  lemma EndMarkerValues(parse: Parse, read: string -> Option<Value>)
    requires read == Capturing(parse) || read == Forwarding(parse)
    ensures Values(Lines("data: [DONE]\n\n"), read) == []
  {
    EndMarkerIsNoData(parse);
    assert "data: [DONE]\n\n" == "data: [DONE]" + "\n\n" + "";
    assert Lines("") == [];
    LineValues("data: [DONE]", "", read);
  }

  /** A text reads as these values. */
  predicate ReadsAs(text: string, values: seq<Value>, read: string -> Option<Value>) {
    Values(Lines(text), read) == values
  }

  lemma OneMoreData(v: Value, more: string, rest: seq<Value>, render: Value -> string, parse: Parse,
                    read: string -> Option<Value>)
    requires ReadsBack(render, parse, v) && (read == Capturing(parse) || read == Forwarding(parse))
    requires ReadsAs(more, rest, read)
    ensures ReadsAs("data: " + render(v) + "\n\n" + more, [v] + rest, read)
  {
    DataLineValues(v, more, render, parse, read);
  }

  lemma NoMoreData(parse: Parse, read: string -> Option<Value>)
    requires read == Capturing(parse) || read == Forwarding(parse)
    ensures ReadsAs("data: [DONE]\n\n", [], read)
  {
    EndMarkerValues(parse, read);
  }

  lemma {:induction false} DataIsRead(values: seq<Value>, render: Value -> string, parse: Parse,
                                      read: string -> Option<Value>)
    requires forall v :: v in values ==> ReadsBack(render, parse, v)
    requires read == Capturing(parse) || read == Forwarding(parse)
    ensures ReadsAs(PrintData(values, render), values, read)
  {
    if values == [] {
      NoMoreData(parse, read);
    } else {
      DataIsRead(values[1..], render, parse, read);
      OneMoreData(values[0], PrintData(values[1..], render), values[1..], render, parse, read);
      assert values == [values[0]] + values[1..];
    }
  }

  /** Scanning such a stream gives back its values, in order, under both scanners. */
  lemma ScanInvertsData(values: seq<Value>, render: Value -> string, parse: Parse)
    requires forall v :: v in values ==> ReadsBack(render, parse, v)
    ensures Values(Lines(PrintData(values, render)), Capturing(parse)) == values
    ensures Values(Lines(PrintData(values, render)), Forwarding(parse)) == values
  {
    DataIsRead(values, render, parse, Capturing(parse));
    DataIsRead(values, render, parse, Forwarding(parse));
  }

  lemma ValuesCons(l: string, more: seq<string>, read: string -> Option<Value>)
    ensures Values([l] + more, read) == (if read(l).Some? then [read(l).value] else []) + Values(more, read)
  {
  }
}
