/** Server-sent events: `parse_sse_events`, and the stream a server writes for a
    list of payloads. The parser departs from sections 9.2.5 and 9.2.6 of the
    WHATWG HTML standard: it drops leading empty data lines, dispatches events
    with empty data, and flushes an unfinished last event. */
module Sse {
  import opened Common
  import Decimal

  datatype Event = Event(event: string, data: string, id: string, retryMs: int)

  const EMPTY_EVENT := Event("", "", "", -1)

  // -------------------------------------------------------------------- lines

  /** `find`: the first `c` in `s` at or after `start`, or `|s|`. */
  function FindFrom(s: string, c: char, start: nat): (i: nat)
    requires start <= |s|
    ensures start <= i <= |s|
    decreases |s| - start
  {
    if start == |s| || s[start] == c then start else FindFrom(s, c, start + 1)
  }

  function StripCr(line: string): string {
    if line != "" && line[|line| - 1] == '\r' then line[..|line| - 1] else line
  }

  // ------------------------------------------------------------------- fields

  predicate IsSpace(c: char) { c in " \t\n\r" || c == '\U{B}' || c == '\U{C}' }

  function SkipSpace(s: string): string {
    if s != "" && IsSpace(s[0]) then SkipSpace(s[1..]) else s
  }

  function DigitPrefix(s: string): string
    ensures Decimal.AllDigits(DigitPrefix(s))
  {
    if s == "" || !Decimal.IsDigit(s[0]) then "" else [s[0]] + DigitPrefix(s[1..])
  }

  /** `std::stoi`: leading space and a sign are allowed, trailing text is
      ignored, and a number outside `int` is refused. */
  function StoI(s: string): Option<int> {
    var t := SkipSpace(s);
    var negative := t != "" && t[0] == '-';
    var digits := DigitPrefix(if t != "" && (t[0] == '-' || t[0] == '+') then t[1..] else t);
    if digits == "" then None
    else
      var n: int := if negative then -(Decimal.Value(digits) as int) else Decimal.Value(digits);
      if -0x8000_0000 <= n < 0x8000_0000 then Some(n) else None
  }

  /** The data after one more data line. */
  function AddData(data: string, value: string): string {
    (if data == "" then "" else data + "\n") + value
  }

  function FieldOf(line: string): string { line[..FindFrom(line, ':', 0)] }

  /** The text after the colon, less one leading space. */
  function ValueOf(line: string): string {
    var colon := FindFrom(line, ':', 0);
    if colon + 1 >= |line| then ""
    else if line[colon + 1] == ' ' then line[colon + 2..]
    else line[colon + 1..]
  }

  /** What a line says: a blank line ends the event, a line that starts with a
      colon, an unknown field or an unreadable retry says nothing. */
  datatype Line = Blank | Data(value: string) | Name(value: string) | Id(value: string) | Retry(ms: int) | Nothing

  function Classify(line: string): Line {
    if line == "" then Blank
    else if line[0] == ':' then Nothing
    else
      match FieldOf(line)
      case "data" => Data(ValueOf(line))
      case "event" => Name(ValueOf(line))
      case "id" => Id(ValueOf(line))
      case "retry" => if StoI(ValueOf(line)).Some? then Retry(StoI(ValueOf(line)).value) else Nothing
      case _ => Nothing
  }

  function Update(current: Event, line: Line): Event {
    match line
    case Data(value) => current.(data := AddData(current.data, value))
    case Name(value) => current.(event := value)
    case Id(value) => current.(id := value)
    case Retry(ms) => current.(retryMs := ms)
    case _ => current
  }

  /** An unfinished event is kept if it carries data, an id or a retry. */
  function Flush(current: Event): seq<Event> {
    if current.data != "" || current.id != "" || current.retryMs >= 0 then [current] else []
  }

  /** The events in a list of lines, `current` being under way. */
  function EventsIn(lines: seq<Line>, current: Event): seq<Event> {
    if lines == [] then Flush(current)
    else if lines[0] == Blank then [current] + EventsIn(lines[1..], EMPTY_EVENT)
    else EventsIn(lines[1..], Update(current, lines[0]))
  }

  /** The lines of a text, split at line feeds, each less a closing carriage return. */
  function Lines(s: string): seq<string> {
    var end := FindFrom(s, '\n', 0);
    [StripCr(s[..end])] + if end == |s| then [] else Lines(s[end + 1..])
  }

  function Classified(lines: seq<string>): seq<Line> {
    seq(|lines|, i requires 0 <= i < |lines| => Classify(lines[i]))
  }

  function ParsedEvents(body: string): seq<Event> { EventsIn(Classified(Lines(body)), EMPTY_EVENT) }

  // --------------------------------------------------------------- the parser

  /** `events` and what is in the lines that are left make up `all`. */
  ghost predicate Remaining(all: seq<Event>, lines: seq<Line>, events: seq<Event>, current: Event) {
    events + EventsIn(lines, current) == all
  }

  /** The reading of one line by the loop. */
  method ReadLine(line: string) returns (r: Line)
    ensures r == Classify(line)
  {
    if line == "" {
      return Blank;
    }
    if line[0] == ':' {
      return Nothing;
    }
    var colon := FindFrom(line, ':', 0);
    var field := line[..colon];
    var value := "";
    if colon + 1 < |line| {
      value := line[colon + 1..];
      if value[0] == ' ' {
        value := value[1..];
      }
    }
    assert value == ValueOf(line);
    if field == "data" {
      return Data(value);
    } else if field == "event" {
      return Name(value);
    } else if field == "id" {
      return Id(value);
    } else if field == "retry" && StoI(value).Some? {
      return Retry(StoI(value).value);
    }
    return Nothing;
  }

  lemma FoundInSuffix(s: string, start: nat)
    requires start <= |s|
    ensures FindFrom(s[start..], '\n', 0) == FindFrom(s, '\n', start) - start
  {
    assert s == s[..start] + s[start..];
    FindShift(s[..start], s[start..], '\n', 0);
  }

  lemma SuffixSlices(s: string, start: nat, end: nat)
    requires start <= end <= |s|
    ensures s[start..][..end - start] == s[start..end]
    ensures end < |s| ==> s[start..][end - start + 1..] == s[end + 1..]
  {
  }

  lemma FirstLine(s: string, start: nat, end: nat)
    requires start <= |s| && end == FindFrom(s, '\n', start)
    ensures Lines(s[start..]) == [StripCr(s[start..end])] + if end == |s| then [] else Lines(s[end + 1..])
  {
    FoundInSuffix(s, start);
    SuffixSlices(s, start, end);
  }

  /** What the loop has still to read: from `start` on while there is more, and nothing after that. */
  ghost predicate Reading(all: seq<Event>, body: string, start: nat, more: bool, events: seq<Event>, current: Event) {
    start <= |body| && Remaining(all, Classified(if more then Lines(body[start..]) else []), events, current)
  }

  lemma StartReading(body: string)
    ensures Reading(ParsedEvents(body), body, 0, true, [], EMPTY_EVENT)
  {
    assert body[0..] == body;
  }

  lemma StopReading(all: seq<Event>, body: string, start: nat, events: seq<Event>, current: Event)
    requires Reading(all, body, start, false, events, current)
    ensures events + Flush(current) == all
  {
    assert Classified([]) == [];
  }

  /** One turn of the loop, from the line that begins at `start` to the next. */
  method TakeLineAt(ghost all: seq<Event>, body: string, start: nat, events: seq<Event>, current: Event)
    returns (start': nat, more: bool, events': seq<Event>, current': Event)
    requires Reading(all, body, start, true, events, current)
    ensures Reading(all, body, start', more, events', current')
    ensures more ==> start < start'
  {
    var end := FindFrom(body, '\n', start);
    FirstLine(body, start, end);
    ghost var left := if end == |body| then [] else Lines(body[end + 1..]);
    events', current' := Absorb(all, StripCr(body[start..end]), left, events, current);
    more := end < |body|;
    start' := if more then end + 1 else start;
  }

  /** `parse_sse_events`: walks the body by line ends, one index at a time. */
  method ParseSseEvents(body: string) returns (events: seq<Event>)
    ensures events == ParsedEvents(body)
  {
    ghost var all := ParsedEvents(body);
    StartReading(body);
    events := [];
    var current := EMPTY_EVENT;
    var lineStart := 0;
    var more := true;
    while more
      invariant Reading(all, body, lineStart, more, events, current)
      decreases more, |body| - lineStart
    {
      lineStart, more, events, current := TakeLineAt(all, body, lineStart, events, current);
    }
    StopReading(all, body, lineStart, events, current);
    if current.data != "" || current.id != "" || current.retryMs >= 0 {
      events := events + [current];
    }
  }

  method Absorb(ghost all: seq<Event>, line: string, ghost left: seq<string>, events: seq<Event>, current: Event)
    returns (events': seq<Event>, current': Event)
    requires Remaining(all, Classified([line] + left), events, current)
    ensures Remaining(all, Classified(left), events', current')
  {
    ghost var lines := Classified([line] + left);
    assert lines[1..] == Classified(left);
    events', current' := events, current;
    var kind := ReadLine(line);
    if kind == Blank {
      events', current' := events + [current], EMPTY_EVENT;
    } else {
      current' := Update(current, kind);
    }
  }

  // ------------------------------------------------------- writing a stream

  /** The lines of a payload. */
  function PayloadLines(p: string): seq<string>
    decreases |p|
  {
    var i := FindFrom(p, '\n', 0);
    [p[..i]] + if i == |p| then [] else PayloadLines(p[i + 1..])
  }

  function Joined(lines: seq<string>): string {
    if lines == [] then ""
    else if |lines| == 1 then lines[0]
    else lines[0] + "\n" + Joined(lines[1..])
  }

  const DATA_PREFIX := "data: "

  /** Line ends are a line feed, or a carriage return and a line feed. */
  function CrOf(crlf: bool): string { if crlf then "\r" else "" }

  function PrintLines(lines: seq<string>, crlf: bool): string {
    if lines == [] then "" else DATA_PREFIX + lines[0] + CrOf(crlf) + "\n" + PrintLines(lines[1..], crlf)
  }

  /** A payload as `data:` lines and a blank line. */
  function PrintPayload(p: string, crlf: bool): string {
    PrintLines(PayloadLines(p), crlf) + CrOf(crlf) + "\n"
  }

  function PrintAll(payloads: seq<string>, crlf: bool): string {
    if payloads == [] then "" else PrintPayload(payloads[0], crlf) + PrintAll(payloads[1..], crlf)
  }

  /** What the parser keeps of a line. */
  function Kept(line: string, crlf: bool): string { if crlf then line else StripCr(line) }

  /** The data that comes of more data lines. */
  function Accumulated(data: string, lines: seq<string>, crlf: bool): string
    decreases |lines|
  {
    if lines == [] then data else Accumulated(AddData(data, Kept(lines[0], crlf)), lines[1..], crlf)
  }

  /** What a payload comes back as. */
  function Recovered(p: string, crlf: bool): string { Accumulated("", PayloadLines(p), crlf) }

  function NonEmpty(ss: seq<string>): seq<string> {
    if ss == [] then [] else (if ss[0] == "" then [] else [ss[0]]) + NonEmpty(ss[1..])
  }

  /** The client's loop over the events skips those with empty data. */
  function DataOf(events: seq<Event>): seq<string> {
    if events == [] then [] else (if events[0].data == "" then [] else [events[0].data]) + DataOf(events[1..])
  }

  function RecoveredAll(payloads: seq<string>, crlf: bool): seq<string> {
    seq(|payloads|, i requires 0 <= i < |payloads| => Recovered(payloads[i], crlf))
  }

  // --------------------------------------------------- lines of the stream

  predicate NoLf(s: string) { forall i :: 0 <= i < |s| ==> s[i] != '\n' }

  lemma {:induction false} FindsFirst(s: string, c: char, start: nat)
    requires start <= |s|
    ensures var i := FindFrom(s, c, start);
      (i < |s| ==> s[i] == c) && forall k :: start <= k < i ==> s[k] != c
    decreases |s| - start
  {
    if start < |s| && s[start] != c { FindsFirst(s, c, start + 1); }
  }

  lemma FindIs(s: string, c: char, start: nat, i: nat)
    requires start <= i < |s| && s[i] == c && forall k :: start <= k < i ==> s[k] != c
    ensures FindFrom(s, c, start) == i
  {
    FindsFirst(s, c, start);
  }

  lemma {:induction false} FindShift(a: string, b: string, c: char, start: nat)
    requires start <= |b|
    ensures FindFrom(a + b, c, |a| + start) == |a| + FindFrom(b, c, start)
    decreases |b| - start
  {
    if start < |b| {
      assert (a + b)[|a| + start] == b[start];
      if b[start] != c { FindShift(a, b, c, start + 1); }
    }
  }

  lemma FirstLf(line: string, rest: string)
    requires NoLf(line)
    ensures var s := line + "\n" + rest;
      FindFrom(s, '\n', 0) == |line| && s[0..|line|] == line && |line| + 1 <= |s|
  {
    var s := line + "\n" + rest;
    assert s[|line|] == '\n' && forall k :: 0 <= k < |line| ==> s[k] == line[k];
    FindIs(s, '\n', 0, |line|);
  }

  lemma OneLine(line: string, rest: string)
    requires NoLf(line)
    ensures Lines(line + "\n" + rest) == [StripCr(line)] + Lines(rest)
  {
    FirstLf(line, rest);
    assert (line + "\n" + rest)[|line| + 1..] == rest;
  }

  lemma DataLine(line: string, crlf: bool)
    ensures Classify(StripCr(DATA_PREFIX + line + CrOf(crlf))) == Data(Kept(line, crlf))
  {
    var kept := Kept(line, crlf);
    StrippedDataLine(line, crlf);
    var text := DATA_PREFIX + kept;
    assert text[0] == 'd' && text[1] == 'a' && text[2] == 't' && text[3] == 'a' && text[4] == ':' && text[5] == ' ';
    FindIs(text, ':', 0, 4);
    assert text[..4] == "data";
    assert text[6..] == kept;
    ValueOfData(kept);
  }

  lemma ValueOfData(kept: string)
    requires FindFrom(DATA_PREFIX + kept, ':', 0) == 4
    ensures ValueOf(DATA_PREFIX + kept) == kept
  {
    var text := DATA_PREFIX + kept;
    assert text[5] == ' ' && text[6..] == kept;
  }

  lemma StrippedDataLine(line: string, crlf: bool)
    ensures StripCr(DATA_PREFIX + line + CrOf(crlf)) == DATA_PREFIX + Kept(line, crlf)
  {
    var s := DATA_PREFIX + line + CrOf(crlf);
    if crlf {
      assert s[..|s| - 1] == DATA_PREFIX + line;
    } else {
      assert s == DATA_PREFIX + line;
      if line == "" {
        assert s[|s| - 1] == ' ';
      } else {
        assert s[|s| - 1] == line[|line| - 1];
        assert s[..|s| - 1] == DATA_PREFIX + line[..|line| - 1];
      }
    }
  }

  predicate AllNoLf(lines: seq<string>) { forall i :: 0 <= i < |lines| ==> NoLf(lines[i]) }

  lemma {:induction false} PayloadLinesJoin(p: string)
    ensures PayloadLines(p) != [] && AllNoLf(PayloadLines(p)) && Joined(PayloadLines(p)) == p
    decreases |p|
  {
    var i := FindFrom(p, '\n', 0);
    FindsFirst(p, '\n', 0);
    if i < |p| {
      PayloadLinesJoin(p[i + 1..]);
      assert p == p[..i] + "\n" + p[i + 1..];
      assert PayloadLines(p)[1..] == PayloadLines(p[i + 1..]);
    }
  }

  /** The data lines of a payload, then whatever follows. */
  ghost function StreamLines(lines: seq<string>, crlf: bool, rest: seq<string>): seq<string> {
    if lines == [] then rest
    else [StripCr(DATA_PREFIX + lines[0] + CrOf(crlf))] + StreamLines(lines[1..], crlf, rest)
  }

  lemma {:induction false} PrintedLines(lines: seq<string>, crlf: bool, rest: string)
    requires AllNoLf(lines)
    ensures Lines(PrintLines(lines, crlf) + rest) == StreamLines(lines, crlf, Lines(rest))
  {
    if lines == [] {
      assert PrintLines(lines, crlf) + rest == rest;
    } else {
      var line := DATA_PREFIX + lines[0] + CrOf(crlf);
      var more := PrintLines(lines[1..], crlf) + rest;
      assert PrintLines(lines, crlf) + rest == line + "\n" + more;
      assert NoLf(line);
      OneLine(line, more);
      PrintedLines(lines[1..], crlf, rest);
    }
  }

  // ------------------------------------------------- events of the stream

  lemma ClassifiedCons(line: string, rest: seq<string>)
    ensures Classified([line] + rest) == [Classify(line)] + Classified(rest)
  {
  }

  lemma {:induction false} DataLinesAccumulate(lines: seq<string>, crlf: bool, rest: seq<string>, current: Event)
    ensures EventsIn(Classified(StreamLines(lines, crlf, rest)), current)
         == EventsIn(Classified(rest), current.(data := Accumulated(current.data, lines, crlf)))
    decreases |lines|
  {
    if lines != [] {
      var line := StripCr(DATA_PREFIX + lines[0] + CrOf(crlf));
      var more := StreamLines(lines[1..], crlf, rest);
      ClassifiedCons(line, more);
      DataLine(lines[0], crlf);
      assert ([Classify(line)] + Classified(more))[1..] == Classified(more);
      DataLinesAccumulate(lines[1..], crlf, rest, current.(data := AddData(current.data, Kept(lines[0], crlf))));
    }
  }

  /** One payload gives one event, with the data recovered from it. */
  lemma OnePayload(p: string, crlf: bool, rest: string)
    ensures EventsIn(Classified(Lines(PrintPayload(p, crlf) + rest)), EMPTY_EVENT)
         == [EMPTY_EVENT.(data := Recovered(p, crlf))] + EventsIn(Classified(Lines(rest)), EMPTY_EVENT)
  {
    var lines := PayloadLines(p);
    PayloadLinesJoin(p);
    var blank := CrOf(crlf) + "\n" + rest;
    assert PrintPayload(p, crlf) + rest == PrintLines(lines, crlf) + blank;
    PrintedLines(lines, crlf, blank);
    OneLine(CrOf(crlf), rest);
    assert StripCr(CrOf(crlf)) == "";
    var after := Lines(rest);
    DataLinesAccumulate(lines, crlf, [""] + after, EMPTY_EVENT);
    ClassifiedCons("", after);
    assert ([Classify("")] + Classified(after))[1..] == Classified(after);
  }

  /** Writing payloads, parsing, and dropping events with empty data gives, in
      order, what each payload comes back as, if that is not empty. */
  lemma {:induction false} StreamRecovers(payloads: seq<string>, crlf: bool)
    ensures DataOf(ParsedEvents(PrintAll(payloads, crlf))) == NonEmpty(RecoveredAll(payloads, crlf))
    decreases |payloads|
  {
    if payloads == [] {
      assert Lines("") == [""];
      assert Classified([""]) == [Blank];
    } else {
      var rest := PrintAll(payloads[1..], crlf);
      var first := EMPTY_EVENT.(data := Recovered(payloads[0], crlf));
      OnePayload(payloads[0], crlf, rest);
      StreamRecovers(payloads[1..], crlf);
      DataOfCons(first, ParsedEvents(rest));
      RecoveredCons(payloads, crlf);
    }
  }

  lemma DataOfCons(first: Event, rest: seq<Event>)
    ensures DataOf([first] + rest) == NonEmpty([first.data]) + DataOf(rest)
  {
    assert ([first] + rest)[1..] == rest;
  }

  lemma RecoveredCons(payloads: seq<string>, crlf: bool)
    requires payloads != []
    ensures NonEmpty(RecoveredAll(payloads, crlf))
         == NonEmpty([Recovered(payloads[0], crlf)]) + NonEmpty(RecoveredAll(payloads[1..], crlf))
  {
    assert RecoveredAll(payloads, crlf)[1..] == RecoveredAll(payloads[1..], crlf);
  }

  // ------------------------------------------- when a payload is unchanged

  predicate EndsInCr(line: string) { line != "" && line[|line| - 1] == '\r' }

  /** A carriage return stands at the end of a line of the payload. */
  predicate LosesCr(p: string, crlf: bool) { !crlf && exists i :: 0 <= i < |p| && CrEndsLine(p, i) }

  predicate CrEndsLine(p: string, i: nat)
    requires i < |p|
  {
    p[i] == '\r' && (i + 1 == |p| || p[i + 1] == '\n')
  }

  predicate SomeLineEndsInCr(lines: seq<string>) { exists i :: 0 <= i < |lines| && EndsInCr(lines[i]) }

  /** The same said of the lines. */
  lemma {:induction false} LosesCrByLine(p: string)
    ensures LosesCr(p, false) <==> SomeLineEndsInCr(PayloadLines(p))
    decreases |p|
  {
    var e := FindFrom(p, '\n', 0);
    var lines := PayloadLines(p);
    FindsFirst(p, '\n', 0);
    if e == |p| {
      assert p[..e] == p && lines == [p];
      if EndsInCr(p) { assert CrEndsLine(p, |p| - 1) && EndsInCr(lines[0]); }
    } else {
      var rest := p[e + 1..];
      LosesCrByLine(rest);
      assert lines == [p[..e]] + PayloadLines(rest);
      CrInFirstLineOrRest(p, e, rest);
      FirstOrLater(p[..e], PayloadLines(rest));
    }
  }

  lemma FirstOrLater(line: string, rest: seq<string>)
    ensures SomeLineEndsInCr([line] + rest) <==> EndsInCr(line) || SomeLineEndsInCr(rest)
  {
    var lines := [line] + rest;
    if EndsInCr(line) { assert EndsInCr(lines[0]); }
    if SomeLineEndsInCr(rest) {
      var i :| 0 <= i < |rest| && EndsInCr(rest[i]);
      assert EndsInCr(lines[i + 1]);
    }
  }

  lemma CrInFirstLineOrRest(p: string, e: nat, rest: string)
    requires e < |p| && p[e] == '\n' && rest == p[e + 1..] && forall k :: 0 <= k < e ==> p[k] != '\n'
    ensures LosesCr(p, false) <==> EndsInCr(p[..e]) || LosesCr(rest, false)
  {
    if EndsInCr(p[..e]) { assert CrEndsLine(p, e - 1); }
    if LosesCr(rest, false) {
      var i :| 0 <= i < |rest| && CrEndsLine(rest, i);
      assert CrEndsLine(p, e + 1 + i);
    }
    if LosesCr(p, false) {
      var i :| 0 <= i < |p| && CrEndsLine(p, i);
      if i > e { assert CrEndsLine(rest, i - e - 1); }
    }
  }

  function KeptAll(lines: seq<string>, crlf: bool): seq<string> {
    if lines == [] then [] else [Kept(lines[0], crlf)] + KeptAll(lines[1..], crlf)
  }

  lemma {:induction false} KeptLength(lines: seq<string>, crlf: bool)
    ensures |KeptAll(lines, crlf)| == |lines| && |Joined(KeptAll(lines, crlf))| <= |Joined(lines)|
    ensures !crlf && SomeLineEndsInCr(lines) ==> |Joined(KeptAll(lines, crlf))| < |Joined(lines)|
    ensures crlf || !SomeLineEndsInCr(lines) ==> KeptAll(lines, crlf) == lines
  {
    if lines != [] {
      KeptLength(lines[1..], crlf);
      assert lines == [lines[0]] + lines[1..];
      assert KeptAll(lines, crlf)[1..] == KeptAll(lines[1..], crlf);
    }
  }

  /** With data under way every further line is kept, after a line feed. */
  lemma {:induction false} AccumulateAfter(data: string, lines: seq<string>, crlf: bool)
    requires data != ""
    ensures Accumulated(data, lines, crlf) == Joined([data] + KeptAll(lines, crlf))
    decreases |lines|
  {
    if lines == [] {
      assert [data] + KeptAll(lines, crlf) == [data];
    } else {
      var kept, more := Kept(lines[0], crlf), KeptAll(lines[1..], crlf);
      calc {
        Accumulated(data, lines, crlf);
        Accumulated(data + "\n" + kept, lines[1..], crlf);
        { AccumulateAfter(data + "\n" + kept, lines[1..], crlf); }
        Joined([data + "\n" + kept] + more);
        { JoinedMerge(data, kept, more); }
        Joined([data, kept] + more);
        { assert [data] + KeptAll(lines, crlf) == [data, kept] + more; }
        Joined([data] + KeptAll(lines, crlf));
      }
    }
  }

  lemma JoinedMerge(a: string, b: string, more: seq<string>)
    ensures Joined([a + "\n" + b] + more) == Joined([a, b] + more)
  {
    var both := [a, b] + more;
    assert both[1..] == [b] + more;
    assert ([a + "\n" + b] + more)[1..] == more && ([b] + more)[1..] == more;
    if more != [] {
      assert a + "\n" + b + "\n" + Joined(more) == a + "\n" + (b + "\n" + Joined(more));
    }
  }

  /** From nothing, leading empty lines are dropped and the rest joined. */
  lemma {:induction false} AccumulateFromEmpty(lines: seq<string>, crlf: bool)
    requires lines != []
    ensures var kept := KeptAll(lines, crlf);
      if kept[0] != "" || |lines| == 1 then Accumulated("", lines, crlf) == Joined(kept)
      else |Accumulated("", lines, crlf)| < |Joined(kept)|
    decreases |lines|
  {
    var kept := KeptAll(lines, crlf);
    var first := Kept(lines[0], crlf);
    assert AddData("", first) == first;
    KeptLength(lines, crlf);
    assert kept == [first] + KeptAll(lines[1..], crlf) && kept[1..] == KeptAll(lines[1..], crlf);
    if first != "" {
      AccumulateAfter(first, lines[1..], crlf);
    } else if |lines| > 1 {
      AccumulateFromEmpty(lines[1..], crlf);
    } else {
      assert lines[1..] == [];
    }
  }

  lemma StartsWithLf(p: string)
    requires p != ""
    ensures p[0] == '\n' <==> PayloadLines(p)[0] == "" && |PayloadLines(p)| > 1
  {
    PayloadLinesJoin(p);
    FindsFirst(p, '\n', 0);
    assert PayloadLines(p)[0] == p[..FindFrom(p, '\n', 0)];
    if FindFrom(p, '\n', 0) < |p| { PayloadLinesJoin(p[FindFrom(p, '\n', 0) + 1..]); }
  }

  /** The data of a payload's event is the payload exactly when it is empty, or
      does not start with a line feed and loses no carriage return. */
  lemma RecoveredUnchangedIff(p: string, crlf: bool)
    ensures Recovered(p, crlf) == p <==> p == "" || (p[0] != '\n' && !LosesCr(p, crlf))
  {
    var lines := PayloadLines(p);
    PayloadLinesJoin(p);
    LosesCrByLine(p);
    KeptLength(lines, crlf);
    AccumulateFromEmpty(lines, crlf);
    if p == "" {
      FindsFirst(p, '\n', 0);
      assert lines == [""];
    } else {
      StartsWithLf(p);
    }
  }

  /** A payload the stream brings back: an event with empty data is skipped, a
      leading line feed is dropped, and so is a carriage return at the end of a
      line when line ends are a line feed alone. */
  predicate Survives(p: string, crlf: bool) { p != "" && p[0] != '\n' && !LosesCr(p, crlf) }

  /** Writing payloads, parsing and dropping empty data gives the payloads back,
      in order, exactly when each of them survives. */
  lemma StreamRoundTripsIff(payloads: seq<string>, crlf: bool)
    ensures DataOf(ParsedEvents(PrintAll(payloads, crlf))) == payloads <==>
            forall i :: 0 <= i < |payloads| ==> Survives(payloads[i], crlf)
  {
    var back := RecoveredAll(payloads, crlf);
    StreamRecovers(payloads, crlf);
    NoneDropped(back);
    forall i | 0 <= i < |payloads| ensures payloads[i] != "" ==> (back[i] == payloads[i] <==> Survives(payloads[i], crlf)) {
      RecoveredUnchangedIff(payloads[i], crlf);
    }
    if forall i :: 0 <= i < |payloads| ==> Survives(payloads[i], crlf) {
      assert back == payloads;
    }
  }

  /** Dropping the empty ones leaves a list as long as before only if there were none. */
  lemma {:induction false} NoneDropped(ss: seq<string>)
    ensures |NonEmpty(ss)| <= |ss|
    ensures (forall i :: 0 <= i < |ss| ==> ss[i] != "") ==> NonEmpty(ss) == ss
    ensures |NonEmpty(ss)| == |ss| ==> NonEmpty(ss) == ss && forall i :: 0 <= i < |ss| ==> ss[i] != ""
  {
    if ss != [] { NoneDropped(ss[1..]); }
  }

  /** Payloads that are not empty, do not start with a line feed and have no
      carriage return are all recovered, in order, for either line end. */
  lemma PayloadsRoundTrip(payloads: seq<string>, crlf: bool)
    requires forall i :: 0 <= i < |payloads| ==>
               payloads[i] != "" && payloads[i][0] != '\n' && '\r' !in payloads[i]
    ensures DataOf(ParsedEvents(PrintAll(payloads, crlf))) == payloads
  {
    StreamRoundTripsIff(payloads, crlf);
  }

  lemma OneComesBack(p: string, crlf: bool)
    ensures DataOf(ParsedEvents(PrintAll([p], crlf))) == NonEmpty([Recovered(p, crlf)])
  {
    StreamRecovers([p], crlf);
    assert RecoveredAll([p], crlf) == [Recovered(p, crlf)];
  }

  lemma LinesOfOne(p: string)
    requires NoLf(p)
    ensures PayloadLines(p) == [p]
  {
    FindsFirst(p, '\n', 0);
    assert p[..|p|] == p;
  }

  lemma OneLineComesBack(p: string, crlf: bool)
    requires NoLf(p)
    ensures Recovered(p, crlf) == Kept(p, crlf)
  {
    LinesOfOne(p);
    assert [p][1..] == [];
    assert Accumulated("", [p], crlf) == AddData("", Kept(p, crlf));
  }

  lemma LeadingLfIsDropped(p: string, crlf: bool)
    requires NoLf(p)
    ensures Recovered("\n" + p, crlf) == Kept(p, crlf)
  {
    var q := "\n" + p;
    assert FindFrom(q, '\n', 0) == 0 && q[..0] == "" && q[1..] == p;
    LinesOfOne(p);
    assert PayloadLines(q) == ["", p] && ["", p][1..] == [p] && [p][1..] == [];
    assert Accumulated("", ["", p], crlf) == Accumulated("", [p], crlf) == AddData("", Kept(p, crlf));
  }

  lemma EmptyPayloadIsSkipped(p: string, crlf: bool)
    requires p == ""
    ensures DataOf(ParsedEvents(PrintAll([p], crlf))) == []
  {
    OneComesBack(p, crlf);
    OneLineComesBack(p, crlf);
  }

  lemma ComesBackAs(p: string, crlf: bool, back: string)
    requires Recovered(p, crlf) == back && back != ""
    ensures DataOf(ParsedEvents(PrintAll([p], crlf))) == [back]
  {
    OneComesBack(p, crlf);
    assert [back][1..] == [];
  }

  /** Whatever the line `p` is, a line feed before it is lost. */
  lemma LeadingLfIsLost(p: string, crlf: bool)
    requires p != "" && NoLf(p) && !EndsInCr(p)
    ensures DataOf(ParsedEvents(PrintAll(["\n" + p], crlf))) == [p]
  {
    LeadingLfIsDropped(p, crlf);
    ComesBackAs("\n" + p, crlf, p);
  }

  /** And so is a carriage return behind it, when line ends are a line feed alone. */
  lemma ClosingCrIsLost(p: string)
    requires p != "" && NoLf(p)
    ensures DataOf(ParsedEvents(PrintAll([p + "\r"], false))) == [p]
  {
    var q := p + "\r";
    OneLineComesBack(q, false);
    assert StripCr(q) == p;
    ComesBackAs(q, false, p);
  }
}
