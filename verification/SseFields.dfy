/**
 * What the event-stream parser makes of every field of an event. A stream is
 * written as blocks of lines; its meaning is told from the lines of each block,
 * by the last line of each name, without following the parser.
 */
module SseFields {
  import opened Common
  import opened Sse
  import Decimal

  /** A line of a block: a field with its value, a name without a colon, or a comment. */
  datatype Item = Field(name: string, value: string, spaced: bool) | Bare(name: string) | Comment(text: string)

  function Text(item: Item): string {
    match item
    case Field(name, value, spaced) => name + (if spaced then ": " else ":") + value
    case Bare(name) => name
    case Comment(text) => ":" + text
  }

  /** The line can be written and read back: it has one line, and its parts are told apart. */
  predicate Writable(item: Item) {
    && NoLf(Text(item)) && !EndsInCr(Text(item))
    && (!item.Comment? ==> item.name != "" && ':' !in item.name)
    && (item.Field? && !item.spaced ==> item.value == "" || item.value[0] != ' ')
  }

  predicate AllWritable(items: seq<Item>) { forall i :: 0 <= i < |items| ==> Writable(items[i]) }

  /** Every line there can be is the text of such an item. */
  lemma EveryLineIsWritable(line: string) returns (item: Item)
    requires line != "" && NoLf(line) && !EndsInCr(line)
    ensures Text(item) == line && Writable(item)
  {
    var colon := FindFrom(line, ':', 0);
    FindsFirst(line, ':', 0);
    if colon == |line| {
      item := Bare(line);
    } else if colon == 0 {
      item := Comment(line[1..]);
      assert Text(item) == line;
    } else {
      item := FieldAt(line, colon, colon + 1 < |line| && line[colon + 1] == ' ');
    }
  }

  lemma FieldAt(line: string, colon: nat, spaced: bool) returns (item: Item)
    requires NoLf(line) && !EndsInCr(line)
    requires 0 < colon < |line| && line[colon] == ':' && forall k :: 0 <= k < colon ==> line[k] != ':'
    requires spaced <==> colon + 1 < |line| && line[colon + 1] == ' '
    ensures Text(item) == line && Writable(item)
  {
    var name, value := line[..colon], if spaced then line[colon + 2..] else line[colon + 1..];
    item := Field(name, value, spaced);
    assert Text(item) == line by {
      if spaced { assert line == name + ": " + value; } else { assert line == name + ":" + value; }
    }
  }

  // ---------------------------------------------------------------- meaning

  /** The value the line gives to the name, if it is a line of that name. */
  function ValueFor(item: Item, name: string): Option<string> {
    if item.Comment? || item.name != name then None else Some(if item.Field? then item.value else "")
  }

  function LastOf(items: seq<Item>, name: string): Option<string> {
    if items == [] then None
    else
      var last := ValueFor(items[|items| - 1], name);
      if last.Some? then last else LastOf(items[..|items| - 1], name)
  }

  /** The last retry that is a number, or -1. */
  function LastRetry(items: seq<Item>): int {
    if items == [] then -1
    else
      var last := ValueFor(items[|items| - 1], "retry");
      if last.Some? && StoI(last.value).Some? then StoI(last.value).value else LastRetry(items[..|items| - 1])
  }

  /** The values of the data lines. */
  function DataValues(items: seq<Item>): seq<string> {
    if items == [] then []
    else
      var last := ValueFor(items[|items| - 1], "data");
      DataValues(items[..|items| - 1]) + if last.Some? then [last.value] else []
  }

  function DropLeadingEmpty(ss: seq<string>): seq<string> {
    if ss != [] && ss[0] == "" then DropLeadingEmpty(ss[1..]) else ss
  }

  function OrEmpty(s: Option<string>): string { if s.Some? then s.value else "" }

  /** The event a block means. */
  function Meaning(items: seq<Item>): Event {
    Event(OrEmpty(LastOf(items, "event")), Joined(DropLeadingEmpty(DataValues(items))), OrEmpty(LastOf(items, "id")),
          LastRetry(items))
  }

  // ---------------------------------------------------------------- writing

  function PrintItems(items: seq<Item>, crlf: bool): string {
    if items == [] then "" else Text(items[0]) + CrOf(crlf) + "\n" + PrintItems(items[1..], crlf)
  }

  function PrintBlocks(blocks: seq<seq<Item>>, crlf: bool): string {
    if blocks == [] then "" else PrintItems(blocks[0], crlf) + CrOf(crlf) + "\n" + PrintBlocks(blocks[1..], crlf)
  }

  /** A last block that breaks off after the text of its last line. */
  function PrintTail(items: seq<Item>, last: Item, crlf: bool): string { PrintItems(items, crlf) + Text(last) }

  function Texts(items: seq<Item>): seq<string> { seq(|items|, i requires 0 <= i < |items| => Text(items[i])) }

  function Meanings(blocks: seq<seq<Item>>): seq<Event> {
    if blocks == [] then [] else [Meaning(blocks[0])] + Meanings(blocks[1..])
  }

  predicate BlocksWritable(blocks: seq<seq<Item>>) { forall i :: 0 <= i < |blocks| ==> AllWritable(blocks[i]) }

  // ------------------------------------------------------- one line is read

  lemma TextIsKept(item: Item, crlf: bool)
    requires Writable(item)
    ensures NoLf(Text(item) + CrOf(crlf)) && StripCr(Text(item) + CrOf(crlf)) == Text(item)
  {
    var text := Text(item);
    if crlf {
      assert (text + "\r")[..|text|] == text;
    } else {
      assert text + "" == text;
    }
  }

  lemma FieldIsRead(item: Item)
    requires Writable(item) && item.Field?
    ensures FieldOf(Text(item)) == item.name && ValueOf(Text(item)) == item.value && Text(item)[0] != ':'
  {
    var text, n := Text(item), |item.name|;
    assert text[..n] == item.name && text[n] == ':' && forall k :: 0 <= k < n ==> text[k] == item.name[k];
    FindIs(text, ':', 0, n);
    if item.spaced {
      assert text[n + 1] == ' ' && text[n + 2..] == item.value;
    } else {
      assert text[n + 1..] == item.value;
      if item.value != "" { assert text[n + 1] == item.value[0]; }
    }
  }

  lemma BareIsRead(item: Item)
    requires Writable(item) && item.Bare?
    ensures FieldOf(Text(item)) == item.name && ValueOf(Text(item)) == "" && Text(item)[0] != ':'
  {
    FindsFirst(item.name, ':', 0);
    assert FindFrom(item.name, ':', 0) == |item.name|;
    assert item.name[..|item.name|] == item.name;
  }

  /** What a line that can be written says. */
  lemma ItemIsRead(item: Item)
    requires Writable(item)
    ensures Text(item) != ""
    ensures Classify(Text(item))
         == if ValueFor(item, "data").Some? then Data(ValueFor(item, "data").value)
            else if ValueFor(item, "event").Some? then Name(ValueFor(item, "event").value)
            else if ValueFor(item, "id").Some? then Id(ValueFor(item, "id").value)
            else if ValueFor(item, "retry").Some? && StoI(ValueFor(item, "retry").value).Some?
            then Retry(StoI(ValueFor(item, "retry").value).value)
            else Nothing
  {
    if item.Field? { FieldIsRead(item); } else if item.Bare? { BareIsRead(item); }
  }

  // ------------------------------------------------------ a block is read

  lemma {:induction false} DropThenAdd(ss: seq<string>, s: string)
    ensures Joined(DropLeadingEmpty(ss + [s])) == AddData(Joined(DropLeadingEmpty(ss)), s)
  {
    if ss == [] {
      assert ss + [s] == [s] && [s][1..] == [];
    } else if ss[0] == "" {
      DropThenAdd(ss[1..], s);
      assert (ss + [s])[1..] == ss[1..] + [s];
    } else {
      JoinedAdd(ss, s);
      JoinedKeepsFirst(ss);
    }
  }

  lemma {:induction false} JoinedAdd(ss: seq<string>, s: string)
    requires ss != []
    ensures Joined(ss + [s]) == Joined(ss) + "\n" + s
  {
    assert (ss + [s])[1..] == ss[1..] + [s];
    if |ss| == 1 {
      assert ss[1..] + [s] == [s];
    } else {
      JoinedAdd(ss[1..], s);
      assert ss[0] + "\n" + (Joined(ss[1..]) + "\n" + s) == ss[0] + "\n" + Joined(ss[1..]) + "\n" + s;
    }
  }

  lemma JoinedKeepsFirst(ss: seq<string>)
    requires ss != [] && ss[0] != ""
    ensures Joined(ss) != ""
  {
  }

  lemma LastAdd(items: seq<Item>, item: Item, name: string)
    ensures LastOf(items + [item], name) == if ValueFor(item, name).Some? then ValueFor(item, name) else LastOf(items, name)
  {
    assert (items + [item])[..|items|] == items;
  }

  lemma RetryAdd(items: seq<Item>, item: Item)
    ensures var v := ValueFor(item, "retry");
      LastRetry(items + [item]) == if v.Some? && StoI(v.value).Some? then StoI(v.value).value else LastRetry(items)
  {
    assert (items + [item])[..|items|] == items;
  }

  lemma DataAdd(items: seq<Item>, item: Item)
    ensures var v := ValueFor(item, "data");
      Joined(DropLeadingEmpty(DataValues(items + [item])))
        == if v.Some? then AddData(Joined(DropLeadingEmpty(DataValues(items))), v.value)
           else Joined(DropLeadingEmpty(DataValues(items)))
  {
    assert (items + [item])[..|items|] == items;
    var v := ValueFor(item, "data");
    if v.Some? { DropThenAdd(DataValues(items), v.value); } else { assert DataValues(items) + [] == DataValues(items); }
  }

  /** Reading one more line of a block takes its meaning one line on. */
  lemma MeaningGrows(items: seq<Item>, item: Item)
    requires Writable(item)
    ensures Update(Meaning(items), Classify(Text(item))) == Meaning(items + [item])
  {
    ItemIsRead(item);
    LastAdd(items, item, "event");
    LastAdd(items, item, "id");
    RetryAdd(items, item);
    DataAdd(items, item);
  }

  lemma ReadOn(line: Line, rest: seq<Line>, current: Event)
    ensures EventsIn([line] + rest, current)
         == if line == Blank then [current] + EventsIn(rest, EMPTY_EVENT) else EventsIn(rest, Update(current, line))
  {
    assert ([line] + rest)[1..] == rest;
  }

  /** The event under way after the lines of some items. */
  ghost function After(items: seq<Item>): Event {
    if items == [] then EMPTY_EVENT else Update(After(items[..|items| - 1]), Classify(Text(items[|items| - 1])))
  }

  lemma {:induction false} AfterMeans(items: seq<Item>)
    requires AllWritable(items)
    ensures After(items) == Meaning(items)
  {
    if items != [] {
      var n := |items| - 1;
      var front, last := items[..n], items[n];
      AfterMeans(front);
      MeaningGrows(front, last);
      SplitLast(items, n);
    }
  }

  lemma {:induction false} LinesAreRead(items: seq<Item>, rest: seq<string>)
    requires AllWritable(items)
    ensures EventsIn(Classified(Texts(items) + rest), EMPTY_EVENT) == EventsIn(Classified(rest), After(items))
    decreases |items|
  {
    if items == [] {
      assert Texts(items) + rest == rest;
    } else {
      var n := |items| - 1;
      var front, line := items[..n], Text(items[n]);
      assert Texts(items) + rest == Texts(front) + ([line] + rest);
      LinesAreRead(front, [line] + rest);
      ClassifiedCons(line, rest);
      ItemIsRead(items[n]);
      ReadOn(Classify(line), Classified(rest), After(front));
    }
  }

  /** The lines of a block that has just begun. */
  lemma BlockIsRead(items: seq<Item>, rest: seq<string>)
    requires AllWritable(items)
    ensures EventsIn(Classified(Texts(items) + rest), EMPTY_EVENT) == EventsIn(Classified(rest), Meaning(items))
  {
    AfterMeans(items);
    LinesAreRead(items, rest);
  }

  lemma PrintFirst(items: seq<Item>, crlf: bool, rest: string)
    requires items != []
    ensures PrintItems(items, crlf) + rest == Text(items[0]) + CrOf(crlf) + "\n" + (PrintItems(items[1..], crlf) + rest)
  {
    Associates(Text(items[0]) + CrOf(crlf) + "\n", PrintItems(items[1..], crlf), rest);
  }

  lemma TextsFirst(items: seq<Item>, rest: seq<string>)
    requires items != []
    ensures Texts(items) + rest == [Text(items[0])] + (Texts(items[1..]) + rest)
  {
  }

  lemma {:induction false} ItemsAreLines(items: seq<Item>, crlf: bool, rest: string)
    requires AllWritable(items)
    ensures Lines(PrintItems(items, crlf) + rest) == Texts(items) + Lines(rest)
    decreases |items|
  {
    if items == [] {
      assert PrintItems(items, crlf) + rest == rest;
    } else {
      var later := items[1..];
      var more := PrintItems(later, crlf) + rest;
      PrintFirst(items, crlf, rest);
      TextIsKept(items[0], crlf);
      OneLine(Text(items[0]) + CrOf(crlf), more);
      ItemsAreLines(later, crlf, rest);
      TextsFirst(items, Lines(rest));
    }
  }

  /** A blank line ends the block. */
  lemma BlankLine(crlf: bool, rest: string)
    ensures Lines(CrOf(crlf) + "\n" + rest) == [""] + Lines(rest)
  {
    OneLine(CrOf(crlf), rest);
  }

  lemma BlockEnds(items: seq<Item>, rest: seq<string>)
    requires AllWritable(items)
    ensures EventsIn(Classified(Texts(items) + ([""] + rest)), EMPTY_EVENT)
         == [Meaning(items)] + EventsIn(Classified(rest), EMPTY_EVENT)
  {
    BlockIsRead(items, [""] + rest);
    ClassifiedCons("", rest);
    ReadOn(Blank, Classified(rest), Meaning(items));
  }

  /** A block and its blank line give one event. */
  lemma OneBlock(items: seq<Item>, crlf: bool, rest: string)
    requires AllWritable(items)
    ensures ParsedEvents(PrintItems(items, crlf) + CrOf(crlf) + "\n" + rest) == [Meaning(items)] + ParsedEvents(rest)
  {
    Associates(PrintItems(items, crlf), CrOf(crlf), "\n");
    Associates(PrintItems(items, crlf), CrOf(crlf) + "\n", rest);
    ItemsAreLines(items, crlf, CrOf(crlf) + "\n" + rest);
    BlankLine(crlf, rest);
    BlockEnds(items, Lines(rest));
  }

  lemma {:induction false} BlocksThen(blocks: seq<seq<Item>>, crlf: bool, rest: string)
    requires BlocksWritable(blocks)
    ensures ParsedEvents(PrintBlocks(blocks, crlf) + rest) == Meanings(blocks) + ParsedEvents(rest)
    decreases |blocks|
  {
    if blocks == [] {
      assert PrintBlocks(blocks, crlf) + rest == rest;
    } else {
      var first, later := blocks[0], blocks[1..];
      Associates(PrintItems(first, crlf) + CrOf(crlf) + "\n", PrintBlocks(later, crlf), rest);
      OneBlock(first, crlf, PrintBlocks(later, crlf) + rest);
      BlocksThen(later, crlf, rest);
      Associates([Meaning(first)], Meanings(later), ParsedEvents(rest));
    }
  }

  lemma NoMore(s: string)
    ensures s + "" == s
  {
  }

  lemma EndOfText()
    ensures ParsedEvents("") == [EMPTY_EVENT]
  {
    assert Lines("") == [""];
    assert Classified([""]) == [Blank];
  }

  /** A stream of whole blocks gives the meaning of each, in order, and then one
      event more: the end of the text reads as a blank line. */
  lemma BlocksAreRead(blocks: seq<seq<Item>>, crlf: bool)
    requires BlocksWritable(blocks)
    ensures ParsedEvents(PrintBlocks(blocks, crlf)) == Meanings(blocks) + [Event("", "", "", -1)]
  {
    BlocksThen(blocks, crlf, "");
    NoMore(PrintBlocks(blocks, crlf));
    EndOfText();
  }

  lemma LastLine(last: Item)
    requires Writable(last)
    ensures Lines(Text(last)) == [Text(last)]
  {
    var text := Text(last);
    FindsFirst(text, '\n', 0);
    assert text[..|text|] == text;
  }

  lemma TextsLast(items: seq<Item>, last: Item)
    ensures Texts(items) + [Text(last)] == Texts(items + [last]) + []
  {
  }

  lemma TailIsRead(items: seq<Item>, last: Item, crlf: bool)
    requires AllWritable(items) && Writable(last)
    ensures ParsedEvents(PrintTail(items, last, crlf)) == Flush(Meaning(items + [last]))
  {
    ItemsAreLines(items, crlf, Text(last));
    LastLine(last);
    TextsLast(items, last);
    AllWritableAdd(items, last);
    BlockIsRead(items + [last], []);
  }

  lemma AllWritableAdd(items: seq<Item>, last: Item)
    requires AllWritable(items) && Writable(last)
    ensures AllWritable(items + [last])
  {
  }

  /** A stream that breaks off within a block: what was read of it is an event if, and
      only if, it has data, an id or a retry that is not negative. */
  lemma BrokenOffBlockIsKeptIff(blocks: seq<seq<Item>>, items: seq<Item>, last: Item, crlf: bool)
    requires BlocksWritable(blocks) && AllWritable(items) && Writable(last)
    ensures var read := Meaning(items + [last]);
      ParsedEvents(PrintBlocks(blocks, crlf) + PrintTail(items, last, crlf))
        == Meanings(blocks) + if read.data != "" || read.id != "" || read.retryMs >= 0 then [read] else []
  {
    BlocksThen(blocks, crlf, PrintTail(items, last, crlf));
    TailIsRead(items, last, crlf);
  }

  // ----------------------------------------------------------- reading numbers

  predicate AllSpace(s: string) { forall i :: 0 <= i < |s| ==> s[i] == ' ' || '\t' <= s[i] <= '\r' }

  /** `text` is space, a sign, digits and whatever follows, each as long as it can be. */
  predicate Reads(text: string, space: string, sign: string, digits: string, rest: string) {
    && text == space + sign + digits + rest && AllSpace(space) && sign in {"", "+", "-"} && Decimal.AllDigits(digits)
    && (rest != "" ==> !Decimal.IsDigit(rest[0]))
    && (sign == "" && digits == "" && rest != "" ==> rest[0] !in " +-" && !('\t' <= rest[0] <= '\r'))
  }

  lemma SpaceInNumbers(c: char)
    ensures IsSpace(c) <==> c == ' ' || '\t' <= c <= '\r'
  {
  }

  lemma {:induction false} SkipsSpace(space: string, t: string)
    requires AllSpace(space) && (t != "" ==> !IsSpace(t[0]))
    ensures SkipSpace(space + t) == t
  {
    if space == "" {
      assert space + t == t;
    } else {
      SpaceInNumbers(space[0]);
      assert (space + t)[1..] == space[1..] + t;
      SkipsSpace(space[1..], t);
    }
  }

  lemma {:induction false} TakesDigits(digits: string, rest: string)
    requires Decimal.AllDigits(digits) && (rest != "" ==> !Decimal.IsDigit(rest[0]))
    ensures DigitPrefix(digits + rest) == digits
  {
    if digits == "" {
      assert digits + rest == rest;
    } else {
      assert (digits + rest)[1..] == digits[1..] + rest;
      TakesDigits(digits[1..], rest);
    }
  }

  /** `std::stoi` reads space, a sign and digits, and fails without a digit or outside `int`. */
  lemma NumberIsRead(text: string, space: string, sign: string, digits: string, rest: string)
    requires Reads(text, space, sign, digits, rest)
    ensures StoI(text)
         == if digits == "" then None
            else
              var n: int := if sign == "-" then -(Decimal.Value(digits) as int) else Decimal.Value(digits);
              if -2147483648 <= n <= 2147483647 then Some(n) else None
  {
    var t := sign + digits + rest;
    assert text == space + t && "" + sign == sign;
    BeginsNumber(t, sign, digits, rest);
    SkipsSpace(space, t);
    TakesDigits(digits, rest);
  }

  /** What stands behind the space. */
  lemma BeginsNumber(t: string, sign: string, digits: string, rest: string)
    requires Reads(t, "", sign, digits, rest)
    ensures t == sign + digits + rest && (t != "" ==> !IsSpace(t[0]))
    ensures sign != "" ==> t != "" && [t[0]] == sign && t[1..] == digits + rest
    ensures sign == "" ==> t == digits + rest && (t != "" ==> t[0] != '+' && t[0] != '-')
  {
    assert "" + sign == sign && t == sign + (digits + rest);
    if t != "" {
      assert t[0] == if sign != "" then sign[0] else if digits != "" then digits[0] else rest[0];
      SpaceInNumbers(t[0]);
    }
  }

  lemma {:induction false} SplitSpace(text: string) returns (space: string, t: string)
    ensures text == space + t && AllSpace(space) && (t != "" ==> !IsSpace(t[0]))
  {
    if text != "" && IsSpace(text[0]) {
      SpaceInNumbers(text[0]);
      space, t := SplitSpace(text[1..]);
      assert text == [text[0]] + space + t;
      space := [text[0]] + space;
    } else {
      space, t := "", text;
    }
  }

  lemma {:induction false} SplitDigits(text: string) returns (digits: string, rest: string)
    ensures text == digits + rest && Decimal.AllDigits(digits) && (rest != "" ==> !Decimal.IsDigit(rest[0]))
  {
    if text != "" && Decimal.IsDigit(text[0]) {
      digits, rest := SplitDigits(text[1..]);
      assert text == [text[0]] + digits + rest;
      digits := [text[0]] + digits;
    } else {
      digits, rest := "", text;
    }
  }

  lemma SplitSign(t: string) returns (sign: string, digits: string, rest: string)
    requires t != "" ==> !IsSpace(t[0])
    ensures Reads(t, "", sign, digits, rest)
  {
    sign := if t != "" && (t[0] == '+' || t[0] == '-') then [t[0]] else "";
    digits, rest := SplitDigits(t[|sign|..]);
    SignAndRest(t, sign, digits, rest);
  }

  lemma SignAndRest(t: string, sign: string, digits: string, rest: string)
    requires t != "" ==> !IsSpace(t[0])
    requires sign == if t != "" && (t[0] == '+' || t[0] == '-') then [t[0]] else ""
    requires t[|sign|..] == digits + rest && Decimal.AllDigits(digits) && (rest != "" ==> !Decimal.IsDigit(rest[0]))
    ensures Reads(t, "", sign, digits, rest)
  {
    assert t == sign + (digits + rest);
    Associates(sign, digits, rest);
    assert "" + sign == sign;
    if rest != "" { SpaceInNumbers(rest[0]); }
  }

  /** Every text can be read that way. */
  lemma EveryTextIsRead(text: string) returns (space: string, sign: string, digits: string, rest: string)
    ensures Reads(text, space, sign, digits, rest)
  {
    var t;
    space, t := SplitSpace(text);
    sign, digits, rest := SplitSign(t);
    assert "" + sign == sign;
    assert space + (sign + digits + rest) == space + sign + digits + rest;
  }
}
