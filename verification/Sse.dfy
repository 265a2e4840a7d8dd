// Server-sent events (WHATWG HTML standard, sections 9.2.5 and 9.2.6): the bus's writer
// (netbus/hub.go, writeEvent) and the line scanner that reads it back (internal/sse/sse.go).
module Sse {
  import opened Text

  const MAX_EVENT_BYTES: nat := 16777216

  const BOM: string := ['\U{EF}', '\U{BB}', '\U{BF}']

  datatype Event = Event(kind: string, data: string, id: string, retry: string)

  // ----- reading a line

  datatype LineEnd = Ended | AtEof | TooLong

  datatype Read = Read(text: string, rest: string, end: LineEnd)

  /** One line, its end taken off; a CR ends a line, and takes an LF after it along. */
  function ReadLine(acc: string, s: string): (r: Read)
    ensures r.end.Ended? ==> |r.rest| < |s|
    decreases |s|
  {
    if s == "" then Read(acc, "", AtEof)
    else if s[0] == '\n' then Read(acc, s[1..], Ended)
    else if s[0] == '\r' then Read(acc, if |s| > 1 && s[1] == '\n' then s[2..] else s[1..], Ended)
    else if |acc| >= MAX_EVENT_BYTES then Read("", s[1..], TooLong)
    else ReadLine(acc + [s[0]], s[1..])
  }

  // ----- reading an event

  datatype Pending = Pending(kind: string, data: seq<string>, id: string, retry: string, size: nat)

  const NOTHING := Pending("", [], "", "", 0)

  datatype Cut = Cut(field: string, value: string)

  /** strings.Cut at the first colon, and one space dropped behind it. */
  function CutField(line: string): Cut {
    var i := Index(line, ":");
    if i < 0 then Cut(line, "")
    else
      var v := line[i + 1..];
      Cut(line[..i], if v != "" && v[0] == ' ' then v[1..] else v)
  }

  /** A field line that is not blank; None when the event's data grow too long. */
  function Field(p: Pending, line: string): Option<Pending> {
    if line != "" && line[0] == ':' then Some(p)
    else
      var c := CutField(line);
      if c.field == "event" then Some(p.(kind := c.value))
      else if c.field == "data" then
        if p.size + |c.value| + 1 > MAX_EVENT_BYTES then None
        else Some(p.(data := p.data + [c.value], size := p.size + |c.value| + 1))
      else if c.field == "id" then if '\0' in c.value then Some(p) else Some(p.(id := c.value))
      else if c.field == "retry" then Some(p.(retry := c.value))
      else Some(p)
  }

  function Join(data: seq<string>): string {
    if data == [] then "" else if |data| == 1 then data[0] else Join(data[..|data| - 1]) + "\n" + data[|data| - 1]
  }

  function Dispatched(p: Pending): Event { Event(p.kind, Join(p.data), p.id, p.retry) }

  datatype Outcome = Got(ev: Event, rest: string) | EndOfStream | LineTooLong | EventTooLong

  function NextEvent(p: Pending, s: string): (o: Outcome)
    ensures o.Got? ==> |o.rest| <= |s|
    ensures o.Got? && p.data == [] ==> |o.rest| < |s|
    decreases |s|
  {
    var r := ReadLine("", s);
    if r.end.TooLong? then LineTooLong
    else if r.text == "" then
      if p.data != [] then Got(Dispatched(p), if r.end.Ended? then r.rest else "")
      else if r.end.Ended? then NextEvent(p.(kind := ""), r.rest) else EndOfStream
    else
      match Field(p, r.text)
      case None => EventTooLong
      case Some(p') =>
        if r.end.Ended? then NextEvent(p', r.rest)
        else if p'.data != [] then assert s != ""; Got(Dispatched(p'), "") else EndOfStream
  }

  function WithoutBOM(s: string): string { if |s| >= 3 && s[..3] == BOM then s[3..] else s }

  /** All the events of a stream, and why there are no more. */
  datatype Parsed = Parsed(events: seq<Event>, end: Outcome)

  function EventsFrom(s: string): Parsed
    decreases |s|
  {
    match NextEvent(NOTHING, s)
    case Got(ev, rest) =>
      var more := EventsFrom(rest);
      Parsed([ev] + more.events, more.end)
    case end => Parsed([], end)
  }

  function Events(s: string): Parsed { EventsFrom(WithoutBOM(s)) }

  // ----- the scanner

  class Scanner {
    var input: string
    var bomDone: bool

    constructor (s: string)
      ensures input == s && !bomDone && Unread() == WithoutBOM(s)
    {
      input, bomDone := s, false;
    }

    /** What the lines to come are read from. */
    function Unread(): string
      reads this
    {
      if bomDone then input else WithoutBOM(input)
    }

    method StripBOM()
      modifies this
      ensures bomDone && input == old(Unread())
    {
      if bomDone { return; }
      bomDone := true;
      if |input| >= 3 && input[..3] == BOM { input := input[3..]; }
    }

    method NextLine() returns (text: string, end: LineEnd)
      modifies this
      ensures bomDone && Read(text, input, end) == ReadLine("", old(Unread()))
    {
      StripBOM();
      text := "";
      ghost var start := input;
      while |input| > 0
        invariant bomDone && ReadLine("", start) == ReadLine(text, input)
        decreases |input|
      {
        var b := input[0];
        input := input[1..];
        if b == '\n' { return text, Ended; }
        if b == '\r' {
          if |input| > 0 && input[0] == '\n' { input := input[1..]; }
          return text, Ended;
        }
        if |text| >= MAX_EVENT_BYTES { return "", TooLong; }
        text := text + [b];
      }
      return text, AtEof;
    }

    method Next() returns (o: Outcome)
      modifies this
      ensures o == NextEvent(NOTHING, old(Unread()))
      ensures o.Got? ==> bomDone && input == o.rest
    {
      hide Join, Field;
      var p := NOTHING;
      ghost var start := Unread();
      while true
        invariant NextEvent(NOTHING, start) == NextEvent(p, Unread())
        decreases |Unread()|
      {
        ghost var s := Unread();
        var line, end := NextLine();
        if end.TooLong? { return LineTooLong; }
        if |line| == 0 && end.Ended? {
          if |p.data| > 0 { return Got(Dispatched(p), input); }
          p := p.(kind := "");
        } else if |line| > 0 {
          match Field(p, line) {
            case None => return EventTooLong;
            case Some(p') => p := p';
          }
        }
        if end.AtEof? {
          AtEofNothingLeft("", s);
          if |p.data| > 0 { return Got(Dispatched(p), input); }
          return EndOfStream;
        }
      }
    }
  }

  lemma AtEofNothingLeft(acc: string, s: string)
    ensures ReadLine(acc, s).end.AtEof? ==> ReadLine(acc, s).rest == ""
    decreases |s|
  {
    if s != "" { AtEofNothingLeft(acc + [s[0]], s[1..]); }
  }

  // ----- line ends do not matter

  /** The text with every LF replaced. */
  function Restyled(s: string, nl: string): string {
    if s == "" then "" else (if s[0] == '\n' then nl else [s[0]]) + Restyled(s[1..], nl)
  }

  predicate LineBreak(nl: string) { nl == "\n" || nl == "\r\n" || nl == "\r" }

  lemma RestyledHead(s: string, nl: string)
    requires LineBreak(nl) && '\r' !in s
    ensures s == "" <==> Restyled(s, nl) == ""
    ensures s != "" && s[0] != '\n' ==>
      Restyled(s, nl)[0] == s[0] && s[0] != '\r' && Restyled(s, nl)[1..] == Restyled(s[1..], nl)
    ensures s != "" && nl != "\n" ==> Restyled(s, nl)[0] != '\n'
  {
  }

  lemma ReadRestyled(acc: string, s: string, nl: string)
    requires LineBreak(nl) && '\r' !in s
    ensures var r := ReadLine(acc, s);
      '\r' !in r.rest && ReadLine(acc, Restyled(s, nl)) == r.(rest := Restyled(r.rest, nl))
    decreases |s|
  {
    RestyledHead(s, nl);
    if s != "" && s[0] != '\n' {
      ReadRestyled(acc + [s[0]], s[1..], nl);
    } else if s != "" {
      RestyledHead(s[1..], nl);
      var t := Restyled(s, nl);
      assert t == nl + Restyled(s[1..], nl);
      assert t[|nl|..] == Restyled(s[1..], nl);
    }
  }

  lemma NextRestyled(p: Pending, s: string, nl: string)
    requires LineBreak(nl) && '\r' !in s
    ensures var o := NextEvent(p, s);
      && (o.Got? ==> '\r' !in o.rest)
      && NextEvent(p, Restyled(s, nl)) == if o.Got? then o.(rest := Restyled(o.rest, nl)) else o
    decreases |s|
  {
    hide ReadLine, Field, Join, Restyled;
    ReadRestyled("", s, nl);
    RestyledNothing(nl);
    var r := ReadLine("", s);
    if r.end.Ended? {
      if r.text == "" {
        if p.data == [] { NextRestyled(p.(kind := ""), r.rest, nl); }
      } else if Field(p, r.text).Some? {
        NextRestyled(Field(p, r.text).value, r.rest, nl);
      }
    }
  }

  lemma RestyledNothing(nl: string)
    ensures Restyled("", nl) == ""
  {
  }

  lemma EventsFromRestyled(s: string, nl: string)
    requires LineBreak(nl) && '\r' !in s
    ensures EventsFrom(Restyled(s, nl)) == EventsFrom(s)
    decreases |s|
  {
    hide NextEvent, Restyled;
    NextRestyled(NOTHING, s, nl);
    var o := NextEvent(NOTHING, s);
    if o.Got? { EventsFromRestyled(o.rest, nl); }
  }

  lemma BOMRestyled(s: string, nl: string)
    requires LineBreak(nl) && '\r' !in s
    ensures WithoutBOM(Restyled(s, nl)) == Restyled(WithoutBOM(s), nl) && '\r' !in WithoutBOM(s)
  {
    RestyledHead(s, nl);
    if s != "" && s[0] == BOM[0] {
      RestyledHead(s[1..], nl);
      if s[1..] != "" && s[1] == BOM[1] {
        RestyledHead(s[2..], nl);
        assert s[1..][1..] == s[2..];
        if s[2..] != "" && s[2] == BOM[2] {
          assert s[2..][1..] == s[3..];
          assert s[..3] == BOM;
          assert Restyled(s, nl)[..3] == BOM;
          assert Restyled(s, nl)[3..] == Restyled(s[3..], nl);
        }
      }
    }
  }

  /** Any text with LF line ends reads the same with CRLF or CR in their place. */
  lemma LineEndsDoNotMatter(s: string, nl: string)
    requires LineBreak(nl) && '\r' !in s
    ensures Events(Restyled(s, nl)) == Events(s)
  {
    hide WithoutBOM, EventsFrom;
    BOMRestyled(s, nl);
    EventsFromRestyled(WithoutBOM(s), nl);
  }

  // ----- the writer

  /** An event as the bus sends it; data is one line of JSON. */
  datatype BusEvent = BusEvent(id: nat, kind: string, data: string)

  predicate OneLine(s: string) { '\n' !in s && '\r' !in s }

  function Stripped(s: string): (t: string)
    ensures OneLine(t) && (OneLine(s) ==> t == s)
  {
    if s == "" then ""
    else
      var rest := Stripped(s[1..]);
      if s[0] == '\n' || s[0] == '\r' then rest else [s[0]] + rest
  }

  function Written(e: BusEvent): string {
    "id: " + Decimal(e.id) + "\nevent: " + Stripped(e.kind) + "\ndata: " + e.data + "\n\n"
  }

  datatype Item = KeepAlive | Sent(e: BusEvent)

  const BEAT := ": keep-alive\n\n"

  function WrittenItem(i: Item): string { match i case KeepAlive => BEAT case Sent(e) => Written(e) }

  function WrittenAll(items: seq<Item>): string {
    if items == [] then "" else WrittenItem(items[0]) + WrittenAll(items[1..])
  }

  /** Short enough to be read back. */
  predicate Fits(e: BusEvent) {
    |Decimal(e.id)| + 4 <= MAX_EVENT_BYTES && |Stripped(e.kind)| + 7 <= MAX_EVENT_BYTES && |e.data| + 6 <= MAX_EVENT_BYTES
  }

  function ReadBack(e: BusEvent): Event { Event(Stripped(e.kind), e.data, Decimal(e.id), "") }

  /** The events of a stream up to the first that is too long. */
  function Expected(items: seq<Item>): Parsed {
    if items == [] then Parsed([], EndOfStream)
    else if items[0].KeepAlive? then Expected(items[1..])
    else if !Fits(items[0].e) then Parsed([], LineTooLong)
    else
      var more := Expected(items[1..]);
      Parsed([ReadBack(items[0].e)] + more.events, more.end)
  }

  lemma ReadPlainLine(acc: string, line: string, rest: string)
    requires OneLine(line) && |acc| <= MAX_EVENT_BYTES
    ensures var r := ReadLine(acc, line + "\n" + rest);
      if |acc| + |line| <= MAX_EVENT_BYTES then r == Read(acc + line, rest, Ended) else r.end.TooLong?
    decreases |line|
  {
    var s := line + "\n" + rest;
    if line == "" {
      assert s[0] == '\n' && s[1..] == rest && acc + "" == acc;
    } else {
      assert s[0] == line[0] && s[1..] == line[1..] + "\n" + rest;
      if |acc| < MAX_EVENT_BYTES {
        ReadPlainLine(acc + [line[0]], line[1..], rest);
        assert acc + [line[0]] + line[1..] == acc + line;
      }
    }
  }

  /** One line's effect on the event being read. */
  lemma NextOnLine(p: Pending, line: string, rest: string)
    requires OneLine(line)
    ensures var o := NextEvent(p, line + "\n" + rest);
      if |line| > MAX_EVENT_BYTES then o == LineTooLong
      else if line == "" then o == if p.data != [] then Got(Dispatched(p), rest) else NextEvent(p.(kind := ""), rest)
      else if Field(p, line).None? then o == EventTooLong
      else o == NextEvent(Field(p, line).value, rest)
  {
    hide ReadLine, Field, Join;
    ReadPlainLine("", line, rest);
    assert "" + line == line;
  }

  lemma CutsWhole(field: string, value: string)
    requires ':' !in field
    ensures CutField(field + ": " + value) == Cut(field, value)
  {
    var line := field + ": " + value;
    assert line[|field|] == ':';
    assert At(line, ":", |field|);
    forall k | 0 <= k < |field| ensures !At(line, ":", k) { assert line[k] == field[k]; }
    assert Index(line, ":") == |field|;
    assert line[|field| + 1..] == " " + value;
  }

  lemma DigitsAreClean(s: string)
    ensures Digits(s) ==> OneLine(s) && '\0' !in s
  {
  }

  /** A keep-alive leaves no trace. */
  lemma NextOnBeat(rest: string)
    ensures NextEvent(NOTHING, BEAT + rest) == NextEvent(NOTHING, rest)
  {
    hide NextEvent, Field;
    var line := ": keep-alive";
    assert BEAT + rest == line + "\n" + ("" + "\n" + rest);
    CommentIsIgnored(NOTHING, line);
    assert OneLine(line);
    NextOnLine(NOTHING, line, "" + "\n" + rest);
    NextOnLine(NOTHING, "", rest);
  }

  lemma CommentIsIgnored(p: Pending, line: string)
    ensures line != "" && line[0] == ':' ==> Field(p, line) == Some(p)
  {
  }

  lemma FieldIs(p: Pending, field: string, value: string)
    requires field == "id" || field == "event" || field == "data"
    ensures var line := field + ": " + value;
      Field(p, line) ==
        if field == "event" then Some(p.(kind := value))
        else if field == "id" then if '\0' in value then Some(p) else Some(p.(id := value))
        else if p.size + |value| + 1 > MAX_EVENT_BYTES then None
        else Some(p.(data := p.data + [value], size := p.size + |value| + 1))
  {
    hide CutField;
    CutsWhole(field, value);
    assert (field + ": " + value)[0] == field[0];
  }

  lemma NextOnEvent(e: BusEvent, rest: string)
    requires OneLine(e.data)
    ensures NextEvent(NOTHING, Written(e) + rest) == if Fits(e) then Got(ReadBack(e), rest) else LineTooLong
  {
    hide NextEvent, Field, Decimal, Stripped, CutField;
    var id, kind := Decimal(e.id), Stripped(e.kind);
    var r4 := "" + "\n" + rest;
    var r3 := ("data: " + e.data) + "\n" + r4;
    var r2 := ("event: " + kind) + "\n" + r3;
    var r1 := ("id: " + id) + "\n" + r2;
    assert Written(e) + rest == r1;
    DigitsAreClean(id);
    FieldIs(NOTHING, "id", id);
    var p1 := NOTHING.(id := id);
    FieldIs(p1, "event", kind);
    var p2 := p1.(kind := kind);
    FieldIs(p2, "data", e.data);
    LinesOf(id, kind, e.data);
    NextOnLine(NOTHING, "id: " + id, r2);
    NextOnLine(p1, "event: " + kind, r3);
    NextOnLine(p2, "data: " + e.data, r4);
    if |e.data| + 6 <= MAX_EVENT_BYTES {
      var p3 := p2.(data := p2.data + [e.data], size := p2.size + |e.data| + 1);
      NextOnLine(p3, "", rest);
      assert p3.data == [e.data] && Join(p3.data) == e.data;
    }
  }

  lemma LinesOf(id: string, kind: string, data: string)
    requires OneLine(id) && OneLine(kind) && OneLine(data)
    ensures "id" + ": " + id == "id: " + id && "event" + ": " + kind == "event: " + kind && "data" + ": " + data == "data: " + data
    ensures OneLine("id: " + id) && OneLine("event: " + kind) && OneLine("data: " + data)
  {
  }

  /** A field line is cut at its first colon, and one space behind it goes. */
  lemma FieldsAreCut(field: string, value: string)
    requires ':' !in field
    ensures CutField(field) == Cut(field, "")
    ensures CutField(field + ":" + value) == Cut(field, if value != "" && value[0] == ' ' then value[1..] else value)
  {
    var line := field + ":" + value;
    assert At(line, ":", |field|);
    forall k | 0 <= k < |field| ensures !At(line, ":", k) && !At(field, ":", k) {
      assert line[k] == field[k] && field[k] in field;
      AtChar(line, ":", k, 0);
      AtChar(field, ":", k, 0);
    }
    assert Index(line, ":") == |field|;
    assert line[|field| + 1..] == value;
  }

  /** What fields there are besides data: event, id without a null, retry; all others are ignored. */
  lemma OtherFields(p: Pending, field: string, value: string)
    requires ':' !in field && field != "" && field != "data" && (value == "" || value[0] != ' ')
    ensures Field(p, field + ":" + value) == Some(
      if field == "event" then p.(kind := value)
      else if field == "id" && '\0' !in value then p.(id := value)
      else if field == "retry" then p.(retry := value) else p)
  {
    FieldsAreCut(field, value);
    assert (field + ":" + value)[0] == field[0] && field[0] in field;
  }

  function DataLines(datas: seq<string>): string {
    if datas == [] then "" else "data: " + datas[0] + "\n" + DataLines(datas[1..])
  }

  function InLines(datas: seq<string>): string {
    if datas == [] then "" else if |datas| == 1 then datas[0] else datas[0] + "\n" + InLines(datas[1..])
  }

  lemma JoinLast(datas: seq<string>, d: string)
    ensures Join(datas + [d]) == if datas == [] then d else Join(datas) + "\n" + d
  {
    assert (datas + [d])[..|datas|] == datas;
  }

  lemma TwoBreaks(a: string, b: string, c: string)
    ensures (a + "\n" + b) + "\n" + c == a + "\n" + (b + "\n" + c)
  {
  }

  lemma JoinIsInLines(x: string, datas: seq<string>)
    ensures Join([x] + datas) == if datas == [] then x else x + "\n" + Join(datas)
    decreases |datas|
  {
    hide Join;
    JoinLast([], x);
    assert [x] + [] == [x] && [] + [x] == [x];
    if datas != [] {
      var front, d := datas[..|datas| - 1], datas[|datas| - 1];
      assert datas == front + [d] && [x] + datas == ([x] + front) + [d];
      JoinLast([x] + front, d);
      JoinLast(front, d);
      JoinIsInLines(x, front);
      TwoBreaks(x, Join(front), d);
    }
  }

  lemma LinesAreJoined(datas: seq<string>)
    ensures Join(datas) == InLines(datas)
  {
    if datas != [] {
      assert datas == [datas[0]] + datas[1..];
      JoinIsInLines(datas[0], datas[1..]);
      LinesAreJoined(datas[1..]);
    }
  }

  lemma DataFirst(datas: seq<string>, rest: string)
    requires datas != []
    ensures var more := DataLines(datas[1..]);
      DataLines(datas) + "\n" + rest == ("data: " + datas[0]) + "\n" + (more + "\n" + rest) && |DataLines(datas)| == |datas[0]| + 7 + |more|
  {
  }

  lemma NextOnDataLine(p: Pending, d: string, tail: string)
    requires OneLine(d) && |d| + 6 <= MAX_EVENT_BYTES && p.size + |d| + 1 <= MAX_EVENT_BYTES
    ensures NextEvent(p, ("data: " + d) + "\n" + tail) == NextEvent(p.(data := p.data + [d], size := p.size + |d| + 1), tail)
  {
    hide NextEvent, Field;
    FieldIs(p, "data", d);
    LinesOf("", "", d);
    NextOnLine(p, "data: " + d, tail);
  }

  lemma DataLinesGather(p: Pending, datas: seq<string>, rest: string)
    requires p.data + datas != [] && (forall d :: d in datas ==> OneLine(d) && |d| + 6 <= MAX_EVENT_BYTES)
    requires p.size + |DataLines(datas)| <= MAX_EVENT_BYTES
    ensures NextEvent(p, DataLines(datas) + "\n" + rest) == Got(Event(p.kind, Join(p.data + datas), p.id, p.retry), rest)
    decreases |datas|
  {
    hide NextEvent, Join, OneLine, DataLines;
    if datas == [] {
      NoMoreData(p, datas, rest);
    } else {
      var p' := p.(data := p.data + [datas[0]], size := p.size + |datas[0]| + 1);
      DataFirst(datas, rest);
      assert datas[0] in datas && datas == [datas[0]] + datas[1..];
      NextOnDataLine(p, datas[0], DataLines(datas[1..]) + "\n" + rest);
      assert p'.data + datas[1..] == p.data + datas;
      DataLinesGather(p', datas[1..], rest);
    }
  }

  lemma NoMoreData(p: Pending, datas: seq<string>, rest: string)
    requires p.data != [] && datas == []
    ensures NextEvent(p, DataLines(datas) + "\n" + rest) == Got(Event(p.kind, Join(p.data + datas), p.id, p.retry), rest)
  {
    hide NextEvent, Join;
    assert DataLines(datas) + "\n" + rest == "" + "\n" + rest && p.data + datas == p.data;
    NextOnLine(p, "", rest);
  }

  /** An event of many data lines has them in one text, line breaks between. */
  lemma DataLinesAreRead(datas: seq<string>, rest: string)
    requires datas != [] && (forall d :: d in datas ==> OneLine(d)) && |DataLines(datas)| <= MAX_EVENT_BYTES
    ensures NextEvent(NOTHING, DataLines(datas) + "\n" + rest) == Got(Event("", InLines(datas), "", ""), rest)
  {
    hide NextEvent, Join, InLines, OneLine;
    assert [] + datas == datas;
    EachIsShorter(datas);
    LinesAreJoined(datas);
    DataLinesGather(NOTHING, datas, rest);
  }

  lemma EachIsShorter(datas: seq<string>)
    ensures forall d :: d in datas ==> |d| + 7 <= |DataLines(datas)|
  {
    if datas != [] {
      EachIsShorter(datas[1..]);
      assert datas == [datas[0]] + datas[1..];
    }
  }

  /** A byte order mark at the start is skipped. */
  lemma BOMIsSkipped(s: string)
    ensures Events(BOM + s) == EventsFrom(s)
  {
    hide EventsFrom;
    assert (BOM + s)[..3] == BOM && (BOM + s)[3..] == s;
  }

  lemma {:induction false} ReadLastLine(acc: string, line: string)
    requires OneLine(line) && |acc| + |line| <= MAX_EVENT_BYTES
    ensures ReadLine(acc, line) == Read(acc + line, "", AtEof)
    decreases |line|
  {
    if line == "" {
      assert acc + "" == acc;
    } else {
      ReadLastLine(acc + [line[0]], line[1..]);
      assert acc + [line[0]] + line[1..] == acc + line;
    }
  }

  /** An event at the end of the stream needs no blank line. */
  lemma LastEventIsRead(d: string)
    requires OneLine(d) && |d| + 6 <= MAX_EVENT_BYTES
    ensures NextEvent(NOTHING, ("data: " + d) + "\n" + "") == Got(Event("", d, "", ""), "")
  {
    hide NextEvent, Join;
    var p := NOTHING.(data := [] + [d], size := |d| + 1);
    NextOnDataLine(NOTHING, d, "");
    JoinLast([], d);
    EndDispatches(p);
  }

  lemma EndDispatches(p: Pending)
    ensures p.data != [] ==> NextEvent(p, "") == Got(Dispatched(p), "")
  {
  }

  /** Nor does its last line need an end. */
  lemma LastLineIsRead(d: string)
    requires OneLine(d) && |d| + 6 <= MAX_EVENT_BYTES
    ensures NextEvent(NOTHING, "data: " + d) == Got(Event("", d, "", ""), "")
  {
    hide Field, ReadLine, Join;
    FieldIs(NOTHING, "data", d);
    LinesOf("", "", d);
    ReadLastLine("", "data: " + d);
    assert "" + ("data: " + d) == "data: " + d && [] + [d] == [d];
    JoinLast([], d);
  }

  /** Of a kind only the line breaks go. */
  lemma {:induction false} OnlyLineBreaksGo(s: string, t: string)
    ensures Stripped(s + t) == Stripped(s) + Stripped(t) && Stripped("\n") == Stripped("\r") == ""
  {
    if s == "" {
      assert s + t == t;
    } else {
      assert (s + t)[1..] == s[1..] + t;
      OnlyLineBreaksGo(s[1..], t);
    }
  }

  lemma AllReadBack(items: seq<Item>)
    requires forall i :: 0 <= i < |items| && items[i].Sent? ==> OneLine(items[i].e.data)
    ensures EventsFrom(WrittenAll(items)) == Expected(items)
  {
    hide NextEvent, Written, Fits, ReadBack;
    if items == [] {
      NothingToRead();
    } else {
      var rest := WrittenAll(items[1..]);
      AllReadBack(items[1..]);
      match items[0]
      case KeepAlive =>
        NextOnBeat(rest);
        SameNext(BEAT + rest, rest);
      case Sent(e) => NextOnEvent(e, rest);
    }
  }

  lemma NothingToRead()
    ensures NextEvent(NOTHING, "") == EndOfStream
  {
  }

  lemma SameNext(s: string, t: string)
    requires NextEvent(NOTHING, s) == NextEvent(NOTHING, t)
    ensures EventsFrom(s) == EventsFrom(t)
  {
    hide NextEvent;
  }

  lemma {:induction false} WrittenHasNoCR(items: seq<Item>)
    requires forall i :: 0 <= i < |items| && items[i].Sent? ==> OneLine(items[i].e.data)
    ensures '\r' !in WrittenAll(items)
  {
    hide Written, OneLine;
    if items != [] {
      WrittenHasNoCR(items[1..]);
      if items[0].Sent? { EventHasNoCR(items[0].e); }
    }
  }

  lemma EventHasNoCR(e: BusEvent)
    requires OneLine(e.data)
    ensures '\r' !in Written(e)
  {
    hide Stripped, Decimal;
    DigitsAreClean(Decimal(e.id));
  }

  lemma NoBOMWritten(items: seq<Item>)
    ensures WithoutBOM(WrittenAll(items)) == WrittenAll(items)
  {
    hide Written;
    var s := WrittenAll(items);
    if items != [] {
      StartsPlain(items[0]);
      assert s[0] == WrittenItem(items[0])[0];
    }
    NotBOM(s);
  }

  lemma NotBOM(s: string)
    ensures s == "" || s[0] != BOM[0] ==> WithoutBOM(s) == s
  {
    if |s| >= 3 { assert s[..3][0] == s[0]; }
  }

  lemma StartsPlain(i: Item)
    ensures WrittenItem(i) != "" && (WrittenItem(i)[0] == ':' || WrittenItem(i)[0] == 'i')
  {
    hide Decimal, Stripped;
    if i.Sent? { assert Written(i.e)[0] == 'i'; }
  }

  /** Main result. Whatever events a subscriber is sent, keep-alives in between, with LF, CRLF or CR line
      ends: it reads back the same ids, kinds (line breaks removed) and data, in order, up to the end, or up
      to the first event with a line over the limit, which is reported. */
  lemma WhatIsWrittenIsReadBack(items: seq<Item>, nl: string)
    requires forall i :: 0 <= i < |items| && items[i].Sent? ==> OneLine(items[i].e.data)
    requires LineBreak(nl)
    ensures Events(Restyled(WrittenAll(items), nl)) == Expected(items)
  {
    WrittenHasNoCR(items);
    NoBOMWritten(items);
    AllReadBack(items);
    LineEndsDoNotMatter(WrittenAll(items), nl);
  }

  /** The stream is read to its end exactly if every event fits, and then nothing is missing. */
  lemma {:induction false} EndsJustWhenAllFit(items: seq<Item>)
    ensures Expected(items).end == EndOfStream <==> forall i :: 0 <= i < |items| && items[i].Sent? ==> Fits(items[i].e)
    ensures Expected(items).end == EndOfStream ==> Expected(items).events == ReadBackAll(items)
  {
    hide Fits, ReadBack;
    if items != [] {
      var rest := items[1..];
      EndsJustWhenAllFit(rest);
      assert [] + ReadBackAll(rest) == ReadBackAll(rest);
      assert forall i :: 0 <= i < |rest| ==> rest[i] == items[i + 1];
      assert (forall i :: 0 <= i < |items| && items[i].Sent? ==> Fits(items[i].e)) <==>
        (items[0].Sent? ==> Fits(items[0].e)) && forall i :: 0 <= i < |rest| && rest[i].Sent? ==> Fits(rest[i].e) by {
        assert forall i :: 0 < i < |items| ==> items[i] == rest[i - 1];
      }
      match items[0]
      case KeepAlive => assert Expected(items) == Expected(rest);
      case Sent(e) =>
        if Fits(e) { assert Expected(items) == Parsed([ReadBack(e)] + Expected(rest).events, Expected(rest).end); }
    }
  }

  function ReadBackAll(items: seq<Item>): seq<Event> {
    if items == [] then []
    else (if items[0].Sent? then [ReadBack(items[0].e)] else []) + ReadBackAll(items[1..])
  }
}
