/** How section 9.2.6 of the WHATWG HTML standard reads the server's stream. */
module EventStandard {
  import opened RotationTypes
  import opened EventStream

  // The buffers of the standard's parser, and an event that it dispatches.
  datatype Parser = Parser(data: string, eventType: string, lastId: string)
  datatype Event = Event(lastId: string, eventType: string, data: string)
  datatype Outcome = Outcome(parser: Parser, events: seq<Event>)

  /** The position of the first colon, or the length of the line. */
  function Colon(line: string): (i: nat)
    ensures i <= |line| && ':' !in line[..i] && (i < |line| ==> line[i] == ':')
  {
    if line == "" || line[0] == ':' then 0 else 1 + Colon(line[1..])
  }

  function Value(text: string): string {
    if text != "" && text[0] == ' ' then text[1..] else text
  }

  function Field(p: Parser, name: string, value: string): Parser {
    if name == "event" then p.(eventType := value)
    else if name == "data" then p.(data := p.data + value + "\n")
    else if name == "id" then (if '\0' in value then p else p.(lastId := value))
    else p
  }

  /** An empty line dispatches what was collected, unless there is no data. */
  function Dispatched(p: Parser): Outcome {
    var empty := Parser("", "", p.lastId);
    if p.data == "" then Outcome(empty, [])
    else
      var eventType := if p.eventType == "" then "message" else p.eventType;
      Outcome(empty, [Event(p.lastId, eventType, p.data[..|p.data| - 1])])
  }

  function ReadLine(p: Parser, line: string): Outcome {
    if line == "" then Dispatched(p)
    else
      var i := Colon(line);
      if i == 0 then Outcome(p, [])
      else if i < |line| then Outcome(Field(p, line[..i], Value(line[i + 1..])), [])
      else Outcome(Field(p, line, ""), [])
  }

  function ReadLines(p: Parser, lines: seq<string>): Outcome
    decreases |lines|
  {
    if lines == [] then Outcome(p, [])
    else
      var first := ReadLine(p, lines[0]);
      var rest := ReadLines(first.parser, lines[1..]);
      Outcome(rest.parser, first.events + rest.events)
  }

  // Between events the parser has nothing collected.
  function Empty(lastId: string): Parser {
    Parser("", "", lastId)
  }

  // ---- the server's lines ----

  lemma FieldLine(p: Parser, name: string, value: string)
    requires ':' !in name && name != ""
    ensures ReadLine(p, name + ": " + value) == Outcome(Field(p, name, value), [])
  {
    var line := name + ": " + value;
    var i := Colon(line);
    assert line[|name|] == ':';
    assert forall k :: 0 <= k < |name| ==> line[k] == name[k];
    ColonIs(line, |name|);
    assert line[..i] == name && line[i + 1..] == " " + value;
    hide Field;
  }

  lemma ColonIs(line: string, i: nat)
    requires i < |line| && line[i] == ':' && forall k :: 0 <= k < i ==> line[k] != ':'
    ensures Colon(line) == i
  {
    if i > 0 {
      ColonIs(line[1..], i - 1);
    }
  }

  lemma ReadCons(p: Parser, line: string, more: string)
    requires SingleLine(line)
    ensures var first := ReadLine(p, line);
            var rest := ReadLines(first.parser, Complete(more));
            ReadLines(p, Complete(line + "\n" + more)) == Outcome(rest.parser, first.events + rest.events)
  {
    SplitLine(line, more);
    hide Complete, ReadLine;
    assert ([line] + Complete(more))[1..] == Complete(more);
  }

  lemma DigitsPlain(n: nat)
    ensures SingleLine(Digits(n)) && '\0' !in Digits(n)
  {
    DigitsAreDigits(n);
    hide Digits;
  }

  lemma FieldNames()
    ensures ':' !in "id" && ':' !in "event" && ':' !in "data" && "id" != "" && "event" != "" && "data" != ""
    ensures "id" != "event" && "id" != "data" && "event" != "data"
  {
    assert |"id"| == 2 && |"event"| == 5 && |"data"| == 4;
  }

  lemma FrameFields(p: Parser, id: string, eventType: string, data: string)
    requires '\0' !in id
    ensures Field(Field(Field(p, "id", id), "event", eventType), "data", data) ==
            Parser(p.data + data + "\n", eventType, id)
  {
    FieldNames();
  }

  /** The frame is one event with this id, type and data, whatever the earlier ids were. */
  lemma FrameIsEvent(lastId: string, counter: nat, eventType: string, data: string, more: string)
    requires SingleLine(eventType) && SingleLine(data) && eventType != ""
    ensures var rest := ReadLines(Empty(Digits(counter)), Complete(more));
            ReadLines(Empty(lastId), Complete(Frame(counter, eventType, data) + more)) ==
            Outcome(rest.parser, [Event(Digits(counter), eventType, data)] + rest.events)
  {
    DigitsPlain(counter);
    FieldNames();
    var p := Empty(lastId);
    var p1 := Field(p, "id", Digits(counter));
    var p2 := Field(p1, "event", eventType);
    var p3 := Field(p2, "data", data);
    FrameFields(p, Digits(counter), eventType, data);
    FieldLine(p, "id", Digits(counter));
    FieldLine(p1, "event", eventType);
    FieldLine(p2, "data", data);
    FrameLines(counter, eventType, data);
    FrameText(counter, eventType, data, more);
    assert ("" + data + "\n")[..|data|] == data;
    assert ReadLine(p3, "") == Outcome(Empty(Digits(counter)), [Event(Digits(counter), eventType, data)]);
    Spelled(Digits(counter), eventType, data);
    FourLinesRead(p, p1, p2, p3, "id: " + Digits(counter), "event: " + eventType, "data: " + data, more);
    hide *;
  }

  lemma Spelled(id: string, eventType: string, data: string)
    ensures "id" + ": " + id == "id: " + id && "event" + ": " + eventType == "event: " + eventType
    ensures "data" + ": " + data == "data: " + data
  {
  }

  lemma FourLinesRead(p: Parser, p1: Parser, p2: Parser, p3: Parser, a: string, b: string, c: string, more: string)
    requires SingleLine(a) && SingleLine(b) && SingleLine(c) && SingleLine("")
    requires ReadLine(p, a) == Outcome(p1, []) && ReadLine(p1, b) == Outcome(p2, [])
    requires ReadLine(p2, c) == Outcome(p3, [])
    ensures var last := ReadLine(p3, "");
            var rest := ReadLines(last.parser, Complete(more));
            ReadLines(p, Complete(a + "\n" + (b + "\n" + (c + "\n" + ("" + "\n" + more))))) ==
            Outcome(rest.parser, last.events + rest.events)
  {
    hide ReadLine, ReadLines, Complete, SingleLine;
    ReadCons(p, a, b + "\n" + (c + "\n" + ("" + "\n" + more)));
    ReadCons(p1, b, c + "\n" + ("" + "\n" + more));
    ReadCons(p2, c, "" + "\n" + more);
    ReadCons(p3, "", more);
  }

  /** A keep-alive is a comment and an empty line, and dispatches nothing. */
  lemma KeepaliveIsComment(lastId: string, more: string)
    ensures ReadLines(Empty(lastId), Complete(KEEPALIVE + more)) == ReadLines(Empty(lastId), Complete(more))
  {
    var t := "" + "\n" + more;
    assert KEEPALIVE + more == ": keepalive" + "\n" + t;
    assert SingleLine(": keepalive") && SingleLine("");
    assert Colon(": keepalive") == 0;
    assert ReadLine(Empty(lastId), ": keepalive") == Outcome(Empty(lastId), []);
    assert ReadLine(Empty(lastId), "") == Outcome(Empty(lastId), []);
    hide ReadLine, ReadLines, Complete, SingleLine;
    ReadCons(Empty(lastId), ": keepalive", t);
    ReadCons(Empty(lastId), "", more);
  }

  /** The published messages, numbered on from `counter`. */
  function Numbered(polls: seq<Poll>, counter: nat): seq<Event> {
    if polls == [] then []
    else if polls[0].Published?
    then [Event(Digits(counter + 1), polls[0].eventType, polls[0].data)] + Numbered(polls[1..], counter + 1)
    else Numbered(polls[1..], counter)
  }

  predicate Typed(polls: seq<Poll>) {
    Clean(polls) && forall k :: 0 <= k < |polls| && polls[k].Published? ==> polls[k].eventType != ""
  }

  /** A parser of the standard reads the server's stream as the published messages, once each,
      in order, with their types and with consecutive ids. */
  lemma {:induction false} StandardReads(polls: seq<Poll>, counter: nat, lastId: string)
    requires Typed(polls)
    ensures ReadLines(Empty(lastId), Complete(Stream(polls, counter))).events == Numbered(polls, counter)
    decreases |polls|
  {
    hide Frame, ReadLines, Complete, Digits, KEEPALIVE;
    if polls == [] {
      NothingRead(lastId);
    } else {
      var next := Stream(polls[1..], counter);
      match polls[0]
      case Silence =>
        StandardReads(polls[1..], counter, lastId);
        KeepaliveIsComment(lastId, next);
      case Ignored =>
        StandardReads(polls[1..], counter, lastId);
      case Published(eventType, data) =>
        StandardReads(polls[1..], counter + 1, Digits(counter + 1));
        FrameIsEvent(lastId, counter + 1, eventType, data, Stream(polls[1..], counter + 1));
    }
  }

  lemma NothingRead(lastId: string)
    ensures ReadLines(Empty(lastId), Complete("")).events == []
  {
  }

  // ---- decimal numbers ----

  function NumberOf(digits: string): int {
    if digits == "" then 0 else 10 * NumberOf(digits[..|digits| - 1]) + (digits[|digits| - 1] as int - '0' as int)
  }

  /** The id is the decimal numeral of its number, without leading zeros. */
  lemma {:induction false} DigitsAreTheNumber(n: nat)
    ensures NumberOf(Digits(n)) == n && Digits(n) != "" && (n > 0 ==> Digits(n)[0] != '0')
  {
    if n >= 10 {
      var front := Digits(n / 10);
      DigitsAreTheNumber(n / 10);
      assert Digits(n)[..|front|] == front;
    } else {
      assert Digits(n)[..0] == "";
    }
  }

  /** The messages of a typed stream keep their types; an untyped object and anything that is
      not an object are of type "event". */
  lemma TypesKept(load: string -> Loaded, raw: string)
    requires !load(raw).Array?
    ensures PollOf(load, Data(raw)).Published?
    ensures load(raw).Object? && load(raw).eventType != None ==>
              PollOf(load, Data(raw)).eventType == load(raw).eventType.value
    ensures !(load(raw).Object? && load(raw).eventType != None) ==> PollOf(load, Data(raw)).eventType == "event"
    ensures PollOf(load, Data(raw)).data == if load(raw).Object? then load(raw).rest else raw
    ensures PollOf(load, NoMessage) == Silence && PollOf(load, OtherType) == Ignored
  {
  }
}
