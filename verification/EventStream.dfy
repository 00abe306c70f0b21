/** The server's event frames and the browser's incremental parser for them. */
module EventStream {
  import opened RotationTypes

  // ---- splitting text into lines ----

  predicate SingleLine(s: string) {
    '\n' !in s
  }

  /** The index of the first newline, or the length of the text. */
  function LineEnd(s: string): (i: nat)
    ensures i <= |s| && SingleLine(s[..i]) && (i < |s| ==> s[i] == '\n')
  {
    if s == "" || s[0] == '\n' then 0 else 1 + LineEnd(s[1..])
  }

  /** `s.split("\n")`: never empty, its last element is what follows the last newline. */
  function Split(s: string): (r: seq<string>)
    ensures r != [] && forall k :: 0 <= k < |r| ==> SingleLine(r[k])
    decreases |s|
  {
    var i := LineEnd(s);
    if i == |s| then [s] else [s[..i]] + Split(s[i + 1..])
  }

  function Complete(s: string): seq<string> {
    Split(s)[..|Split(s)| - 1]
  }

  function Rest(s: string): string {
    Split(s)[|Split(s)| - 1]
  }

  function Concat(parts: seq<string>): string {
    if parts == [] then "" else Concat(parts[..|parts| - 1]) + parts[|parts| - 1]
  }

  lemma LineEndIs(s: string, i: nat)
    requires i <= |s| && SingleLine(s[..i]) && (i < |s| ==> s[i] == '\n')
    ensures LineEnd(s) == i
  {
    var j := LineEnd(s);
    assert forall k :: 0 <= k < i ==> s[k] == s[..i][k];
    assert forall k :: 0 <= k < j ==> s[k] == s[..j][k];
  }

  lemma SplitCons(s: string, i: nat)
    requires i < |s| && SingleLine(s[..i]) && s[i] == '\n'
    ensures Split(s) == [s[..i]] + Split(s[i + 1..])
  {
    LineEndIs(s, i);
  }

  lemma SplitSingle(s: string)
    requires SingleLine(s)
    ensures Split(s) == [s]
  {
    assert s[..|s|] == s;
    LineEndIs(s, |s|);
  }

  /** Splitting can be resumed from the unfinished last line. */
  lemma {:induction false} SplitAppend(a: string, b: string)
    ensures Split(a + b) == Complete(a) + Split(Rest(a) + b)
    decreases |a|
  {
    var i := LineEnd(a);
    hide Split, LineEnd;
    if i == |a| {
      assert a[..i] == a;
      SplitSingle(a);
      assert Complete(a) == [] && Rest(a) == a;
    } else {
      var rest := a[i + 1..];
      SplitCons(a, i);
      assert (a + b)[..i] == a[..i] && (a + b)[i + 1..] == rest + b;
      SplitCons(a + b, i);
      SplitAppend(rest, b);
      assert Rest(a) == Rest(rest);
      assert Complete(a) == [a[..i]] + Complete(rest);
      assert [a[..i]] + (Complete(rest) + Split(Rest(rest) + b)) == [a[..i]] + Complete(rest) + Split(Rest(rest) + b);
    }
  }

  lemma CompleteAppend(a: string, b: string)
    ensures Complete(a + b) == Complete(a) + Complete(Rest(a) + b)
    ensures Rest(a + b) == Rest(Rest(a) + b)
  {
    SplitAppend(a, b);
  }

  // ---- the client ----

  // The characters that String.prototype.trim removes.
  predicate IsSpace(c: char) {
    || c in " \t\n\r\U{B}\U{C}\U{A0}\U{1680}\U{2028}\U{2029}\U{202F}\U{205F}\U{3000}\U{FEFF}"
    || '\U{2000}' <= c <= '\U{200A}'
  }

  function TrimStart(s: string): string {
    if s != "" && IsSpace(s[0]) then TrimStart(s[1..]) else s
  }

  function TrimEnd(s: string): string {
    if s != "" && IsSpace(s[|s| - 1]) then TrimEnd(s[..|s| - 1]) else s
  }

  function Trim(s: string): string {
    TrimEnd(TrimStart(s))
  }

  predicate Blank(s: string) {
    forall k :: 0 <= k < |s| ==> IsSpace(s[k])
  }

  lemma {:induction false} TrimStartMeans(s: string) returns (a: string)
    ensures s == a + TrimStart(s) && Blank(a) && (TrimStart(s) != "" ==> !IsSpace(TrimStart(s)[0]))
  {
    hide IsSpace;
    a := "";
    if s != "" && IsSpace(s[0]) {
      a := TrimStartMeans(s[1..]);
      a := [s[0]] + a;
    }
  }

  lemma {:induction false} TrimEndMeans(s: string) returns (b: string)
    ensures s == TrimEnd(s) + b && Blank(b) && (TrimEnd(s) != "" ==> !IsSpace(TrimEnd(s)[|TrimEnd(s)| - 1]))
  {
    hide IsSpace;
    b := "";
    if s != "" && IsSpace(s[|s| - 1]) {
      b := TrimEndMeans(s[..|s| - 1]);
      b := b + [s[|s| - 1]];
    }
  }

  /** Trimming takes all white space off both ends and nothing else. */
  lemma TrimMeans(s: string) returns (a: string, b: string)
    ensures s == a + Trim(s) + b && Blank(a) && Blank(b)
    ensures Trim(s) != "" ==> !IsSpace(Trim(s)[0]) && !IsSpace(Trim(s)[|Trim(s)| - 1])
  {
    hide IsSpace, Blank;
    a := TrimStartMeans(s);
    b := TrimEndMeans(TrimStart(s));
    assert s == a + (Trim(s) + b);
  }

  /** The event, if any, that the data text of a line dispatches. */
  function Received<V>(parse: string -> Option<V>, data: string): seq<V> {
    var raw := Trim(data);
    if raw == "" || raw == ":keepalive" then []
    else if parse(raw).Some? then [parse(raw).value] else []
  }

  function Dispatch<V>(parse: string -> Option<V>, line: string): seq<V> {
    if "data:" <= line then Received(parse, line[5..]) else []
  }

  function DispatchAll<V>(parse: string -> Option<V>, lines: seq<string>): seq<V> {
    if lines == [] then [] else Dispatch(parse, lines[0]) + DispatchAll(parse, lines[1..])
  }

  lemma {:induction false} DispatchAppend<V>(parse: string -> Option<V>, a: seq<string>, b: seq<string>)
    ensures DispatchAll(parse, a + b) == DispatchAll(parse, a) + DispatchAll(parse, b)
    decreases |a|
  {
    hide Dispatch;
    if a == [] {
      assert a + b == b;
    } else {
      DispatchAppend(parse, a[1..], b);
      assert (a + b)[1..] == a[1..] + b;
    }
  }

  lemma DispatchOne<V>(parse: string -> Option<V>, line: string)
    ensures DispatchAll(parse, [line]) == Dispatch(parse, line)
  {
    assert [line][1..] == [];
  }

  /** The read loop: whatever the chunks, it dispatches what the complete lines of the
      whole text dispatch, and keeps the unfinished line. */
  method ReadLoop<V>(chunks: seq<string>, parse: string -> Option<V>) returns (events: seq<V>, buffer: string)
    ensures events == DispatchAll(parse, Complete(Concat(chunks)))
    ensures buffer == Rest(Concat(chunks))
  {
    events, buffer := [], "";
    assert Split("") == [""];
    var k := 0;
    while k < |chunks|
      invariant 0 <= k <= |chunks|
      invariant events == DispatchAll(parse, Complete(Concat(chunks[..k])))
      invariant buffer == Rest(Concat(chunks[..k]))
    {
      ghost var seen := Concat(chunks[..k]);
      assert chunks[..k + 1][..k] == chunks[..k];
      CompleteAppend(seen, chunks[k]);
      var lines := Split(buffer + chunks[k]);
      var complete := lines[..|lines| - 1];
      buffer := lines[|lines| - 1];
      var got := DispatchLines(complete, parse);
      DispatchAppend(parse, Complete(seen), complete);
      events := events + got;
      k := k + 1;
    }
    assert chunks[..k] == chunks;
  }

  method DispatchLines<V>(lines: seq<string>, parse: string -> Option<V>) returns (events: seq<V>)
    ensures events == DispatchAll(parse, lines)
  {
    events := [];
    for k := 0 to |lines|
      invariant events == DispatchAll(parse, lines[..k])
    {
      assert lines[..k + 1] == lines[..k] + [lines[k]];
      DispatchAppend(parse, lines[..k], [lines[k]]);
      DispatchOne(parse, lines[k]);
      if "data:" <= lines[k] {
        var raw := Trim(lines[k][5..]);
        if raw != "" && raw != ":keepalive" {
          var event := parse(raw);
          if event.Some? {
            events := events + [event.value];
          }
        }
      }
    }
    assert lines[..|lines|] == lines;
  }

  /** Chunk boundaries do not matter. */
  method ReadTwice<V>(chunks: seq<string>, others: seq<string>, parse: string -> Option<V>)
    returns (events: seq<V>, again: seq<V>)
    requires Concat(chunks) == Concat(others)
    ensures events == again
  {
    var rest;
    events, rest := ReadLoop(chunks, parse);
    again, rest := ReadLoop(others, parse);
  }

  // ---- the server ----

  // What one iteration of the stream loop sees: nothing before the keep-alive interval
  // ends, a message of another type, or a published message with its event type and data.
  datatype Poll = Silence | Ignored | Published(eventType: string, data: string)

  function Digits(n: nat): string {
    if n < 10 then [(n as char) + '0'] else Digits(n / 10) + [((n % 10) as char) + '0']
  }

  function Frame(counter: nat, eventType: string, data: string): string {
    "id: " + Digits(counter) + "\n" + "event: " + eventType + "\n" + "data: " + data + "\n" + "\n"
  }

  const KEEPALIVE := ": keepalive\n\n"

  /** The text of one poll when `counter` messages were published before it. */
  function Text(poll: Poll, counter: nat): string {
    match poll
    case Silence => KEEPALIVE
    case Ignored => ""
    case Published(eventType, data) => Frame(counter + 1, eventType, data)
  }

  function Count(poll: Poll, counter: nat): nat {
    if poll.Published? then counter + 1 else counter
  }

  /** The text of the polls, the first frame having number `counter + 1`. */
  function Stream(polls: seq<Poll>, counter: nat): string
    decreases |polls|
  {
    if polls == [] then ""
    else
      match polls[0]
      case Silence => KEEPALIVE + Stream(polls[1..], counter)
      case Ignored => Stream(polls[1..], counter)
      case Published(eventType, data) => Frame(counter + 1, eventType, data) + Stream(polls[1..], counter + 1)
  }

  // What the JSON library makes of a message: an object with its `type` entry removed and
  // the rest written out again, an array, or neither.
  datatype Loaded = Object(eventType: Option<string>, rest: string) | Array | Neither

  // What get_message returns.
  datatype Message = NoMessage | OtherType | Data(raw: string)

  const DEFAULT_TYPE := "event"

  /** Taking the type out of an array raises an exception that the loop does not catch. */
  predicate Breaks(load: string -> Loaded, m: Message) {
    m.Data? && load(m.raw).Array?
  }

  /** The messages before the first one that ends the stream. */
  function Served(load: string -> Loaded, messages: seq<Message>): (r: seq<Message>)
    ensures r <= messages && forall k :: 0 <= k < |r| ==> !Breaks(load, r[k])
    ensures |r| < |messages| ==> Breaks(load, messages[|r|])
  {
    if messages == [] || Breaks(load, messages[0]) then []
    else
      assert messages == [messages[0]] + messages[1..];
      [messages[0]] + Served(load, messages[1..])
  }

  /** An object without a type and a message that is no object are both of type `event`; the
      latter is sent as it is. */
  function PollOf(load: string -> Loaded, m: Message): (p: Poll)
    requires !Breaks(load, m)
    ensures p.Published? <==> m.Data?
    ensures m.Data? ==> p.data == (if load(m.raw).Object? then load(m.raw).rest else m.raw)
    ensures m.Data? && !(load(m.raw).Object? && load(m.raw).eventType.Some?) ==> p.eventType == DEFAULT_TYPE
  {
    match m
    case NoMessage => Silence
    case OtherType => Ignored
    case Data(raw) =>
      match load(raw)
      case Object(Some(eventType), rest) => Published(eventType, rest)
      case Object(None, rest) => Published(DEFAULT_TYPE, rest)
      case Neither => Published(DEFAULT_TYPE, raw)
  }

  function Polls(load: string -> Loaded, messages: seq<Message>): (polls: seq<Poll>)
    requires forall k :: 0 <= k < |messages| ==> !Breaks(load, messages[k])
    ensures |polls| == |messages|
  {
    seq(|messages|, k requires 0 <= k < |messages| => PollOf(load, messages[k]))
  }

  /** The frames that the loop yields for the messages it gets before its deadline. */
  method EventLoop(messages: seq<Message>, load: string -> Loaded) returns (frames: seq<string>)
    ensures Concat(frames) == Stream(Polls(load, Served(load, messages)), 0)
  {
    frames := [];
    ghost var served := Served(load, messages);
    ghost var polls := Polls(load, served);
    var counter := 0;
    YieldedNone(polls);
    hide *;
    var k := 0;
    while k < |messages| && !Breaks(load, messages[k])
      invariant k <= |served| && Yielded(frames, polls, k, counter)
    {
      PollAt(load, served, k);
      YieldedOne(frames, polls, k, counter);
      var text;
      text, counter := Render(messages[k], load, counter);
      if !messages[k].OtherType? {
        frames := frames + [text];
      }
      k := k + 1;
    }
    YieldedAll(frames, polls, counter);
  }

  /** The frames and what is still to come make up the stream. */
  predicate Yielded(frames: seq<string>, polls: seq<Poll>, k: nat, counter: nat) {
    k <= |polls| && Concat(frames) + Stream(polls[k..], counter) == Stream(polls, 0)
  }

  lemma YieldedNone(polls: seq<Poll>)
    ensures Yielded([], polls, 0, 0)
  {
    assert polls[0..] == polls;
  }

  lemma YieldedOne(frames: seq<string>, polls: seq<Poll>, k: nat, counter: nat)
    requires Yielded(frames, polls, k, counter) && k < |polls|
    ensures Yielded(frames + [Text(polls[k], counter)], polls, k + 1, Count(polls[k], counter))
    ensures polls[k].Ignored? ==> Yielded(frames, polls, k + 1, counter)
  {
    hide Concat, Stream;
    StreamNext(polls, k, counter);
    ConcatOne(frames, Text(polls[k], counter));
    assert "" + Stream(polls[k + 1..], counter) == Stream(polls[k + 1..], counter);
    hide Text;
  }

  lemma YieldedAll(frames: seq<string>, polls: seq<Poll>, counter: nat)
    requires Yielded(frames, polls, |polls|, counter)
    ensures Concat(frames) == Stream(polls, 0)
  {
    assert polls[|polls|..] == [];
  }

  /** One turn of the loop. */
  method Render(m: Message, load: string -> Loaded, counter: nat) returns (text: string, counter': nat)
    requires !Breaks(load, m)
    ensures text == Text(PollOf(load, m), counter) && counter' == Count(PollOf(load, m), counter)
    ensures m.OtherType? ==> PollOf(load, m).Ignored? && counter' == counter
  {
    counter' := counter;
    match m
    case NoMessage => text := KEEPALIVE;
    case OtherType => text := "";
    case Data(raw) =>
      var eventType, data := DEFAULT_TYPE, raw;
      var loaded := load(raw);
      if loaded.Object? {
        data := loaded.rest;
        if loaded.eventType.Some? {
          eventType := loaded.eventType.value;
        }
      }
      counter' := counter + 1;
      text := Frame(counter', eventType, data);
  }

  lemma PollAt(load: string -> Loaded, messages: seq<Message>, k: nat)
    requires (forall j :: 0 <= j < |messages| ==> !Breaks(load, messages[j])) && k < |messages|
    ensures Polls(load, messages)[k] == PollOf(load, messages[k])
  {
  }

  lemma StreamNext(polls: seq<Poll>, k: nat, counter: nat)
    requires k < |polls|
    ensures Stream(polls[k..], counter) == Text(polls[k], counter) + Stream(polls[k + 1..], Count(polls[k], counter))
  {
    hide Frame;
    assert polls[k..][1..] == polls[k + 1..];
    assert "" + Stream(polls[k + 1..], counter) == Stream(polls[k + 1..], counter);
  }

  lemma ConcatOne(parts: seq<string>, s: string)
    ensures Concat(parts + [s]) == Concat(parts) + s
  {
    assert (parts + [s])[..|parts|] == parts;
  }

  // ---- the client receives what the server published ----

  /** The first line of a text is dispatched first. */
  lemma LineDispatches<V>(parse: string -> Option<V>, line: string, more: string)
    requires SingleLine(line)
    ensures DispatchAll(parse, Complete(line + "\n" + more)) ==
            Dispatch(parse, line) + DispatchAll(parse, Complete(more))
    ensures Rest(line + "\n" + more) == Rest(more)
  {
    SplitLine(line, more);
    hide Complete, Rest, Dispatch;
    assert ([line] + Complete(more))[1..] == Complete(more);
  }

  lemma SplitLine(line: string, more: string)
    requires SingleLine(line)
    ensures Complete(line + "\n" + more) == [line] + Complete(more)
    ensures Rest(line + "\n" + more) == Rest(more)
  {
    var s := line + "\n" + more;
    assert s[..|line|] == line && s[|line| + 1..] == more;
    SplitCons(s, |line|);
    hide Split, LineEnd;
  }

  lemma OtherLine<V>(parse: string -> Option<V>, line: string)
    requires line == "" || line[0] != 'd'
    ensures Dispatch(parse, line) == []
  {
    assert !("data:" <= line) by {
      assert "data:"[0] == 'd';
    }
  }

  lemma {:induction false} DigitsAreDigits(n: nat)
    ensures forall k :: 0 <= k < |Digits(n)| ==> '0' <= Digits(n)[k] <= '9'
  {
    if n >= 10 {
      DigitsAreDigits(n / 10);
    }
  }

  lemma TrimSpace(s: string)
    ensures Trim(" " + s) == Trim(s)
  {
    assert (" " + s)[1..] == s;
  }

  lemma TwoLines<V>(parse: string -> Option<V>, first: string, second: string, more: string)
    requires SingleLine(first) && SingleLine(second)
    ensures DispatchAll(parse, Complete(first + "\n" + (second + "\n" + more))) ==
            Dispatch(parse, first) + Dispatch(parse, second) + DispatchAll(parse, Complete(more))
    ensures Rest(first + "\n" + (second + "\n" + more)) == Rest(more)
  {
    hide Complete, Rest, DispatchAll, Dispatch, SingleLine;
    LineDispatches(parse, first, second + "\n" + more);
    LineDispatches(parse, second, more);
  }

  /** The lines of a frame dispatch its data, and nothing else does. */
  lemma FrameDispatches<V>(parse: string -> Option<V>, counter: nat, eventType: string, data: string, more: string)
    requires SingleLine(eventType) && SingleLine(data)
    ensures DispatchAll(parse, Complete(Frame(counter, eventType, data) + more)) ==
            Received(parse, data) + DispatchAll(parse, Complete(more))
    ensures Rest(Frame(counter, eventType, data) + more) == Rest(more)
  {
    var id, event, dat := "id: " + Digits(counter), "event: " + eventType, "data: " + data;
    FrameText(counter, eventType, data, more);
    DataLine(parse, data);
    OtherLine(parse, id);
    OtherLine(parse, event);
    OtherLine(parse, "");
    FrameLines(counter, eventType, data);
    FourLines(parse, id, event, dat, "", more);
    hide *;
  }

  lemma FourLines<V>(parse: string -> Option<V>, a: string, b: string, c: string, d: string, more: string)
    requires SingleLine(a) && SingleLine(b) && SingleLine(c) && SingleLine(d)
    requires Dispatch(parse, a) == Dispatch(parse, b) == Dispatch(parse, d) == []
    ensures DispatchAll(parse, Complete(a + "\n" + (b + "\n" + (c + "\n" + (d + "\n" + more))))) ==
            Dispatch(parse, c) + DispatchAll(parse, Complete(more))
    ensures Rest(a + "\n" + (b + "\n" + (c + "\n" + (d + "\n" + more)))) == Rest(more)
  {
    hide Complete, Rest, DispatchAll, Dispatch, SingleLine;
    TwoLines(parse, a, b, c + "\n" + (d + "\n" + more));
    TwoLines(parse, c, d, more);
  }

  lemma FrameLines(counter: nat, eventType: string, data: string)
    requires SingleLine(eventType) && SingleLine(data)
    ensures SingleLine("id: " + Digits(counter)) && SingleLine("event: " + eventType)
    ensures SingleLine("data: " + data) && SingleLine("")
  {
    DigitsAreDigits(counter);
    hide Digits;
  }

  lemma FrameText(counter: nat, eventType: string, data: string, more: string)
    ensures Frame(counter, eventType, data) + more ==
            "id: " + Digits(counter) + "\n" +
            ("event: " + eventType + "\n" + ("data: " + data + "\n" + ("" + "\n" + more)))
  {
    hide Digits;
  }

  lemma DataLine<V>(parse: string -> Option<V>, data: string)
    ensures Dispatch(parse, "data: " + data) == Received(parse, data)
  {
    assert ("data: " + data)[5..] == " " + data;
    TrimSpace(data);
    hide Trim;
  }

  lemma KeepaliveDispatches<V>(parse: string -> Option<V>, more: string)
    ensures DispatchAll(parse, Complete(": keepalive\n\n" + more)) == DispatchAll(parse, Complete(more))
    ensures Rest(": keepalive\n\n" + more) == Rest(more)
  {
    var t := "" + "\n" + more;
    assert ": keepalive\n\n" + more == ": keepalive" + "\n" + t;
    OtherLine(parse, ": keepalive");
    OtherLine(parse, "");
    assert SingleLine(": keepalive") && SingleLine("");
    hide Complete, Rest, DispatchAll, Dispatch, SingleLine;
    LineDispatches(parse, ": keepalive", t);
    LineDispatches(parse, "", more);
  }

  predicate Clean(polls: seq<Poll>) {
    forall k :: 0 <= k < |polls| && polls[k].Published? ==> SingleLine(polls[k].eventType) && SingleLine(polls[k].data)
  }

  function Payloads<V>(parse: string -> Option<V>, polls: seq<Poll>): seq<V> {
    if polls == [] then []
    else (if polls[0].Published? then Received(parse, polls[0].data) else []) + Payloads(parse, polls[1..])
  }

  /** Parsing inverts framing: the stream's lines dispatch the data of each published
      message once, in order, and keep-alives dispatch nothing. */
  lemma {:induction false} StreamDispatches<V>(parse: string -> Option<V>, polls: seq<Poll>, counter: nat)
    requires Clean(polls)
    ensures DispatchAll(parse, Complete(Stream(polls, counter))) == Payloads(parse, polls)
    ensures Rest(Stream(polls, counter)) == ""
    decreases |polls|
  {
    hide Complete, Rest, Frame, Received, DispatchAll;
    if polls == [] {
      EmptyText(parse);
    } else {
      match polls[0]
      case Silence =>
        StreamDispatches(parse, polls[1..], counter);
        KeepaliveDispatches(parse, Stream(polls[1..], counter));
      case Ignored =>
        StreamDispatches(parse, polls[1..], counter);
      case Published(eventType, data) =>
        StreamDispatches(parse, polls[1..], counter + 1);
        FrameDispatches(parse, counter + 1, eventType, data, Stream(polls[1..], counter + 1));
    }
  }

  lemma EmptyText<V>(parse: string -> Option<V>)
    ensures DispatchAll(parse, Complete("")) == [] && Rest("") == ""
  {
  }

  /** The text of a JSON object on one line. */
  predicate ObjectText(data: string) {
    |data| >= 2 && data[0] == '{' && data[|data| - 1] == '}'
  }

  lemma ObjectReceived<V>(parse: string -> Option<V>, data: string)
    requires ObjectText(data)
    ensures Received(parse, data) == if parse(data).Some? then [parse(data).value] else []
  {
    assert !IsSpace('{') && !IsSpace('}');
  }

  /** A published message is a JSON object, written out on one line and read back by the
      client, and its type, if any, has no newline; or it is an array. */
  predicate Sendable<V>(load: string -> Loaded, parse: string -> Option<V>, m: Message) {
    m.Data? && !Breaks(load, m) ==>
      var loaded := load(m.raw);
      && loaded.Object? && (loaded.eventType.Some? ==> SingleLine(loaded.eventType.value))
      && SingleLine(loaded.rest) && ObjectText(loaded.rest) && parse(loaded.rest).Some?
  }

  /** The objects in the messages, without their types, in order. */
  function Objects<V>(load: string -> Loaded, parse: string -> Option<V>, messages: seq<Message>): seq<V>
    requires forall k :: 0 <= k < |messages| ==> Sendable(load, parse, messages[k]) && !Breaks(load, messages[k])
  {
    if messages == [] then []
    else
      var m := messages[0];
      assert Sendable(load, parse, m) && !Breaks(load, m);
      (if m.Data? then [parse(load(m.raw).rest).value] else []) + Objects(load, parse, messages[1..])
  }

  function DataCount(messages: seq<Message>): nat {
    if messages == [] then 0 else (if messages[0].Data? then 1 else 0) + DataCount(messages[1..])
  }

  lemma {:induction false} PayloadsAreObjects<V>(load: string -> Loaded, parse: string -> Option<V>,
                                                 messages: seq<Message>)
    requires forall k :: 0 <= k < |messages| ==> Sendable(load, parse, messages[k]) && !Breaks(load, messages[k])
    ensures Clean(Polls(load, messages))
    ensures Payloads(parse, Polls(load, messages)) == Objects(load, parse, messages)
    ensures |Objects(load, parse, messages)| == DataCount(messages)
  {
    hide Received, DEFAULT_TYPE;
    if messages != [] {
      var m := messages[0];
      assert Sendable(load, parse, m) && !Breaks(load, m);
      assert Polls(load, messages)[1..] == Polls(load, messages[1..]);
      if m.Data? {
        ObjectReceived(parse, load(m.raw).rest);
      }
      PayloadsAreObjects(load, parse, messages[1..]);
      CleanMore(Polls(load, messages)) by {
        SendableIsClean(load, parse, m);
      }
    }
  }

  lemma SendableIsClean<V>(load: string -> Loaded, parse: string -> Option<V>, m: Message)
    requires Sendable(load, parse, m) && !Breaks(load, m)
    ensures Clean([PollOf(load, m)])
  {
  }

  lemma CleanMore(polls: seq<Poll>)
    requires polls != [] && Clean([polls[0]]) && Clean(polls[1..])
    ensures Clean(polls)
  {
    assert [polls[0]][0] == polls[0];
    assert forall k :: 1 <= k < |polls| ==> polls[k] == polls[1..][k - 1];
  }

  lemma {:induction false} DataCountAppend(a: seq<Message>, b: seq<Message>)
    ensures DataCount(a + b) == DataCount(a) + DataCount(b)
  {
    if a == [] {
      assert a + b == b;
    } else {
      DataCountAppend(a[1..], b);
      assert (a + b)[1..] == a[1..] + b;
    }
  }

  /** All messages with data are served exactly when none of them is an array. */
  lemma AllServedIff(load: string -> Loaded, messages: seq<Message>)
    ensures DataCount(Served(load, messages)) == DataCount(messages)
            <==> forall k :: 0 <= k < |messages| ==> !Breaks(load, messages[k])
  {
    hide Served;
    var served := Served(load, messages);
    var n := |served|;
    assert messages == served + messages[n..];
    DataCountAppend(served, messages[n..]);
    if n < |messages| {
      assert messages[n..][0] == messages[n];
    } else {
      assert served == messages;
    }
  }

  /** End to end, for every way `cut` in which the network cuts the text: the client
      dispatches exactly the objects of the served messages, once each, in order, and nothing
      is left over. No published message is lost if and only if none is a JSON array. */
  method EndToEnd<V>(messages: seq<Message>, load: string -> Loaded, cut: string -> seq<string>,
                     parse: string -> Option<V>) returns (events: seq<V>, rest: string)
    requires forall k :: 0 <= k < |messages| ==> Sendable(load, parse, messages[k])
    requires forall s :: Concat(cut(s)) == s
    ensures events == Objects(load, parse, Served(load, messages)) && rest == ""
    ensures |events| == DataCount(messages) <==> forall k :: 0 <= k < |messages| ==> !Breaks(load, messages[k])
  {
    hide Served, Sendable, Polls, Clean, Stream, DataCount;
    ghost var served := Served(load, messages);
    var frames := EventLoop(messages, load);
    PayloadsAreObjects(load, parse, served);
    StreamDispatches(parse, Polls(load, served), 0);
    AllServedIff(load, messages);
    events, rest := ReadLoop(cut(Concat(frames)), parse);
  }

  /** What an interrupted stream has dispatched is a prefix of what the whole one dispatches. */
  lemma CutStream<V>(parse: string -> Option<V>, polls: seq<Poll>, n: nat)
    requires Clean(polls) && n <= |Stream(polls, 0)|
    ensures DispatchAll(parse, Complete(Stream(polls, 0)[..n])) <= Payloads(parse, polls)
  {
    var s := Stream(polls, 0);
    assert s[..n] + s[n..] == s;
    CompleteAppend(s[..n], s[n..]);
    DispatchAppend(parse, Complete(s[..n]), Complete(Rest(s[..n]) + s[n..]));
    StreamDispatches(parse, polls, 0);
  }
}
