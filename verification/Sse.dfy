/**
 The log stream as Server-Sent Events: the printer of api/logs.go:72-79, 104 and
 121, and the parser of the WHATWG HTML Living Standard, sections 9.2.5 ("Parsing
 an event stream") and 9.2.6 ("Interpreting an event stream"), on decoded text.
 */
module SseParser {
  datatype Event = Event(kind: string, data: string)

  /** The buffers of section 9.2.6. */
  datatype Buffers = Buffers(data: string, kind: string, lastId: string)

  const EMPTY := Buffers("", "", "")
  const BOM: char := '\U{FEFF}'

  predicate EndsLine(c: char) {
    c == '\r' || c == '\n'
  }

  /** The position of the first line terminator; the length when there is none. */
  function LineLength(s: string): (n: nat)
    ensures n <= |s|
    ensures n < |s| ==> EndsLine(s[n])
  {
    if s == "" || EndsLine(s[0]) then 0 else 1 + LineLength(s[1..])
  }

  /** Lines end with CRLF, LF or CR; a last line without an end is dropped. */
  function SplitLines(s: string): seq<string> {
    var n := LineLength(s);
    if n == |s| then []
    else if s[n] == '\r' && n + 1 < |s| && s[n + 1] == '\n' then [s[..n]] + SplitLines(s[n + 2..])
    else [s[..n]] + SplitLines(s[n + 1..])
  }

  function ColonAt(s: string): (n: nat)
    ensures n <= |s|
  {
    if s == "" || s[0] == ':' then 0 else 1 + ColonAt(s[1..])
  }

  function DropSpace(s: string): string {
    if s != "" && s[0] == ' ' then s[1..] else s
  }

  function ProcessField(b: Buffers, field: string, value: string): Buffers {
    if field == "event" then b.(kind := value)
    else if field == "data" then b.(data := b.data + value + "\n")
    else if field == "id" && '\0' !in value then b.(lastId := value)
    else b
  }

  function ProcessLine(b: Buffers, line: string): Buffers {
    var n := ColonAt(line);
    if n == 0 && line != "" then b
    else if n < |line| then ProcessField(b, line[..n], DropSpace(line[n + 1..]))
    else ProcessField(b, line, "")
  }

  /** Dispatch: nothing for an empty data buffer, else one event, without the
      last newline of the data; both buffers are reset. */
  function Dispatched(b: Buffers): seq<Event> {
    if b.data == "" then []
    else
      var data := if b.data[|b.data| - 1] == '\n' then b.data[..|b.data| - 1] else b.data;
      [Event(if b.kind == "" then "message" else b.kind, data)]
  }

  function Reset(b: Buffers): Buffers {
    b.(data := "", kind := "")
  }

  function Interpret(b: Buffers, lines: seq<string>): seq<Event>
    decreases |lines|
  {
    if lines == [] then []
    else if lines[0] == "" then Dispatched(b) + Interpret(Reset(b), lines[1..])
    else Interpret(ProcessLine(b, lines[0]), lines[1..])
  }

  function Parse(stream: string): seq<Event> {
    Interpret(EMPTY, SplitLines(if stream != "" && stream[0] == BOM then stream[1..] else stream))
  }
}

module Sse {
  import opened LogLines
  import opened SseParser

  /** What the handler writes: a log line, the heartbeat comment, or the name of
      the log file it has opened. */
  datatype LogFile = FlndLog | FlokicoinLog
  datatype Frame = Line(text: string) | Heartbeat | FileName(file: LogFile)

  function Name(file: LogFile): string {
    match file
    case FlndLog => "flnd.log"
    case FlokicoinLog => "flokicoin.log"
  }

  /** strings.NewReplacer("\n", " ", "\r", " ") */
  function Safe(s: string): (r: string)
    ensures |r| == |s|
    ensures forall i :: 0 <= i < |s| ==> r[i] == if EndsLine(s[i]) then ' ' else s[i]
  {
    if s == "" then "" else [if EndsLine(s[0]) then ' ' else s[0]] + Safe(s[1..])
  }

  function Print(f: Frame): string {
    match f
    case Line(text) => "data: " + Safe(text) + "\n\n"
    case Heartbeat => ": heartbeat\n\n"
    case FileName(file) => "event: filename\ndata: " + Name(file) + "\n\n"
  }

  function Stream(fs: seq<Frame>): string {
    if fs == [] then "" else Print(fs[0]) + Stream(fs[1..])
  }

  /** The lines a frame is printed as. */
  function FrameLines(f: Frame): seq<string> {
    match f
    case Line(text) => ["data: " + Safe(text), ""]
    case Heartbeat => [": heartbeat", ""]
    case FileName(file) => ["event: filename", "data: " + Name(file), ""]
  }

  /** What a reader of the stream is meant to see of a frame. */
  function Meaning(f: Frame): seq<Event> {
    match f
    case Line(text) => [Event("message", Safe(text))]
    case Heartbeat => []
    case FileName(file) => [Event("filename", Name(file))]
  }

  function Meanings(fs: seq<Frame>): seq<Event> {
    if fs == [] then [] else Meaning(fs[0]) + Meanings(fs[1..])
  }

  predicate OneLine(s: string) {
    forall i :: 0 <= i < |s| ==> !EndsLine(s[i])
  }

  lemma {:induction false} LineLengthIs(line: string, more: string)
    requires OneLine(line)
    ensures LineLength(line + "\n" + more) == |line|
  {
    var s := line + "\n" + more;
    if line == "" {
      assert s[0] == '\n';
    } else {
      assert s[0] == line[0] && s[1..] == line[1..] + "\n" + more;
      LineLengthIs(line[1..], more);
    }
  }

  lemma SplitFirst(line: string, more: string)
    requires OneLine(line)
    ensures SplitLines(line + "\n" + more) == [line] + SplitLines(more)
  {
    var s := line + "\n" + more;
    LineLengthIs(line, more);
    assert s[|line|] == '\n' && s[..|line|] == line && s[|line| + 1..] == more;
  }

  lemma BlankLine(line: string, more: string)
    ensures line + "\n\n" + more == line + "\n" + ("\n" + more)
  {
  }

  lemma SplitEmpty(more: string)
    ensures SplitLines("\n" + more) == [""] + SplitLines(more)
  {
    var s := "\n" + more;
    assert s[0] == '\n' && s[..0] == "" && s[1..] == more;
  }

  lemma SplitTwo(line: string, more: string, next: string)
    requires OneLine(line) && SplitLines(next) == [""] + SplitLines(more)
    ensures SplitLines(line + "\n" + next) == [line, ""] + SplitLines(more)
  {
    SplitFirst(line, next);
    PairFirst(line, "", SplitLines(more));
  }

  lemma PairFirst(a: string, b: string, ls: seq<string>)
    ensures [a] + ([b] + ls) == [a, b] + ls
  {
  }

  lemma SplitBlock(line: string, more: string)
    requires OneLine(line)
    ensures SplitLines(line + "\n\n" + more) == [line, ""] + SplitLines(more)
  {
    SplitEmpty(more);
    SplitTwo(line, more, "\n" + more);
    BlankLine(line, more);
  }

  lemma FileNameText(first: string, last: string, more: string)
    ensures first + "\n" + last + "\n\n" + more == first + "\n" + (last + "\n\n" + more)
  {
  }

  lemma SplitFileName(first: string, last: string, more: string)
    requires OneLine(first) && OneLine(last)
    ensures SplitLines(first + "\n" + last + "\n\n" + more) == [first, last, ""] + SplitLines(more)
  {
    SplitBlock(last, more);
    SplitFirst(first, last + "\n\n" + more);
    FileNameText(first, last, more);
    TripleFirst(first, last, "", SplitLines(more));
  }

  lemma PrintedFileName(file: LogFile)
    ensures Print(FileName(file)) == "event: filename" + "\n" + ("data: " + Name(file)) + "\n\n"
  {
  }

  /** A frame is printed as its lines, whatever follows. */
  lemma FrameSplits(f: Frame, more: string)
    ensures SplitLines(Print(f) + more) == FrameLines(f) + SplitLines(more)
  {
    match f
    case Line(text) => SplitBlock("data: " + Safe(text), more);
    case Heartbeat =>
      SplitBlock(": heartbeat", more);
      assert ": heartbeat\n\n" == ": heartbeat" + "\n\n";
    case FileName(file) =>
      SplitFileName("event: filename", "data: " + Name(file), more);
      PrintedFileName(file);
  }

  lemma {:induction false} ColonIs(field: string, rest: string)
    requires ':' !in field
    ensures ColonAt(field + ":" + rest) == |field|
  {
    var line := field + ":" + rest;
    if field != "" {
      assert line[0] == field[0] && line[1..] == field[1..] + ":" + rest;
      ColonIs(field[1..], rest);
    }
  }

  lemma FieldLine(b: Buffers, field: string, value: string)
    requires field == "data" || field == "event"
    ensures ProcessLine(b, field + ": " + value) == ProcessField(b, field, value)
  {
    var line := field + ": " + value;
    ColonIs(field, " " + value);
    assert line == field + ":" + (" " + value);
    assert line[..|field|] == field && line[|field| + 1..] == " " + value;
  }

  /** Interpreting one frame's lines from reset buffers yields its meaning and
      resets the buffers again. */
  lemma FrameMeans(f: Frame, id: string, lines: seq<string>)
    ensures Interpret(Buffers("", "", id), FrameLines(f) + lines) ==
            Meaning(f) + Interpret(Buffers("", "", id), lines)
  {
    match f
    case Line(text) => DataBlock("", Safe(text), id, lines);
    case Heartbeat => CommentBlock(id, lines);
    case FileName(file) => NamedBlock(Name(file), id, lines);
  }

  lemma NamedBlock(value: string, id: string, lines: seq<string>)
    ensures Interpret(Buffers("", "", id), ["event: filename", "data: " + value, ""] + lines) ==
            [Event("filename", value)] + Interpret(Buffers("", "", id), lines)
  {
    FileNameLiteral();
    NamedLines("event: filename", "filename", value, id, lines);
  }

  lemma FileNameLiteral()
    ensures "event: filename" == "event" + ": " + "filename"
  {
  }

  lemma NamedLines(first: string, kind: string, value: string, id: string, lines: seq<string>)
    requires first == "event" + ": " + kind && kind != ""
    ensures Interpret(Buffers("", "", id), [first, "data: " + value, ""] + lines) ==
            [Event(kind, value)] + Interpret(Buffers("", "", id), lines)
  {
    var b := Buffers("", "", id);
    var rest := ["data: " + value, ""] + lines;
    FieldLine(b, "event", kind);
    InterpretFirst(b, first, rest);
    DataBlock(kind, value, id, lines);
    TripleFirst(first, "data: " + value, "", lines);
  }

  lemma TripleFirst(a: string, b: string, c: string, ls: seq<string>)
    ensures [a, b, c] + ls == [a] + ([b, c] + ls)
  {
  }

  lemma InterpretFirst(b: Buffers, line: string, rest: seq<string>)
    requires line != ""
    ensures Interpret(b, [line] + rest) == Interpret(ProcessLine(b, line), rest)
  {
    assert ([line] + rest)[1..] == rest;
  }

  lemma DataBlock(kind: string, value: string, id: string, lines: seq<string>)
    ensures Interpret(Buffers("", kind, id), ["data: " + value, ""] + lines) ==
            [Event(if kind == "" then "message" else kind, value)] + Interpret(Buffers("", "", id), lines)
  {
    var line := "data: " + value;
    FieldLine(Buffers("", kind, id), "data", value);
    assert "data" + ": " + value == line && "" + value == value;
    InterpretFirst(Buffers("", kind, id), line, [""] + lines);
    InterpretBlank(Buffers(value + "\n", kind, id), lines);
    DispatchData(kind, value, id);
    PairFirst(line, "", lines);
  }

  lemma InterpretBlank(b: Buffers, lines: seq<string>)
    ensures Interpret(b, [""] + lines) == Dispatched(b) + Interpret(Reset(b), lines)
  {
    assert ([""] + lines)[1..] == lines;
  }

  lemma DispatchData(kind: string, value: string, id: string)
    ensures Dispatched(Buffers(value + "\n", kind, id)) == [Event(if kind == "" then "message" else kind, value)]
  {
    assert (value + "\n")[..|value|] == value;
  }

  lemma CommentBlock(id: string, lines: seq<string>)
    ensures Interpret(Buffers("", "", id), [": heartbeat", ""] + lines) == Interpret(Buffers("", "", id), lines)
  {
    var all := [": heartbeat", ""] + lines;
    assert ColonAt(": heartbeat") == 0;
    assert all[1..] == [""] + lines && ([""] + lines)[1..] == lines;
  }

  lemma {:induction false} FramesMean(fs: seq<Frame>)
    ensures Interpret(EMPTY, SplitLines(Stream(fs))) == Meanings(fs)
  {
    if fs != [] {
      FrameSplits(fs[0], Stream(fs[1..]));
      FrameMeans(fs[0], "", SplitLines(Stream(fs[1..])));
      FramesMean(fs[1..]);
    }
  }

  /** Printing frames and parsing the stream gives back what they mean: one event
      for every log line and file name, nothing for a heartbeat. */
  lemma RoundTrip(fs: seq<Frame>)
    ensures Parse(Stream(fs)) == Meanings(fs)
  {
    FramesMean(fs);
    if fs != [] {
      assert Stream(fs)[0] == Print(fs[0])[0];
    }
  }

  // ------------------------------------------------- from the log to the reader

  /** The texts of the line frames. */
  function Texts(fs: seq<Frame>): seq<string> {
    if fs == [] then []
    else (if fs[0].Line? then [fs[0].text] else []) + Texts(fs[1..])
  }

  /** The data of the message events. */
  function Messages(es: seq<Event>): seq<string> {
    if es == [] then []
    else (if es[0].kind == "message" then [es[0].data] else []) + Messages(es[1..])
  }

  function SafeAll(ls: seq<string>): seq<string> {
    if ls == [] then [] else [Safe(ls[0])] + SafeAll(ls[1..])
  }

  lemma {:induction false} MessagesOfMeanings(fs: seq<Frame>)
    ensures Messages(Meanings(fs)) == SafeAll(Texts(fs))
  {
    if fs != [] {
      MessagesOfMeanings(fs[1..]);
      var rest := Meanings(fs[1..]);
      match fs[0]
      case Line(text) =>
        assert (Meaning(fs[0]) + rest)[1..] == rest;
        assert ([text] + Texts(fs[1..]))[1..] == Texts(fs[1..]);
      case Heartbeat =>
        assert [] + rest == rest && [] + Texts(fs[1..]) == Texts(fs[1..]);
      case FileName(file) =>
        assert (Meaning(fs[0]) + rest)[1..] == rest;
        assert [] + Texts(fs[1..]) == Texts(fs[1..]);
    }
  }

  /** The names of the files the handler has opened. */
  function FileNames(fs: seq<Frame>): seq<string> {
    if fs == [] then []
    else
      match fs[0]
      case FileName(FlndLog) => ["flnd.log"] + FileNames(fs[1..])
      case FileName(FlokicoinLog) => ["flokicoin.log"] + FileNames(fs[1..])
      case _ => FileNames(fs[1..])
  }

  /** The data of the filename events. */
  function Names(es: seq<Event>): seq<string> {
    if es == [] then []
    else (if es[0].kind == "filename" then [es[0].data] else []) + Names(es[1..])
  }

  lemma NamesCons(e: Event, es: seq<Event>)
    ensures Names([e] + es) == (if e.kind == "filename" then [e.data] else []) + Names(es)
  {
    assert ([e] + es)[1..] == es;
  }

  lemma {:induction false} NamesOfMeanings(fs: seq<Frame>)
    ensures Names(Meanings(fs)) == FileNames(fs)
  {
    if fs != [] {
      NamesOfMeanings(fs[1..]);
      var rest := Meanings(fs[1..]);
      match fs[0]
      case Line(text) =>
        NamesCons(Event("message", Safe(text)), rest);
        assert "message" != "filename" && [] + Names(rest) == Names(rest);
      case Heartbeat => assert [] + rest == rest;
      case FileName(file) => NamesCons(Event("filename", Name(file)), rest);
    }
  }

  /** The reader is told the name of every file the handler opens, in order. */
  lemma ReaderGetsFileNames(fs: seq<Frame>)
    ensures Names(Parse(Stream(fs))) == FileNames(fs)
  {
    RoundTrip(fs);
    NamesOfMeanings(fs);
  }

  lemma {:induction false} SafeAllAppend(a: seq<string>, b: seq<string>)
    ensures SafeAll(a + b) == SafeAll(a) + SafeAll(b)
  {
    if a == [] {
      assert a + b == b;
    } else {
      assert (a + b)[1..] == a[1..] + b;
      SafeAllAppend(a[1..], b);
    }
  }

  /** End to end: after whatever lines `back` the handler printed from the end of
      the file before it began to tail, whatever pieces the log is then read in, and
      however heartbeats and file names are mixed in, a reader of the stream gets
      those lines and then exactly the newline-terminated, trimmed, non-empty lines
      of what was appended ... */
  lemma ReaderGetsLogLines(back: seq<string>, chunks: seq<string>, fs: seq<Frame>)
    requires Texts(fs) == back + Polled("", chunks)
    ensures Messages(Parse(Stream(fs))) == SafeAll(back) + SafeAll(Lines(Concat(chunks)))
  {
    RoundTrip(fs);
    MessagesOfMeanings(fs);
    ChunkIndependence("", chunks);
    assert "" + Concat(chunks) == Concat(chunks);
    SafeAllAppend(back, Polled("", chunks));
  }

  /** ... with every CR left inside one turned into a space and no other change. */
  lemma OnlyReturnsChange(log: string, i: nat, j: nat)
    requires i < |Lines(log)| && j < |Lines(log)[i]|
    ensures Safe(Lines(log)[i])[j] == if Lines(log)[i][j] == '\r' then ' ' else Lines(log)[i][j]
  {
    PartsHaveNoNewline(log);
    ShownNoNewlines(Raw(log));
    assert !HasNewline(Lines(log)[i]);
    assert Lines(log)[i][j] in Lines(log)[i];
  }
}
