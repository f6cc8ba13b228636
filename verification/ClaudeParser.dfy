/** The parser of Claude's stream-json output. It carries the id and name of the tool block seen last. */
module ClaudeParser {
  import opened Common

  datatype BlockKind = NoBlock | ThinkingKind | TextKind | ToolKind(id: string, name: string) | UnknownKind

  datatype StreamEvent =
    | BlockStart(kind: BlockKind)
    | ThinkingDelta(text: string)
    | TextDelta(text: string)
    | JsonDelta(part: string)
    | OtherDelta
    | BlockStop
    | MessageDelta(stopReason: string)
    | MessageStop
    | OtherEvent

  /** One line of output, after JSON decoding; lines that cannot be decoded are skipped, and one that is longer than the
      scanner's buffer ends the scan. */
  datatype Line =
    | SystemLine(init: bool)
    | StreamLine(event: StreamEvent)
    | ControlLine
    | ResultLine(isError: bool)
    | Skipped
    | TooLong

  datatype ParseEvent =
    | Init
    | Thinking(token: string)
    | Text(token: string)
    | ToolUse(id: string, name: string)
    | ToolInput(id: string, name: string, part: string)
    | ToolStop(id: string, name: string)
    | Done(stopReason: string)
    | Result(isError: bool)
    | ControlRequest
    | Status

  datatype Cursor = Cursor(id: string, name: string)

  const NO_TOOL := Cursor("", "")

  /** The cursor after an event: only the start of a tool block moves it. */
  function Move(c: Cursor, e: StreamEvent): Cursor {
    if e.BlockStart? && e.kind.ToolKind? then Cursor(e.kind.id, e.kind.name) else c
  }

  function ParseStream(c: Cursor, e: StreamEvent): ParseEvent {
    match e
    case BlockStart(ToolKind(id, name)) => ToolUse(id, name)
    case ThinkingDelta(t) => Thinking(t)
    case TextDelta(t) => Text(t)
    case JsonDelta(p) => ToolInput(c.id, c.name, p)
    case BlockStop => ToolStop(c.id, c.name)
    case MessageDelta(r) => Done(r)
    case MessageStop => Done("")
    case _ => Status
  }

  function ParseLine(c: Cursor, line: Line): seq<ParseEvent> {
    match line
    case SystemLine(init) => [if init then Init else Status]
    case StreamLine(e) => [ParseStream(c, e)]
    case ControlLine => [ControlRequest]
    case ResultLine(isError) => [Result(isError)]
    case Skipped => []
    case TooLong => []
  }

  /** The lines the scanner gets to. */
  function Readable(lines: seq<Line>): seq<Line> {
    if lines == [] || lines[0].TooLong? then [] else [lines[0]] + Readable(lines[1..])
  }

  datatype ScanState = ScanState(cursor: Cursor, out: seq<ParseEvent>)

  function ParseStep(s: ScanState, line: Line): ScanState {
    ScanState(if line.StreamLine? then Move(s.cursor, line.event) else s.cursor, s.out + ParseLine(s.cursor, line))
  }

  lemma ReadableSplit(lines: seq<Line>, i: nat)
    requires i < |lines| && !lines[i].TooLong?
    ensures lines[..i + 1] == lines[..i] + [lines[i]]
    ensures lines[..i] + Readable(lines[i..]) == lines[..i + 1] + Readable(lines[i + 1..])
  {
    assert lines[i..][1..] == lines[i + 1..];
  }

  class Parser {
    var currentToolId: string
    var currentToolName: string

    constructor ()
      ensures Now() == NO_TOOL
    {
      currentToolId, currentToolName := "", "";
    }

    function Now(): Cursor
      reads this
    {
      Cursor(currentToolId, currentToolName)
    }

    method ParseStreamEvent(e: StreamEvent) returns (pe: ParseEvent)
      modifies this
      ensures pe == ParseStream(old(Now()), e) && Now() == Move(old(Now()), e)
    {
      match e {
        case BlockStart(ToolKind(id, name)) =>
          currentToolId, currentToolName := id, name;
          return ToolUse(id, name);
        case BlockStart(_) => return Status;
        case ThinkingDelta(t) => return Thinking(t);
        case TextDelta(t) => return Text(t);
        case JsonDelta(p) => return ToolInput(currentToolId, currentToolName, p);
        case OtherDelta => return Status;
        case BlockStop => return ToolStop(currentToolId, currentToolName);
        case MessageDelta(r) => return Done(r);
        case MessageStop => return Done("");
        case OtherEvent => return Status;
      }
    }

    /** The scanner loop: what is put on the event channel, line by line. */
    method Scan(lines: seq<Line>) returns (out: seq<ParseEvent>)
      modifies this
      ensures ScanState(Now(), out) == Fold(ParseStep, ScanState(old(Now()), []), Readable(lines))
    {
      out := [];
      ghost var start := ScanState(Now(), []);
      var i := 0;
      while i < |lines| && !lines[i].TooLong?
        invariant 0 <= i <= |lines|
        invariant Readable(lines) == lines[..i] + Readable(lines[i..])
        invariant ScanState(Now(), out) == Fold(ParseStep, start, lines[..i])
      {
        ReadableSplit(lines, i);
        FoldSnoc(ParseStep, start, lines[..i], lines[i]);
        match lines[i] {
          case SystemLine(init) => out := out + [if init then Init else Status];
          case StreamLine(e) =>
            var pe := ParseStreamEvent(e);
            out := out + [pe];
          case ControlLine => out := out + [ControlRequest];
          case ResultLine(isError) => out := out + [Result(isError)];
          case Skipped =>
          case TooLong =>
        }
        i := i + 1;
      }
      assert Readable(lines[i..]) == [] && lines[..i] + [] == lines[..i];
    }
  }
}
