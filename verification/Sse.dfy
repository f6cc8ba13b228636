/** Server-sent events: how the agent writes one event, and how the phone turns the byte stream back into events. */
module Sse {
  import opened Common
  import Utf8

  datatype Event = Event(kind: string, data: string)

  const EVENT_PREFIX := "event: "
  const DATA_PREFIX := "data: "

  /** The text of one event, as the agent's writer assembles it. */
  function Render(e: Event): string {
    EVENT_PREFIX + e.kind + "\ndata: " + e.data + "\n\n"
  }

  function RenderBytes(e: Event): seq<byte> {
    Utf8.Encode(Render(e))
  }

  // ---- Text helpers ----

  /** White space as Dart's trim removes it. */
  predicate IsSpace(c: char) {
    var n := c as int;
    || 0x9 <= n <= 0xD || n == 0x20 || n == 0x85 || n == 0xA0 || n == 0x1680 || 0x2000 <= n <= 0x200A
    || n == 0x2028 || n == 0x2029 || n == 0x202F || n == 0x205F || n == 0x3000 || n == 0xFEFF
  }

  predicate Trimmed(s: string) {
    s != "" ==> !IsSpace(s[0]) && !IsSpace(s[|s| - 1])
  }

  predicate OneLine(s: string) {
    forall i :: 0 <= i < |s| ==> s[i] != '\n' && s[i] != '\r'
  }

  function Trim(s: string): (t: string)
    ensures Trimmed(t)
    ensures Trimmed(s) ==> t == s
    ensures OneLine(s) ==> OneLine(t)
  {
    if s == "" then s
    else if IsSpace(s[0]) then Trim(s[1..])
    else if IsSpace(s[|s| - 1]) then Trim(s[..|s| - 1])
    else s
  }

  /** What an event must look like for the phone to see it unchanged. */
  predicate Wellformed(e: Event) {
    Trimmed(e.kind) && OneLine(e.kind) && Trimmed(e.data) && OneLine(e.data) && e.data != ""
  }

  // ---- Cutting text into lines ----

  /** Lines end at LF, CR or CRLF; `afterCr` remembers a CR whose LF may still come in the next piece. */
  datatype Splitter = Splitter(carry: string, afterCr: bool, lines: seq<string>)

  function SplitStep(s: Splitter, c: char): Splitter {
    if c == '\n' then
      if s.afterCr then s.(afterCr := false) else Splitter("", false, s.lines + [s.carry])
    else if c == '\r' then Splitter("", true, s.lines + [s.carry])
    else Splitter(s.carry + [c], false, s.lines)
  }

  /** At the end of the stream an unfinished line still counts. */
  function SplitEnd(s: Splitter): seq<string> {
    if s.carry == "" then s.lines else s.lines + [s.carry]
  }

  // ---- Reading events from lines ----

  datatype Reader = Reader(kind: Option<string>, buffer: string, events: seq<Event>)

  function ReadLine(r: Reader, line: string): Reader {
    if EVENT_PREFIX <= line then r.(kind := Some(Trim(line[7..])))
    else if DATA_PREFIX <= line then r.(buffer := r.buffer + line[6..])
    else if line == "" && r.kind.Some? then
      var data := Trim(r.buffer);
      Reader(None, "", if data == "" then r.events else r.events + [Event(r.kind.value, data)])
    else r
  }

  // ---- The whole reading side as a function of the bytes ----

  const NO_LINES := Splitter("", false, [])
  const NO_EVENTS := Reader(None, "", [])

  ghost function Decoded(bytes: seq<byte>): Utf8.State {
    Fold(Utf8.Step, Utf8.START, bytes)
  }

  ghost function Lines(text: string): seq<string> {
    SplitEnd(Fold(SplitStep, NO_LINES, text))
  }

  ghost function EventsOf(text: string): seq<Event> {
    Fold(ReadLine, NO_EVENTS, Lines(text)).events
  }

  /** The three stages together, one byte at a time. */
  datatype Phone = Phone(utf8: Utf8.State, splitter: Splitter, reader: Reader)

  /** Each stage has seen exactly what the stage before it has put out. */
  ghost predicate Follows(p: Phone, seen: seq<byte>) {
    && p.utf8 == Decoded(seen)
    && p.splitter == Fold(SplitStep, NO_LINES, p.utf8.text)
    && p.reader == Fold(ReadLine, NO_EVENTS, p.splitter.lines)
  }

  lemma SplitGrows(s: Splitter, c: char)
    ensures SplitStep(s, c).lines == s.lines || exists l :: SplitStep(s, c).lines == s.lines + [l]
  {
  }

  lemma DecodeGrows(s: Utf8.State, b: byte)
    ensures Utf8.Step(s, b).text == s.text || exists c :: Utf8.Step(s, b).text == s.text + [c]
  {
  }

  /** A finished line goes to the reader. */
  method TakeChar(splitter: Splitter, reader: Reader, c: char, ghost text: string)
      returns (splitter': Splitter, reader': Reader)
    requires splitter == Fold(SplitStep, NO_LINES, text) && reader == Fold(ReadLine, NO_EVENTS, splitter.lines)
    ensures splitter' == Fold(SplitStep, NO_LINES, text + [c])
    ensures reader' == Fold(ReadLine, NO_EVENTS, splitter'.lines)
  {
    FoldSnoc(SplitStep, NO_LINES, text, c);
    SplitGrows(splitter, c);
    splitter', reader' := SplitStep(splitter, c), reader;
    var n := |splitter.lines|;
    if |splitter'.lines| > n {
      FoldSnoc(ReadLine, NO_EVENTS, splitter.lines, splitter'.lines[n]);
      reader' := ReadLine(reader, splitter'.lines[n]);
    }
  }

  /** A finished character goes to the splitter. */
  method TakeByte(p: Phone, b: byte, ghost seen: seq<byte>) returns (p': Phone)
    requires Follows(p, seen)
    ensures Follows(p', seen + [b])
  {
    FoldSnoc(Utf8.Step, Utf8.START, seen, b);
    DecodeGrows(p.utf8, b);
    var next := Utf8.Step(p.utf8, b);
    var n := |p.utf8.text|;
    p' := p.(utf8 := next);
    if |next.text| > n {
      var s, r := TakeChar(p.splitter, p.reader, next.text[n], p.utf8.text);
      assert next.text == p.utf8.text + [next.text[n]];
      p' := Phone(next, s, r);
    }
  }

  method TakePiece(p: Phone, piece: seq<byte>, ghost seen: seq<byte>) returns (p': Phone)
    requires Follows(p, seen)
    ensures Follows(p', seen + piece)
  {
    p' := p;
    assert seen + piece[..0] == seen;
    for j := 0 to |piece|
      invariant Follows(p', seen + piece[..j])
    {
      p' := TakeByte(p', piece[j], seen + piece[..j]);
      assert seen + piece[..j + 1] == seen + piece[..j] + [piece[j]];
    }
    assert piece[..|piece|] == piece;
  }

  /** The phone's parser over a stream that arrives in pieces: UTF-8, then lines, then events. `ok` is false when
      the bytes are not UTF-8 or stop inside a character; then the stream ends with an error. */
  method ParseStream(pieces: seq<seq<byte>>) returns (events: seq<Event>, ok: bool)
    ensures var d := Decoded(Flatten(pieces));
            && ok == (d.ok && d.pending == [])
            && (ok ==> events == EventsOf(d.text))
  {
    var p := Phone(Utf8.START, NO_LINES, NO_EVENTS);
    for i := 0 to |pieces|
      invariant Follows(p, Flatten(pieces[..i]))
    {
      p := TakePiece(p, pieces[i], Flatten(pieces[..i]));
      FlattenSnoc(pieces[..i], pieces[i]);
      assert pieces[..i + 1] == pieces[..i] + [pieces[i]];
    }
    assert pieces[..|pieces|] == pieces;
    ok := p.utf8.ok && p.utf8.pending == [];
    events := p.reader.events;
    if p.splitter.carry != "" {
      FoldSnoc(ReadLine, NO_EVENTS, p.splitter.lines, p.splitter.carry);
      events := ReadLine(p.reader, p.splitter.carry).events;
    }
  }

  // ---- Round trip ----

  lemma {:induction false} SplitOneLine(s: Splitter, t: string)
    requires OneLine(t) && !s.afterCr
    ensures Fold(SplitStep, s, t) == s.(carry := s.carry + t)
  {
    if t == "" {
      assert s.carry + t == s.carry;
    } else {
      var init, c := t[..|t| - 1], t[|t| - 1];
      SplitOneLine(s, init);
      assert s.carry + init + [c] == s.carry + t;
    }
  }

  /** A line without line breaks, followed by LF, is read back as that line. */
  lemma SplitWholeLine(lines: seq<string>, t: string)
    requires OneLine(t)
    ensures Fold(SplitStep, Splitter("", false, lines), t + "\n") == Splitter("", false, lines + [t])
  {
    var s := Splitter("", false, lines);
    calc {
      Fold(SplitStep, s, t + ['\n']);
      { FoldSnoc(SplitStep, s, t, '\n'); }
      SplitStep(Fold(SplitStep, s, t), '\n');
      { SplitOneLine(s, t); assert "" + t == t; }
      Splitter("", false, lines + [t]);
    }
  }

  lemma SplitEvent(lines: seq<string>, e: Event)
    requires OneLine(e.kind) && OneLine(e.data)
    ensures Fold(SplitStep, Splitter("", false, lines), Render(e))
         == Splitter("", false, lines + [EVENT_PREFIX + e.kind, DATA_PREFIX + e.data, ""])
  {
    var l0, l1 := EVENT_PREFIX + e.kind, DATA_PREFIX + e.data;
    var s0 := Splitter("", false, lines);
    var s1 := Splitter("", false, lines + [l0]);
    var s2 := Splitter("", false, lines + [l0] + [l1]);
    calc {
      Fold(SplitStep, s0, Render(e));
      { assert Render(e) == (l0 + "\n") + (l1 + "\n" + "\n"); FoldAppend(SplitStep, s0, l0 + "\n", l1 + "\n" + "\n"); }
      Fold(SplitStep, Fold(SplitStep, s0, l0 + "\n"), l1 + "\n" + "\n");
      { SplitWholeLine(lines, l0); }
      Fold(SplitStep, s1, (l1 + "\n") + "\n");
      { FoldAppend(SplitStep, s1, l1 + "\n", "\n"); }
      Fold(SplitStep, Fold(SplitStep, s1, l1 + "\n"), "\n");
      { SplitWholeLine(lines + [l0], l1); }
      Fold(SplitStep, s2, "\n");
      { SplitWholeLine(lines + [l0] + [l1], ""); assert "" + "\n" == "\n"; }
      Splitter("", false, lines + [l0] + [l1] + [""]);
    }
    assert lines + [l0] + [l1] + [""] == lines + [l0, l1, ""];
  }

  lemma ReadKindLine(events: seq<Event>, kind: string)
    requires Trimmed(kind)
    ensures ReadLine(Reader(None, "", events), EVENT_PREFIX + kind) == Reader(Some(kind), "", events)
  {
    assert (EVENT_PREFIX + kind)[7..] == kind;
  }

  lemma ReadDataLine(r: Reader, data: string)
    requires r.buffer == ""
    ensures ReadLine(r, DATA_PREFIX + data) == r.(buffer := data)
  {
    var line := DATA_PREFIX + data;
    assert line[6..] == data && "" + data == data;
    assert line[0] == 'd' && EVENT_PREFIX[0] == 'e';
  }

  lemma FoldThree<S, A>(step: (S, A) -> S, s: S, a: A, b: A, c: A)
    ensures Fold(step, s, [a, b, c]) == step(step(step(s, a), b), c)
  {
    FoldTwo(step, s, a, b);
    assert [a, b, c] == [a, b] + [c];
    FoldSnoc(step, s, [a, b], c);
  }

  lemma ReadEvent(events: seq<Event>, e: Event)
    requires Wellformed(e)
    ensures Fold(ReadLine, Reader(None, "", events), [EVENT_PREFIX + e.kind, DATA_PREFIX + e.data, ""])
         == Reader(None, "", events + [e])
  {
    var l0, l1 := EVENT_PREFIX + e.kind, DATA_PREFIX + e.data;
    var r := Reader(None, "", events);
    FoldThree(ReadLine, r, l0, l1, "");
    ReadKindLine(events, e.kind);
    ReadDataLine(Reader(Some(e.kind), "", events), e.data);
  }

  /** Rendered events, however many, split and read back one after the other. */
  lemma {:induction false} ReadRendered(es: seq<Event>)
    requires forall i :: 0 <= i < |es| ==> Wellformed(es[i])
    ensures var s := Fold(SplitStep, NO_LINES, FlatMap(Render, es));
            && s.carry == "" && !s.afterCr
            && Fold(ReadLine, NO_EVENTS, s.lines) == Reader(None, "", es)
  {
    if es == [] {
    } else {
      var init, e := es[..|es| - 1], es[|es| - 1];
      ReadRendered(init);
      var text := FlatMap(Render, init);
      var s := Fold(SplitStep, NO_LINES, text);
      var three := [EVENT_PREFIX + e.kind, DATA_PREFIX + e.data, ""];
      calc {
        Fold(SplitStep, NO_LINES, FlatMap(Render, es));
        { FlatMapSnoc(Render, init, e); assert init + [e] == es; }
        Fold(SplitStep, NO_LINES, text + Render(e));
        { FoldAppend(SplitStep, NO_LINES, text, Render(e)); }
        Fold(SplitStep, s, Render(e));
        { SplitEvent(s.lines, e); }
        Splitter("", false, s.lines + three);
      }
      calc {
        Fold(ReadLine, NO_EVENTS, s.lines + three);
        { FoldAppend(ReadLine, NO_EVENTS, s.lines, three); }
        Fold(ReadLine, Reader(None, "", init), three);
        { ReadEvent(init, e); assert init + [e] == es; }
        Reader(None, "", es);
      }
    }
  }

  // ---- Streams that other writers could send ----

  /** The two lines of an event and the empty one behind them. */
  lemma RenderedText(kind: string, data: string)
    ensures Render(Event(kind, data)) == "event: " + kind + "\ndata: " + data + "\n\n"
  {
  }

  /** A line may also end with CR. */
  lemma SplitCr(lines: seq<string>, t: string)
    requires OneLine(t)
    ensures Fold(SplitStep, Splitter("", false, lines), t + "\r") == Splitter("", true, lines + [t])
  {
    SplitOneLine(Splitter("", false, lines), t);
    assert "" + t == t;
    FoldSnoc(SplitStep, Splitter("", false, lines), t, '\r');
  }

  /** A line may also end with CR LF. */
  lemma SplitCrLf(lines: seq<string>, t: string)
    requires OneLine(t)
    ensures Fold(SplitStep, Splitter("", false, lines), t + "\r\n") == Splitter("", false, lines + [t])
  {
    var s := Splitter("", false, lines);
    SplitOneLine(s, t);
    assert "" + t == t;
    FoldSnoc(SplitStep, s, t, '\r');
    FoldSnoc(SplitStep, s, t + "\r", '\n');
    assert t + "\r" + "\n" == t + "\r\n";
  }

  predicate Blank(s: string) {
    forall i :: 0 <= i < |s| ==> IsSpace(s[i])
  }

  /** Trimming removes the white space around a text and nothing else. */
  lemma {:induction false} TrimPadded(left: string, s: string, right: string)
    requires Blank(left) && Blank(right) && Trimmed(s) && s != ""
    ensures Trim(left + s + right) == s
    decreases |left| + |right|
  {
    var all := left + s + right;
    if left != "" {
      assert IsSpace(left[0]) && all[0] == left[0];
      assert all[1..] == left[1..] + s + right;
      TrimPadded(left[1..], s, right);
    } else if right != "" {
      assert IsSpace(right[|right| - 1]) && all[|all| - 1] == right[|right| - 1] && all[0] == s[0];
      assert all[..|all| - 1] == left + s + right[..|right| - 1];
      TrimPadded(left, s, right[..|right| - 1]);
    } else {
      assert all == s;
    }
  }

  function DataLine(part: string): seq<string> {
    [DATA_PREFIX + part]
  }

  lemma {:induction false} ReadDataLines(r: Reader, parts: seq<string>)
    ensures Fold(ReadLine, r, FlatMap(DataLine, parts)) == r.(buffer := r.buffer + FlatMap((part: string) => part, parts))
  {
    if parts == [] {
      assert r.buffer + "" == r.buffer;
    } else {
      var init, part := parts[..|parts| - 1], parts[|parts| - 1];
      ReadDataLines(r, init);
      FoldSnoc(ReadLine, r, FlatMap(DataLine, init), DATA_PREFIX + part);
      var line := DATA_PREFIX + part;
      assert line[6..] == part && line[0] == 'd' && EVENT_PREFIX[0] == 'e';
      AppendAppend(r.buffer, FlatMap((p: string) => p, init), part);
    }
  }

  /** Any other line means nothing. */
  lemma OtherLine(r: Reader, line: string)
    requires !("event: " <= line) && !("data: " <= line) && line != ""
    ensures ReadLine(r, line) == r
  {
  }

  // ---- What the phone can ever see ----

  lemma {:induction false} LinesAreOneLine(text: string)
    ensures var s := Fold(SplitStep, NO_LINES, text);
            OneLine(s.carry) && forall i :: 0 <= i < |s.lines| ==> OneLine(s.lines[i])
  {
    if text == "" {
    } else {
      LinesAreOneLine(text[..|text| - 1]);
    }
  }

  ghost predicate Clean(r: Reader) {
    && (r.kind.Some? ==> Trimmed(r.kind.value) && OneLine(r.kind.value))
    && OneLine(r.buffer)
    && forall i :: 0 <= i < |r.events| ==> Wellformed(r.events[i])
  }

  lemma {:induction false} EventsAreWellformed(lines: seq<string>)
    requires forall i :: 0 <= i < |lines| ==> OneLine(lines[i])
    ensures Clean(Fold(ReadLine, NO_EVENTS, lines))
  {
    if lines == [] {
    } else {
      EventsAreWellformed(lines[..|lines| - 1]);
      var line := lines[|lines| - 1];
      assert OneLine(line);
    }
  }

  /** A list of events survives the trip exactly when each of them is well formed. */
  lemma RoundTrip(es: seq<Event>)
    ensures EventsOf(FlatMap(Render, es)) == es <==> forall i :: 0 <= i < |es| ==> Wellformed(es[i])
  {
    var text := FlatMap(Render, es);
    if forall i :: 0 <= i < |es| ==> Wellformed(es[i]) {
      ReadRendered(es);
    }
    LinesAreOneLine(text);
    EventsAreWellformed(Lines(text));
  }

  lemma {:induction false} RenderedBytes(es: seq<Event>)
    ensures FlatMap(RenderBytes, es) == Utf8.Encode(FlatMap(Render, es))
  {
    if es == [] {
    } else {
      var init, e := es[..|es| - 1], es[|es| - 1];
      RenderedBytes(init);
      FlatMapAppend(Utf8.EncodeChar, FlatMap(Render, init), Render(e));
    }
  }

  /** The bytes of rendered events are proper UTF-8, and reading them gives the events back if and only if each event
      is well formed. */
  lemma BytesRoundTrip(es: seq<Event>)
    ensures var d := Decoded(FlatMap(RenderBytes, es));
            && d.ok && d.pending == []
            && (EventsOf(d.text) == es <==> forall i :: 0 <= i < |es| ==> Wellformed(es[i]))
  {
    RenderedBytes(es);
    var text := FlatMap(Render, es);
    Utf8.FeedText(Utf8.START, text);
    assert "" + text == text;
    RoundTrip(es);
  }
}
