/** The agent's chat handler: one loop writes token frames while a backend callback writes event frames through the same
    mutex-guarded writer. */
module ChatHandler {
  import opened Common
  import opened Sse
  import Utf8
  import RW = ResponseWriter

  datatype BackendEvent = BackendEvent(kind: string, data: string)

  /** JSON bodies of the handler's own frames; the encoding is not modelled. */
  datatype Json = Json(token: (string, nat) -> string, done: nat -> string, error: string -> string)

  /** The wire name of a backend event; others are not passed on. */
  function WireKind(kind: string): Option<string> {
    match kind
    case "thinking" => Some("thinking")
    case "tool_use" => Some("tool-use")
    case "tool_input" => Some("tool-input")
    case "tool_result" => Some("tool-result")
    case "choice_request" => Some("choice-req")
    case _ => None
  }

  predicate OwnFrame(e: Event) {
    e.kind == "chat-tok" || e.kind == "chat-done" || e.kind == "chat-err"
  }

  /** Different kinds of backend events stay apart on the wire, and apart from the handler's own frames. */
  lemma KindsStayApart(a: string, b: string)
    ensures WireKind(a).Some? && WireKind(a) == WireKind(b) ==> a == b
    ensures WireKind(a).Some? ==> !OwnFrame(Event(WireKind(a).value, ""))
  {
  }

  function Relayed(e: BackendEvent): seq<Event> {
    match WireKind(e.kind)
    case None => []
    case Some(kind) => [Event(kind, e.data)]
  }

  /** Writing one event is one write and one flush. */
  function EventCalls(e: Event): seq<RW.Call> {
    [RW.Write(RenderBytes(e)), RW.Flush]
  }

  /** All calls of a handler that wrote these events and returned. */
  function SseCalls(es: seq<Event>): seq<RW.Call> {
    FlatMap(EventCalls, es) + [RW.Flush]
  }

  function TokenFrame(json: Json, token: string, index: nat): Event {
    Event("chat-tok", json.token(token, index))
  }

  function TokenFrames(json: Json, tokens: seq<string>): seq<Event> {
    seq(|tokens|, i requires 0 <= i < |tokens| => TokenFrame(json, tokens[i], i))
  }

  function FinalFrame(json: Json, count: nat, error: Option<string>): Event {
    if error.Some? then Event("chat-err", json.error(error.value)) else Event("chat-done", json.done(count))
  }

  /** The frames of a run: batch i of callback events comes before token i, the next batch before the final frame, and the
      last one after it. */
  function MergedTokens(json: Json, tokens: seq<string>, batches: seq<seq<BackendEvent>>, n: nat): seq<Event>
    requires n <= |tokens| && n <= |batches|
  {
    if n == 0 then []
    else
      MergedTokens(json, tokens, batches, n - 1) + FlatMap(Relayed, batches[n - 1])
      + [TokenFrame(json, tokens[n - 1], n - 1)]
  }

  function Merged(json: Json, tokens: seq<string>, error: Option<string>, batches: seq<seq<BackendEvent>>): seq<Event>
    requires |batches| == |tokens| + 2
  {
    MergedTokens(json, tokens, batches, |tokens|) + FlatMap(Relayed, batches[|tokens|])
    + [FinalFrame(json, |tokens|, error)] + FlatMap(Relayed, batches[|tokens| + 1])
  }

  lemma OneMoreEvent(s: RW.State, before: seq<Event>, e: Event)
    ensures Fold(RW.Apply, s, FlatMap(EventCalls, before + [e]))
         == Fold(RW.Apply, Fold(RW.Apply, s, FlatMap(EventCalls, before)), EventCalls(e))
  {
    FlatMapSnoc(EventCalls, before, e);
    FoldAppend(RW.Apply, s, FlatMap(EventCalls, before), EventCalls(e));
  }

  class SseWriter {
    const w: RW.RelayResponseWriter

    constructor (w: RW.RelayResponseWriter)
      ensures this.w == w
    {
      this.w := w;
    }

    /** The mutex makes this one step. */
    method WriteEvent(kind: string, data: string)
      modifies w
      ensures w.Now() == Fold(RW.Apply, old(w.Now()), EventCalls(Event(kind, data)))
    {
      var buf := EVENT_PREFIX + kind;
      buf := buf + "\ndata: ";
      buf := buf + data;
      buf := buf + "\n\n";
      assert buf == Render(Event(kind, data));
      ghost var s := w.Now();
      var _ := w.Write(Utf8.Encode(buf));
      w.Flush();
      FoldTwo(RW.Apply, s, RW.Write(RenderBytes(Event(kind, data))), RW.Flush);
    }

    method WriteRelayed(events: seq<BackendEvent>)
      modifies w
      ensures w.Now() == Fold(RW.Apply, old(w.Now()), FlatMap(EventCalls, FlatMap(Relayed, events)))
    {
      ghost var s := w.Now();
      for i := 0 to |events|
        invariant w.Now() == Fold(RW.Apply, s, FlatMap(EventCalls, FlatMap(Relayed, events[..i])))
      {
        assert events[..i + 1] == events[..i] + [events[i]];
        FlatMapSnoc(Relayed, events[..i], events[i]);
        ghost var frames := FlatMap(Relayed, events[..i]);
        var kind := WireKind(events[i].kind);
        if kind.Some? {
          WriteEvent(kind.value, events[i].data);
          OneMoreEvent(s, frames, Event(kind.value, events[i].data));
        } else {
          assert frames + [] == frames;
        }
      }
      assert events[..|events|] == events;
    }
  }

  lemma MoreEvents(s: RW.State, before: seq<Event>, after: seq<Event>)
    ensures Fold(RW.Apply, s, FlatMap(EventCalls, before + after))
         == Fold(RW.Apply, Fold(RW.Apply, s, FlatMap(EventCalls, before)), FlatMap(EventCalls, after))
  {
    FlatMapAppend(EventCalls, before, after);
    FoldAppend(RW.Apply, s, FlatMap(EventCalls, before), FlatMap(EventCalls, after));
  }

  /** The handler's streaming part. The callback may run whenever the loop waits for the next token. */
  method HandleChat(sse: SseWriter, json: Json, tokens: seq<string>, error: Option<string>,
                    batches: seq<seq<BackendEvent>>)
    requires |batches| == |tokens| + 2
    modifies sse.w
    ensures sse.w.Now() == Fold(RW.Apply, old(sse.w.Now()), SseCalls(Merged(json, tokens, error, batches)))
  {
    ghost var s := sse.w.Now();
    var index := 0;
    ghost var frames: seq<Event> := [];
    while index < |tokens|
      invariant index <= |tokens|
      invariant frames == MergedTokens(json, tokens, batches, index)
      invariant sse.w.Now() == Fold(RW.Apply, s, FlatMap(EventCalls, frames))
    {
      sse.WriteRelayed(batches[index]);
      MoreEvents(s, frames, FlatMap(Relayed, batches[index]));
      frames := frames + FlatMap(Relayed, batches[index]);
      sse.WriteEvent("chat-tok", json.token(tokens[index], index));
      OneMoreEvent(s, frames, TokenFrame(json, tokens[index], index));
      frames := frames + [TokenFrame(json, tokens[index], index)];
      index := index + 1;
    }
    sse.WriteRelayed(batches[index]);
    MoreEvents(s, frames, FlatMap(Relayed, batches[index]));
    frames := frames + FlatMap(Relayed, batches[index]);
    OneMoreEvent(s, frames, FinalFrame(json, index, error));
    if error.Some? {
      sse.WriteEvent("chat-err", json.error(error.value));
    } else {
      sse.WriteEvent("chat-done", json.done(index));
    }
    frames := frames + [FinalFrame(json, index, error)];
    sse.WriteRelayed(batches[index + 1]);
    MoreEvents(s, frames, FlatMap(Relayed, batches[index + 1]));
    frames := frames + FlatMap(Relayed, batches[index + 1]);
    sse.w.Flush();
    FoldSnoc(RW.Apply, s, FlatMap(EventCalls, frames), RW.Flush);
  }

  // ---- Neither writer disturbs the other ----

  function Own(e: Event): seq<Event> {
    if OwnFrame(e) then [e] else []
  }

  function Others(e: Event): seq<Event> {
    if OwnFrame(e) then [] else [e]
  }

  lemma FilterOne(e: Event)
    ensures FlatMap(Own, [e]) == Own(e) && FlatMap(Others, [e]) == Others(e)
  {
    FlatMapOne(Own, e);
    FlatMapOne(Others, e);
  }

  lemma RelayedIsOther(e: BackendEvent)
    ensures FlatMap(Own, Relayed(e)) == [] && FlatMap(Others, Relayed(e)) == Relayed(e)
  {
    if WireKind(e.kind).Some? {
      KindsStayApart(e.kind, e.kind);
      FilterOne(Event(WireKind(e.kind).value, e.data));
    }
  }

  function Nothing(e: BackendEvent): seq<Event> {
    []
  }

  lemma RelayedAreOthers(events: seq<BackendEvent>)
    ensures FlatMap(Own, FlatMap(Relayed, events)) == []
    ensures FlatMap(Others, FlatMap(Relayed, events)) == FlatMap(Relayed, events)
  {
    forall e ensures FlatMap(Own, Relayed(e)) == [] && FlatMap(Others, Relayed(e)) == Relayed(e) {
      RelayedIsOther(e);
    }
    FlatMapCompose(Relayed, Own, Nothing, events);
    FlatMapNothing(Nothing, events);
    FlatMapCompose(Relayed, Others, Relayed, events);
  }

  /** Adding one more batch of callback events. */
  lemma OneBatch(frames: seq<Event>, batch: seq<BackendEvent>)
    ensures FlatMap(Own, frames + FlatMap(Relayed, batch)) == FlatMap(Own, frames)
    ensures FlatMap(Others, frames + FlatMap(Relayed, batch)) == FlatMap(Others, frames) + FlatMap(Relayed, batch)
  {
    RelayedAreOthers(batch);
    FlatMapAppend(Own, frames, FlatMap(Relayed, batch));
    FlatMapAppend(Others, frames, FlatMap(Relayed, batch));
    assert FlatMap(Own, frames) + [] == FlatMap(Own, frames);
  }

  /** Adding a batch of callback events and then one own frame. */
  lemma OneRound(frames: seq<Event>, batch: seq<BackendEvent>, own: Event)
    requires OwnFrame(own)
    ensures var more := frames + FlatMap(Relayed, batch) + [own];
            && FlatMap(Own, more) == FlatMap(Own, frames) + [own]
            && FlatMap(Others, more) == FlatMap(Others, frames) + FlatMap(Relayed, batch)
  {
    OneBatch(frames, batch);
    FlatMapSnoc(Own, frames + FlatMap(Relayed, batch), own);
    FlatMapSnoc(Others, frames + FlatMap(Relayed, batch), own);
  }

  lemma TokenFramesSnoc(json: Json, tokens: seq<string>, n: nat)
    requires n < |tokens|
    ensures TokenFrames(json, tokens[..n + 1]) == TokenFrames(json, tokens[..n]) + [TokenFrame(json, tokens[n], n)]
  {
  }

  lemma {:induction false} OwnKeepOrder(json: Json, tokens: seq<string>, batches: seq<seq<BackendEvent>>, n: nat)
    requires n <= |tokens| && n <= |batches|
    ensures FlatMap(Own, MergedTokens(json, tokens, batches, n)) == TokenFrames(json, tokens[..n])
  {
    if n == 0 {
    } else {
      OwnKeepOrder(json, tokens, batches, n - 1);
      OneRound(MergedTokens(json, tokens, batches, n - 1), batches[n - 1], TokenFrame(json, tokens[n - 1], n - 1));
      TokenFramesSnoc(json, tokens, n - 1);
    }
  }

  /** One more round adds its batch to the frames of the callback. */
  lemma OthersRound(frames: seq<Event>, earlier: seq<seq<BackendEvent>>, batch: seq<BackendEvent>, own: Event)
    requires FlatMap(Others, frames) == FlatMap(Relayed, Flatten(earlier)) && OwnFrame(own)
    ensures FlatMap(Others, frames + FlatMap(Relayed, batch) + [own]) == FlatMap(Relayed, Flatten(earlier + [batch]))
  {
    OneRound(frames, batch, own);
    FlatMapFlattenSnoc(Relayed, earlier, batch);
  }

  lemma {:induction false} OthersKeepOrder(json: Json, tokens: seq<string>, batches: seq<seq<BackendEvent>>, n: nat)
    requires n <= |tokens| && n <= |batches|
    ensures FlatMap(Others, MergedTokens(json, tokens, batches, n)) == FlatMap(Relayed, Flatten(batches[..n]))
  {
    if n == 0 {
    } else {
      OthersKeepOrder(json, tokens, batches, n - 1);
      assert batches[..n] == batches[..n - 1] + [batches[n - 1]];
      OthersRound(MergedTokens(json, tokens, batches, n - 1), batches[..n - 1], batches[n - 1],
                  TokenFrame(json, tokens[n - 1], n - 1));
    }
  }

  /** The final frame and the two batches around it. */
  lemma LastOwn(frames: seq<Event>, before: seq<BackendEvent>, own: Event, after: seq<BackendEvent>, all: seq<Event>)
    requires OwnFrame(own) && all == frames + FlatMap(Relayed, before) + [own] + FlatMap(Relayed, after)
    ensures FlatMap(Own, all) == FlatMap(Own, frames) + [own]
  {
    OneRound(frames, before, own);
    OneBatch(frames + FlatMap(Relayed, before) + [own], after);
  }

  lemma OwnInterleaved(json: Json, tokens: seq<string>, error: Option<string>, batches: seq<seq<BackendEvent>>)
    requires |batches| == |tokens| + 2
    ensures FlatMap(Own, Merged(json, tokens, error, batches))
         == TokenFrames(json, tokens) + [FinalFrame(json, |tokens|, error)]
  {
    var n := |tokens|;
    OwnKeepOrder(json, tokens, batches, n);
    assert tokens[..n] == tokens;
    LastOwn(MergedTokens(json, tokens, batches, n), batches[n], FinalFrame(json, n, error), batches[n + 1],
            Merged(json, tokens, error, batches));
  }

  lemma LastOthers(frames: seq<Event>, before: seq<BackendEvent>, own: Event, after: seq<BackendEvent>, all: seq<Event>)
    requires OwnFrame(own) && all == frames + FlatMap(Relayed, before) + [own] + FlatMap(Relayed, after)
    ensures FlatMap(Others, all) == FlatMap(Others, frames) + FlatMap(Relayed, before) + FlatMap(Relayed, after)
  {
    OneRound(frames, before, own);
    OneBatch(frames + FlatMap(Relayed, before) + [own], after);
  }

  lemma OthersInterleaved(json: Json, tokens: seq<string>, error: Option<string>, batches: seq<seq<BackendEvent>>)
    requires |batches| == |tokens| + 2
    ensures FlatMap(Others, Merged(json, tokens, error, batches)) == FlatMap(Relayed, Flatten(batches))
  {
    var n := |tokens|;
    OthersKeepOrder(json, tokens, batches, n);
    FlatMapFlattenLastTwo(Relayed, batches, n);
    LastOthers(MergedTokens(json, tokens, batches, n), batches[n], FinalFrame(json, n, error), batches[n + 1],
               Merged(json, tokens, error, batches));
  }

  /** In every interleaving the handler's own frames are the tokens with indices 0, 1, ... in order, then exactly one final
      frame; and the remaining frames are the callback's events in the order they were emitted. */
  lemma Interleaving(json: Json, tokens: seq<string>, error: Option<string>, batches: seq<seq<BackendEvent>>)
    requires |batches| == |tokens| + 2
    ensures FlatMap(Own, Merged(json, tokens, error, batches))
         == TokenFrames(json, tokens) + [FinalFrame(json, |tokens|, error)]
    ensures FlatMap(Others, Merged(json, tokens, error, batches)) == FlatMap(Relayed, Flatten(batches))
  {
    OwnInterleaved(json, tokens, error, batches);
    OthersInterleaved(json, tokens, error, batches);
  }
}

/** What the phone's chat screen makes of the events, by their names on the wire. */
module ChatScreen {
  import opened Common
  import opened Sse
  import opened ChatHandler

  datatype Shown =
    | Token(text: string, index: nat)
    | Finished(count: nat)
    | Failed(message: string)
    | Thinking(body: string)
    | ToolStarted(body: string)
    | ToolInput(body: string)
    | ToolResult(body: string)
    | ChoiceAsked(body: string)

  /** How the phone decodes the JSON bodies of the handler's own frames. */
  datatype Decoder = Decoder(
    token: string -> Option<(string, nat)>, done: string -> Option<nat>, error: string -> Option<string>)

  ghost predicate Inverts(d: Decoder, json: Json) {
    && (forall t: string, i: nat :: d.token(json.token(t, i)) == Some((t, i)))
    && (forall n: nat :: d.done(json.done(n)) == Some(n))
    && (forall m: string :: d.error(json.error(m)) == Some(m))
  }

  function ShowChat(d: Decoder, e: Event): seq<Shown> {
    if e.kind == "chat-tok" then
      var b := d.token(e.data);
      if b.Some? then [Token(b.value.0, b.value.1)] else []
    else if e.kind == "chat-done" then
      var b := d.done(e.data);
      if b.Some? then [Finished(b.value)] else []
    else if e.kind == "chat-err" then
      var b := d.error(e.data);
      if b.Some? then [Failed(b.value)] else []
    else []
  }

  function ChatShower(d: Decoder): Event -> seq<Shown> {
    e => ShowChat(d, e)
  }

  function ShowBackend(e: Event): seq<Shown> {
    if e.kind == "thinking" then [Thinking(e.data)]
    else if e.kind == "tool-use" then [ToolStarted(e.data)]
    else if e.kind == "tool-input" then [ToolInput(e.data)]
    else if e.kind == "tool-result" then [ToolResult(e.data)]
    else if e.kind == "choice-req" then [ChoiceAsked(e.data)]
    else []
  }

  /** What the backend means by its events; the handler passes on no other kinds. */
  function Meant(e: BackendEvent): seq<Shown> {
    if e.kind == "thinking" then [Thinking(e.data)]
    else if e.kind == "tool_use" then [ToolStarted(e.data)]
    else if e.kind == "tool_input" then [ToolInput(e.data)]
    else if e.kind == "tool_result" then [ToolResult(e.data)]
    else if e.kind == "choice_request" then [ChoiceAsked(e.data)]
    else []
  }

  function Tokens(tokens: seq<string>): seq<Shown> {
    seq(|tokens|, i requires 0 <= i < |tokens| => Token(tokens[i], i))
  }

  /** A backend event is shown as what it was. */
  lemma ShownAsMeant(e: BackendEvent)
    ensures FlatMap(ShowBackend, Relayed(e)) == Meant(e)
  {
    if WireKind(e.kind).Some? {
      FlatMapOne(ShowBackend, Event(WireKind(e.kind).value, e.data));
    }
  }

  lemma ChatIsOwn(d: Decoder, e: Event)
    ensures FlatMap(ChatShower(d), Own(e)) == ChatShower(d)(e)
  {
    if OwnFrame(e) {
      FlatMapOne(ChatShower(d), e);
    }
  }

  lemma BackendIsOther(e: Event)
    ensures FlatMap(ShowBackend, Others(e)) == ShowBackend(e)
  {
    if !OwnFrame(e) {
      FlatMapOne(ShowBackend, e);
    }
  }

  lemma {:induction false} TokensShown(json: Json, d: Decoder, tokens: seq<string>, n: nat)
    requires n <= |tokens| && Inverts(d, json)
    ensures FlatMap(ChatShower(d), TokenFrames(json, tokens[..n])) == Tokens(tokens[..n])
  {
    if n == 0 {
    } else {
      TokensShown(json, d, tokens, n - 1);
      TokenFramesSnoc(json, tokens, n - 1);
      FlatMapSnoc(ChatShower(d), TokenFrames(json, tokens[..n - 1]), TokenFrame(json, tokens[n - 1], n - 1));
      assert Tokens(tokens[..n]) == Tokens(tokens[..n - 1]) + [Token(tokens[n - 1], n - 1)];
    }
  }

  /** The handler's own part of the screen: every token with its index, in order, then the end with the number of tokens, or
      the failure if there was one. */
  lemma OwnShown(json: Json, d: Decoder, tokens: seq<string>, error: Option<string>, batches: seq<seq<BackendEvent>>)
    requires |batches| == |tokens| + 2 && Inverts(d, json)
    ensures FlatMap(ChatShower(d), Merged(json, tokens, error, batches)) ==
            Tokens(tokens) + [if error.Some? then Failed(error.value) else Finished(|tokens|)]
  {
    var merged := Merged(json, tokens, error, batches);
    var last := FinalFrame(json, |tokens|, error);
    forall e ensures FlatMap(ChatShower(d), Own(e)) == ChatShower(d)(e) {
      ChatIsOwn(d, e);
    }
    FlatMapCompose(Own, ChatShower(d), ChatShower(d), merged);
    OwnInterleaved(json, tokens, error, batches);
    FlatMapSnoc(ChatShower(d), TokenFrames(json, tokens), last);
    TokensShown(json, d, tokens, |tokens|);
    assert tokens[..|tokens|] == tokens;
  }

  /** The callback's part: every event of the five kinds as what it was, in order, and nothing of any other kind. */
  lemma CallbackShown(json: Json, tokens: seq<string>, error: Option<string>, batches: seq<seq<BackendEvent>>)
    requires |batches| == |tokens| + 2
    ensures FlatMap(ShowBackend, Merged(json, tokens, error, batches)) == FlatMap(Meant, Flatten(batches))
  {
    forall e ensures FlatMap(ShowBackend, Others(e)) == ShowBackend(e) {
      BackendIsOther(e);
    }
    forall e ensures FlatMap(ShowBackend, Relayed(e)) == Meant(e) {
      ShownAsMeant(e);
    }
    FlatMapCompose(Others, ShowBackend, ShowBackend, Merged(json, tokens, error, batches));
    OthersInterleaved(json, tokens, error, batches);
    FlatMapCompose(Relayed, ShowBackend, Meant, Flatten(batches));
  }
}
