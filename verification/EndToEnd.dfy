/** From the agent's chat handler to the phone's parser, through any run of the relay. */
module EndToEnd {
  import opened Common
  import opened Wire
  import opened Sse
  import opened ChatHandler
  import opened RelayHandlers
  import Screen = ChatScreen
  import Base64
  import Utf8
  import RW = ResponseWriter
  import Hub
  import opened HubRuns
  import opened HubGuarantees

  // ---- What the bridge sends for a list of events ----

  function Chunk(e: Event): seq<Msg> {
    [ResChunk(Base64.Encode(RenderBytes(e)))]
  }

  /** One message opens the stream, then each event travels in a message of its own. */
  function Frames(es: seq<Event>): seq<Msg> {
    [ResStart(200)] + FlatMap(Chunk, es)
  }

  lemma RenderedIsNotEmpty(e: Event)
    ensures RenderBytes(e) != []
  {
    var text := Render(e);
    assert text == text[..|text| - 1] + [text[|text| - 1]];
    FlatMapSnoc(Utf8.EncodeChar, text[..|text| - 1], text[|text| - 1]);
    Utf8.CharIsClassified(text[|text| - 1]);
  }

  lemma FramesSnoc(es: seq<Event>, e: Event)
    ensures Frames(es + [e]) == Frames(es) + Chunk(e)
  {
    FlatMapSnoc(Chunk, es, e);
    AppendAppend([ResStart(200)], FlatMap(Chunk, es), Chunk(e));
  }

  lemma EventFlushed(s: RW.State, es: seq<Event>, e: Event)
    requires if es == [] then s == RW.FRESH else s == RW.State(200, [], true, true, Frames(es))
    ensures Fold(RW.Apply, s, EventCalls(e)) == RW.State(200, [], true, true, Frames(es + [e]))
  {
    var bytes := RenderBytes(e);
    RenderedIsNotEmpty(e);
    FramesSnoc(es, e);
    FoldTwo(RW.Apply, s, RW.Write(bytes), RW.Flush);
    assert [] + bytes == bytes;
    assert [] + [ResStart(200)] == Frames([]);
  }

  lemma OneMoreWritten(es: seq<Event>, e: Event)
    requires RW.AfterCalls(FlatMap(EventCalls, es)) ==
             if es == [] then RW.FRESH else RW.State(200, [], true, true, Frames(es))
    ensures RW.AfterCalls(FlatMap(EventCalls, es + [e])) == RW.State(200, [], true, true, Frames(es + [e]))
  {
    OneMoreEvent(RW.FRESH, es, e);
    EventFlushed(RW.AfterCalls(FlatMap(EventCalls, es)), es, e);
  }

  lemma {:induction false} StateAfterEvents(es: seq<Event>)
    ensures RW.AfterCalls(FlatMap(EventCalls, es)) ==
            if es == [] then RW.FRESH else RW.State(200, [], true, true, Frames(es))
  {
    if es == [] {
    } else {
      var init, e := es[..|es| - 1], es[|es| - 1];
      StateAfterEvents(init);
      OneMoreWritten(init, e);
      assert es == init + [e];
    }
  }

  lemma StateAfterCalls(es: seq<Event>)
    ensures RW.AfterCalls(SseCalls(es)) == RW.State(if es == [] then 0 else 200, [], true, true, Frames(es))
  {
    StateAfterEvents(es);
    FoldSnoc(RW.Apply, RW.FRESH, FlatMap(EventCalls, es), RW.Flush);
    assert [] + [ResStart(200)] == Frames([]);
  }

  /** The whole output of a chat handler that wrote these events. */
  lemma OutputOfEvents(es: seq<Event>)
    ensures RW.Output(SseCalls(es)) == Frames(es) + [ResEnd]
  {
    StateAfterCalls(es);
  }

  lemma {:induction false} PayloadOfFrames(es: seq<Event>)
    ensures Payload(Frames(es)) == FlatMap(RenderBytes, es)
  {
    if es == [] {
      FlatMapSnoc(PayloadOf, [], ResStart(200));
      assert [] + [ResStart(200)] == Frames([]);
    } else {
      var init, e := es[..|es| - 1], es[|es| - 1];
      PayloadOfFrames(init);
      assert init + [e] == es;
      FramesSnoc(init, e);
      FlatMapSnoc(PayloadOf, Frames(init), ResChunk(Base64.Encode(RenderBytes(e))));
      Base64.DecodeEncode(RenderBytes(e));
    }
  }

  // ---- Selections of such messages ----

  lemma LastFrameSelected(got: seq<Msg>, init: seq<Event>, e: Event)
    requires Subsequence(got, Frames(init + [e])) && !Subsequence(got, Frames(init))
    requires got != [] && got[0] == ResStart(200)
    ensures |got| >= 2 && got[|got| - 1] == Chunk(e)[0] && Subsequence(got[..|got| - 1], Frames(init))
  {
    FramesSnoc(init, e);
    assert Frames(init + [e])[..|Frames(init)|] == Frames(init);
  }

  lemma OnlyOpening(got: seq<Msg>)
    requires Subsequence(got, Frames([])) && got != []
    ensures got == Frames([])
  {
    SubsequenceOfOne(got, ResStart(200));
    assert Frames([]) == [ResStart(200)];
  }

  lemma OneMoreFrame(got: seq<Msg>, some: seq<Event>, e: Event)
    requires got != [] && got[..|got| - 1] == Frames(some) && got[|got| - 1] == Chunk(e)[0]
    ensures got == Frames(some + [e])
  {
    FramesSnoc(some, e);
    assert got == got[..|got| - 1] + [got[|got| - 1]];
  }

  /** Deleting messages, but not the opening one, is deleting whole events. */
  lemma {:induction false} SelectedFrames(got: seq<Msg>, es: seq<Event>) returns (kept: seq<Event>)
    requires Subsequence(got, Frames(es)) && got != [] && got[0] == ResStart(200)
    ensures Subsequence(kept, es) && got == Frames(kept)
    decreases |es|
  {
    if es == [] {
      OnlyOpening(got);
      return [];
    }
    var init, e := es[..|es| - 1], es[|es| - 1];
    assert init + [e] == es;
    if Subsequence(got, Frames(init)) {
      kept := SelectedFrames(got, init);
      SubsequenceSkip(kept, init, e);
    } else {
      LastFrameSelected(got, init, e);
      var some := SelectedFrames(got[..|got| - 1], init);
      OneMoreFrame(got, some, e);
      SubsequenceKeep(some, init, e);
      kept := some + [e];
    }
  }

  lemma FramesAppend(es: seq<Event>, late: seq<Event>)
    ensures Frames(es + late) == Frames(es) + FlatMap(Chunk, late)
  {
    FlatMapAppend(Chunk, es, late);
  }

  /** The opening, all events, the end, and the events behind it. */
  function AllFrames(es: seq<Event>, late: seq<Event>): seq<Msg> {
    Frames(es) + [ResEnd] + FlatMap(Chunk, late)
  }

  /** A selection that did not pick the closing message is one of the opening and all events. */
  lemma SelectedWithoutEnd(got: seq<Msg>, es: seq<Event>, late: seq<Event>) returns (kept: seq<Event>)
    requires Subsequence(got, AllFrames(es, late)) && ResEnd !in got && got != [] && got[0] == ResStart(200)
    ensures Subsequence(kept, es + late) && got == Frames(kept)
  {
    assert Subsequence(got, Frames(es + late)) by {
      FramesAppend(es, late);
      SubsequenceWithout(got, Frames(es), ResEnd, FlatMap(Chunk, late));
    }
    kept := SelectedFrames(got, es + late);
  }

  /** The closing message can only be the last. */
  lemma SplitEnd(got: seq<Msg>, all: seq<Msg>) returns (front: seq<Msg>)
    requires Subsequence(got, all) && got != [] && got[0] == ResStart(200)
    requires forall i :: 0 <= i < |got| - 1 ==> !Terminal(got[i])
    ensures Subsequence(front, all) && ResEnd !in front && front != [] && front[0] == ResStart(200)
    ensures got == front || got == front + [ResEnd]
  {
    front := got;
    if got[|got| - 1] == ResEnd {
      SubsequenceInit(got, all);
      front := got[..|got| - 1];
    }
  }

  /** The same when the closing message may have arrived too. */
  lemma SelectedOutput(got: seq<Msg>, es: seq<Event>, late: seq<Event>) returns (kept: seq<Event>)
    requires Subsequence(got, AllFrames(es, late)) && got != [] && got[0] == ResStart(200)
    requires forall i :: 0 <= i < |got| - 1 ==> !Terminal(got[i])
    ensures Subsequence(kept, es + late) && (got == Frames(kept) || got == Frames(kept) + [ResEnd])
  {
    var front := SplitEnd(got, AllFrames(es, late));
    kept := SelectedWithoutEnd(front, es, late);
  }

  /** No step of waiting adds bytes: only messages do. */
  lemma {:induction false} QuietEnd(errorText: ErrorText, before: seq<Signal>, rest: seq<Signal>)
    requires forall i :: 0 <= i < |rest| ==> !rest[i].Received?
    ensures Streamed(errorText, before + rest).body == Streamed(errorText, before).body
  {
    if rest == [] {
      assert before + rest == before;
    } else {
      var init, x := rest[..|rest| - 1], rest[|rest| - 1];
      QuietEnd(errorText, before, init);
      assert before + rest == (before + init) + [x];
      FoldSnoc(Stepper(errorText), NOTHING, before + init, x);
    }
  }

  lemma BytesOfChunks(es: seq<Event>)
    ensures Payload(FlatMap(Chunk, es)) == FlatMap(RenderBytes, es)
  {
    calc {
      FlatMap(RenderBytes, es);
      { PayloadOfFrames(es); }
      Payload([ResStart(200)] + FlatMap(Chunk, es));
      { FlatMapAppend(PayloadOf, [ResStart(200)], FlatMap(Chunk, es)); }
      Payload([ResStart(200)]) + Payload(FlatMap(Chunk, es));
      { PayloadOfWhole(ResStart(200)); }
      [] + Payload(FlatMap(Chunk, es));
      Payload(FlatMap(Chunk, es));
    }
  }

  lemma ReplyOfOpening(errorText: ErrorText, signals: seq<Signal>)
    ensures ChatReply(errorText, [Received(ResStart(200))] + signals).reply
         == Streaming(200, Streamed(errorText, signals).body)
  {
    assert ([Received(ResStart(200))] + signals)[1..] == signals;
  }

  lemma {:induction false} ChunksOnly(es: seq<Event>)
    ensures forall i :: 0 <= i < |FlatMap(Chunk, es)| ==> FlatMap(Chunk, es)[i].ResChunk?
  {
    if es == [] {
    } else {
      ChunksOnly(es[..|es| - 1]);
    }
  }

  lemma ReplyOfOpenStream(errorText: ErrorText, es: seq<Event>, rest: seq<Signal>)
    requires forall i :: 0 <= i < |rest| ==> !rest[i].Received?
    ensures ChatReply(errorText, Signals(Frames(es)) + rest).reply == Streaming(200, FlatMap(RenderBytes, es))
  {
    var chunks := FlatMap(Chunk, es);
    ChunksOnly(es);
    BytesOfChunks(es);
    assert Signals(Frames(es)) + rest == [Received(ResStart(200))] + (Signals(chunks) + rest);
    ReplyOfOpening(errorText, Signals(chunks) + rest);
    PiecesAreWritten(errorText, chunks);
    QuietEnd(errorText, Signals(chunks), rest);
  }

  lemma ReplyOfEndedStream(errorText: ErrorText, es: seq<Event>, rest: seq<Signal>)
    ensures ChatReply(errorText, Signals(Frames(es) + [ResEnd]) + rest).reply == Streaming(200, FlatMap(RenderBytes, es))
  {
    var chunks := FlatMap(Chunk, es);
    ChunksOnly(es);
    BytesOfChunks(es);
    var tail := Signals(chunks) + [Received(ResEnd)] + rest;
    assert Signals(Frames(es) + [ResEnd]) + rest == [Received(ResStart(200))] + tail;
    ReplyOfOpening(errorText, tail);
    StreamOfPieces(errorText, chunks, rest);
  }

  /** The reply built from a selection of the messages is the bytes of the selected events. */
  lemma ReplyOfFrames(errorText: ErrorText, es: seq<Event>, got: seq<Msg>, rest: seq<Signal>)
    requires got == Frames(es) || got == Frames(es) + [ResEnd]
    requires forall i :: 0 <= i < |rest| ==> !rest[i].Received?
    ensures ChatReply(errorText, Signals(got) + rest).reply == Streaming(200, FlatMap(RenderBytes, es))
  {
    if got == Frames(es) {
      ReplyOfOpenStream(errorText, es, rest);
    } else {
      ReplyOfEndedStream(errorText, es, rest);
    }
  }

  // ---- Failures inside a stream ----

  ghost predicate AllWellformed(es: seq<Event>) {
    forall i :: 0 <= i < |es| ==> Wellformed(es[i])
  }

  /** What the phone's parser returns for a byte stream in pieces, by ParseStream's contract. */
  ghost predicate Parses(pieces: seq<seq<byte>>, es: seq<Event>) {
    var d := Decoded(Flatten(pieces));
    d.ok && d.pending == [] && EventsOf(d.text) == es
  }

  lemma StreamWithError(errorText: ErrorText, ms: seq<Msg>, code: int, message: string, rest: seq<Signal>)
    requires forall i :: 0 <= i < |ms| ==> ms[i].ResChunk?
    ensures Streamed(errorText, Signals(ms) + [Received(Err(code, message))] + rest).body
         == Payload(ms) + RenderBytes(Event("chat-err", errorText(code, message)))
  {
    PiecesAreWritten(errorText, ms);
    FoldSnoc(Stepper(errorText), NOTHING, Signals(ms), Received(Err(code, message)));
    NothingAfterTheEnd(errorText, Signals(ms) + [Received(Err(code, message))], rest);
  }

  lemma ReplyWithError(errorText: ErrorText, es: seq<Event>, code: int, message: string, rest: seq<Signal>)
    ensures ChatReply(errorText, Signals(Frames(es) + [Err(code, message)]) + rest).reply
         == Streaming(200, FlatMap(RenderBytes, es + [Event("chat-err", errorText(code, message))]))
  {
    var chunks := FlatMap(Chunk, es);
    var tail := Signals(chunks) + [Received(Err(code, message))] + rest;
    ChunksOnly(es);
    BytesOfChunks(es);
    StreamWithError(errorText, chunks, code, message, rest);
    assert Signals(Frames(es) + [Err(code, message)]) + rest == [Received(ResStart(200))] + tail;
    ReplyOfOpening(errorText, tail);
    FlatMapSnoc(RenderBytes, es, Event("chat-err", errorText(code, message)));
  }

  /** An error message behind whole events closes the stream with one event more, which tells the phone. */
  lemma StreamErrorShown(errorText: ErrorText, es: seq<Event>, code: int, message: string, rest: seq<Signal>,
                         pieces: seq<seq<byte>>)
    requires AllWellformed(es + [Event("chat-err", errorText(code, message))])
    requires var reply := ChatReply(errorText, Signals(Frames(es) + [Err(code, message)]) + rest).reply;
             reply.Streaming? ==> Flatten(pieces) == reply.body
    ensures ChatReply(errorText, Signals(Frames(es) + [Err(code, message)]) + rest).reply.Streaming?
    ensures Parses(pieces, es + [Event("chat-err", errorText(code, message))])
  {
    ReplyWithError(errorText, es, code, message, rest);
    BytesRoundTrip(es + [Event("chat-err", errorText(code, message))]);
  }

  // ---- Through the hub ----

  lemma {:induction false} ThroughStays(ms: seq<Msg>, late: seq<Msg>)
    requires HasTerminal(ms)
    ensures Through(ms + late) == Through(ms) && HasTerminal(ms + late)
  {
    if late == [] {
      assert ms + late == ms;
    } else {
      var init, m := late[..|late| - 1], late[|late| - 1];
      ThroughStays(ms, init);
      ThroughSnoc(ms + init, m);
      assert ms + late == ms + init + [m];
    }
  }

  lemma ThroughOutput(ms: seq<Msg>, end: Msg, late: seq<Msg>)
    requires !HasTerminal(ms) && Terminal(end)
    ensures Through(ms + [end] + late) == ms + [end] && HasTerminal(ms + [end] + late)
  {
    ThroughSnoc(ms, end);
    ThroughStays(ms + [end], late);
  }

  lemma NoTerminalInFrames(es: seq<Event>)
    ensures !HasTerminal(Frames(es))
  {
    ChunksOnly(es);
    forall i | 0 <= i < |Frames(es)|
      ensures !Terminal(Frames(es)[i])
    {
      if i > 0 {
        assert Frames(es)[i] == FlatMap(Chunk, es)[i - 1];
      }
    }
  }

  /** End to end: in every run of the relay, a chat request whose agent sent a handler's whole output (late callback
      messages may follow), with no send meeting a full queue, and whose handler read everything, is answered with status
      200; and however the body is cut into pieces, the phone parses exactly the events the handler wrote. */
  lemma PhoneSeesEveryEvent(run: seq<Step>, rid: string, es: seq<Event>, late: seq<Msg>, errorText: ErrorText,
                            rest: seq<Signal>, pieces: seq<seq<byte>>)
    requires AllWellformed(es)
    requires forall i :: 0 <= i < |rest| ==> !rest[i].Received?
    requires rid in Run(START, run).requests
    requires var w := Run(START, run);
             var q := w.requests[rid];
             && q.sent == RW.Output(SseCalls(es)) + late && !q.dropped && q.exit == Some(Finished)
             && (q.chan in w.hub.channels ==> w.hub.channels[q.chan].queue == [])
    requires ChatReply(errorText, Signals(Run(START, run).requests[rid].got) + rest).reply.Streaming? ==>
               Flatten(pieces) == ChatReply(errorText, Signals(Run(START, run).requests[rid].got) + rest).reply.body
    ensures ChatReply(errorText, Signals(Run(START, run).requests[rid].got) + rest).reply ==
            Streaming(200, FlatMap(RenderBytes, es))
    ensures Parses(pieces, es)
  {
    Delivery(run, rid);
    var got := Run(START, run).requests[rid].got;
    OutputOfEvents(es);
    NoTerminalInFrames(es);
    ThroughOutput(Frames(es), ResEnd, late);
    assert got == Frames(es) + [ResEnd];
    ReplyOfFrames(errorText, es, got, rest);
    BytesRoundTrip(es);
  }

  /** All a writer sends for these events, then the end, then events that the callback still emits behind it. */
  function SentWithLate(es: seq<Event>, late: seq<Event>): seq<Msg> {
    Fold(RW.Apply, RW.Finalize(RW.AfterCalls(SseCalls(es))), FlatMap(EventCalls, late)).sent
  }

  lemma LateEventFlushed(s: RW.State, e: Event)
    requires s.headerSent && s.body == []
    ensures var s' := Fold(RW.Apply, s, EventCalls(e)); s'.headerSent && s'.body == [] && s'.sent == s.sent + Chunk(e)
  {
    RenderedIsNotEmpty(e);
    FoldTwo(RW.Apply, s, RW.Write(RenderBytes(e)), RW.Flush);
    assert [] + RenderBytes(e) == RenderBytes(e);
  }

  lemma OneMoreLate(s: RW.State, m: RW.State, late: seq<Event>, e: Event)
    requires m.headerSent && m.body == [] && m.sent == s.sent + FlatMap(Chunk, late)
    ensures var s' := Fold(RW.Apply, m, EventCalls(e));
            s'.headerSent && s'.body == [] && s'.sent == s.sent + FlatMap(Chunk, late + [e])
  {
    LateEventFlushed(m, e);
    FlatMapSnoc(Chunk, late, e);
  }

  lemma {:induction false} LateEventsFlushed(s: RW.State, late: seq<Event>)
    requires s.headerSent && s.body == []
    ensures var s' := Fold(RW.Apply, s, FlatMap(EventCalls, late));
            s'.headerSent && s'.body == [] && s'.sent == s.sent + FlatMap(Chunk, late)
  {
    if late == [] {
      assert s.sent + [] == s.sent;
    } else {
      var init, e := late[..|late| - 1], late[|late| - 1];
      LateEventsFlushed(s, init);
      assert late == init + [e];
      OneMoreEvent(s, init, e);
      OneMoreLate(s, Fold(RW.Apply, s, FlatMap(EventCalls, init)), init, e);
    }
  }

  lemma SentIsFrames(es: seq<Event>, late: seq<Event>)
    ensures SentWithLate(es, late) == AllFrames(es, late)
  {
    StateAfterCalls(es);
    LateEventsFlushed(RW.Finalize(RW.AfterCalls(SseCalls(es))), late);
  }

  lemma SelectionIsWellformed(kept: seq<Event>, es: seq<Event>)
    requires Subsequence(kept, es) && AllWellformed(es)
    ensures AllWellformed(kept)
  {
    SubsequenceMembers(kept, es);
    forall i | 0 <= i < |kept|
      ensures Wellformed(kept[i])
    {
      assert kept[i] in es;
    }
  }

  lemma {:induction false} ThroughIsPrefix(ms: seq<Msg>)
    ensures Through(ms) <= ms
  {
    if ms == [] {
    } else {
      ThroughIsPrefix(ms[..|ms| - 1]);
    }
  }

  /** What the handler reads is a selection of what the agent's writer sent, whatever was lost on the way. */
  lemma ReadIsSelection(run: seq<Step>, rid: string, all: seq<Msg>)
    requires rid in Run(START, run).requests && Subsequence(Run(START, run).requests[rid].sent, all)
    ensures Subsequence(Run(START, run).requests[rid].got, all)
    ensures var got := Run(START, run).requests[rid].got; forall i :: 0 <= i < |got| - 1 ==> !Terminal(got[i])
  {
    Delivery(run, rid);
    var q := Run(START, run).requests[rid];
    ThroughIsPrefix(q.sent);
    SubsequenceExtend(q.got, Through(q.sent), q.sent);
    SubsequenceTransitive(q.got, q.sent, all);
  }

  /** The opening message is lost, or nothing came at all: the phone gets an error status, or nothing. */
  lemma NoOpening(errorText: ErrorText, got: seq<Msg>, rest: seq<Signal>)
    requires got == [] || got[0].ResChunk? || got[0].ResEnd?
    requires forall i :: 0 <= i < |rest| ==> !rest[i].Received?
    ensures ChatReply(errorText, Signals(got) + rest).reply in {Failure(502), Failure(504), NoReply}
    ensures got != [] ==> ChatReply(errorText, Signals(got) + rest).reply == Failure(502)
  {
    if got == [] {
      assert Signals(got) + rest == rest;
    } else {
      assert (Signals(got) + rest)[0] == Received(got[0]);
    }
  }

  lemma OnlyPieces(es: seq<Event>, late: seq<Event>)
    ensures forall m <- AllFrames(es, late) :: m == ResStart(200) || m.ResChunk? || m.ResEnd?
  {
    ChunksOnly(es);
    ChunksOnly(late);
    assert forall m <- FlatMap(Chunk, es) :: m.ResChunk?;
    assert forall m <- FlatMap(Chunk, late) :: m.ResChunk?;
  }

  /** Whatever is lost: messages written to a dead connection before the agent reconnected, messages dropped at a full
      queue, a timeout, a disconnect. The phone gets a failure, or a stream whose parsed events are an in-order selection
      of whole events that the agent wrote: never a damaged or an invented one. It is a stream exactly when the opening
      message was the first to arrive. */
  lemma PhoneSeesOnlyRealEvents(run: seq<Step>, rid: string, es: seq<Event>, late: seq<Event>, errorText: ErrorText,
                                rest: seq<Signal>, pieces: seq<seq<byte>>)
      returns (kept: seq<Event>)
    requires AllWellformed(es + late)
    requires forall i :: 0 <= i < |rest| ==> !rest[i].Received?
    requires rid in Run(START, run).requests
    requires Subsequence(Run(START, run).requests[rid].sent, SentWithLate(es, late))
    requires ChatReply(errorText, Signals(Run(START, run).requests[rid].got) + rest).reply.Streaming? ==>
               Flatten(pieces) == ChatReply(errorText, Signals(Run(START, run).requests[rid].got) + rest).reply.body
    ensures var got := Run(START, run).requests[rid].got;
            var reply := ChatReply(errorText, Signals(got) + rest).reply;
            && (reply.Streaming? <==> got != [] && got[0] == ResStart(200))
            && (reply.Streaming? ==> reply.status == 200 && Subsequence(kept, es + late) && Parses(pieces, kept))
            && (!reply.Streaming? ==> reply in {Failure(502), Failure(504), NoReply})
            && (!reply.Streaming? && got != [] ==> reply == Failure(502))
  {
    var got := Run(START, run).requests[rid].got;
    SentIsFrames(es, late);
    ReadIsSelection(run, rid, SentWithLate(es, late));
    if got != [] && got[0] == ResStart(200) {
      kept := SelectedOutput(got, es, late);
      ReplyOfFrames(errorText, kept, got, rest);
      SelectionIsWellformed(kept, es + late);
      BytesRoundTrip(kept);
    } else {
      kept := [];
      OnlyPieces(es, late);
      SubsequenceMembers(got, AllFrames(es, late));
      NoOpening(errorText, got, rest);
    }
  }

  /** The two writers of the chat handler, end to end: when nothing is dropped the phone separates the frames by type into
      the token stream with indices 0, 1, ... and its final frame, and the callback's events, both complete and in order. */
  lemma PhoneSeesBothWriters(run: seq<Step>, rid: string, json: Json, tokens: seq<string>, error: Option<string>,
                             batches: seq<seq<BackendEvent>>, late: seq<Msg>, errorText: ErrorText,
                             pieces: seq<seq<byte>>)
    requires |batches| == |tokens| + 2
    requires AllWellformed(Merged(json, tokens, error, batches))
    requires rid in Run(START, run).requests
    requires var w := Run(START, run);
             var q := w.requests[rid];
             && q.sent == RW.Output(SseCalls(Merged(json, tokens, error, batches))) + late
             && !q.dropped && q.exit == Some(Finished)
             && (q.chan in w.hub.channels ==> w.hub.channels[q.chan].queue == [])
    requires ChatReply(errorText, Signals(Run(START, run).requests[rid].got)).reply.Streaming? ==>
               Flatten(pieces) == ChatReply(errorText, Signals(Run(START, run).requests[rid].got)).reply.body
    ensures var d := Decoded(Flatten(pieces));
            && d.ok && d.pending == []
            && FlatMap(Own, EventsOf(d.text)) == TokenFrames(json, tokens) + [FinalFrame(json, |tokens|, error)]
            && FlatMap(Others, EventsOf(d.text)) == FlatMap(Relayed, Flatten(batches))
  {
    var signals := Signals(Run(START, run).requests[rid].got);
    assert signals + [] == signals;
    PhoneSeesEveryEvent(run, rid, Merged(json, tokens, error, batches), late, errorText, [], pieces);
    Interleaving(json, tokens, error, batches);
  }

  /** And on the phone's screen, when nothing is dropped: every token with its index and the right end, and every backend
      event as what it was, both complete and in order. */
  lemma PhoneShowsBothWriters(run: seq<Step>, rid: string, json: Json, d: Screen.Decoder, tokens: seq<string>,
                              error: Option<string>, batches: seq<seq<BackendEvent>>, late: seq<Msg>,
                              errorText: ErrorText, pieces: seq<seq<byte>>)
    requires |batches| == |tokens| + 2 && Screen.Inverts(d, json)
    requires AllWellformed(Merged(json, tokens, error, batches))
    requires rid in Run(START, run).requests
    requires var w := Run(START, run);
             var q := w.requests[rid];
             && q.sent == RW.Output(SseCalls(Merged(json, tokens, error, batches))) + late
             && !q.dropped && q.exit == Some(Finished)
             && (q.chan in w.hub.channels ==> w.hub.channels[q.chan].queue == [])
    requires ChatReply(errorText, Signals(Run(START, run).requests[rid].got)).reply.Streaming? ==>
               Flatten(pieces) == ChatReply(errorText, Signals(Run(START, run).requests[rid].got)).reply.body
    ensures var events := EventsOf(Decoded(Flatten(pieces)).text);
            && FlatMap(Screen.ChatShower(d), events) ==
               Screen.Tokens(tokens) + [if error.Some? then Screen.Failed(error.value) else Screen.Finished(|tokens|)]
            && FlatMap(Screen.ShowBackend, events) == FlatMap(Screen.Meant, Flatten(batches))
  {
    var signals := Signals(Run(START, run).requests[rid].got);
    assert signals + [] == signals;
    PhoneSeesEveryEvent(run, rid, Merged(json, tokens, error, batches), late, errorText, [], pieces);
    Screen.OwnShown(json, d, tokens, error, batches);
    Screen.CallbackShown(json, tokens, error, batches);
  }
}
