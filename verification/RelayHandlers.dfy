/** The relay's waiting handlers: what a phone gets for the messages that reach its request's channel. */
module RelayHandlers {
  import opened Common
  import opened Wire
  import Base64
  import Sse
  import RW = ResponseWriter

  /** What the handler's select can see. */
  datatype Signal = Received(m: Msg) | Closed | TimedOut | PhoneGone

  datatype Reply =
    | Whole(status: int, body: seq<byte>)
    | Streaming(status: int, body: seq<byte>)
    | Failure(code: int)
    | NoReply

  /** `cancel`: a cancel message goes to the agent; `forget`: the request is taken out of the pending map. */
  datatype Handled = Handled(reply: Reply, cancel: bool, forget: bool)

  /** Text of an error body; JSON encoding itself is not modelled. */
  type ErrorText = (int, string) -> string

  function ErrorEvent(errorText: ErrorText, code: int, message: string): seq<byte> {
    Sse.RenderBytes(Sse.Event("chat-err", errorText(code, message)))
  }

  // ---- Specification ----

  datatype StreamState = StreamState(body: seq<byte>, over: bool, cancel: bool)

  const NOTHING := StreamState([], false, false)

  function StreamStep(errorText: ErrorText, s: StreamState, signal: Signal): StreamState {
    if s.over then s
    else
      match signal
      case Received(ResChunk(data)) => s.(body := s.body + Base64.Decode(data).GetOr([]))
      case Received(ResEnd) => s.(over := true)
      case Received(Err(code, message)) => s.(body := s.body + ErrorEvent(errorText, code, message), over := true)
      case Received(_) => s
      case Closed => s.(over := true)
      case TimedOut => s.(over := true, cancel := true)
      case PhoneGone => s.(over := true, cancel := true)
  }

  function Stepper(errorText: ErrorText): (StreamState, Signal) -> StreamState {
    (s, signal) => StreamStep(errorText, s, signal)
  }

  function Streamed(errorText: ErrorText, signals: seq<Signal>): StreamState {
    Fold(Stepper(errorText), NOTHING, signals)
  }

  /** A plain reply made of one message, whatever its type. */
  function WholeReply(m: Msg): Reply {
    match m
    case Res(status, body) => Whole(RW.EffectiveStatus(status), Base64.Decode(body).GetOr([]))
    case ResStart(status) => Whole(RW.EffectiveStatus(status), [])
    case Err(code, _) => Whole(RW.EffectiveStatus(code), [])
    case _ => Whole(200, [])
  }

  /** The chat endpoint's answer to everything its select saw, in order; nothing seen yet means no reply yet. */
  function ChatReply(errorText: ErrorText, signals: seq<Signal>): Handled {
    if signals == [] then Handled(NoReply, false, false)
    else
      match signals[0]
      case Closed => Handled(Failure(502), false, false)
      case TimedOut => Handled(Failure(504), false, true)
      case PhoneGone => Handled(NoReply, true, false)
      case Received(m) =>
        match m
        case Res(_, _) => Handled(WholeReply(m), false, false)
        case ResStart(status) =>
          var s := Streamed(errorText, signals[1..]);
          Handled(Streaming(status, s.body), s.cancel, false)
        case Err(code, _) => Handled(Failure(code), false, false)
        case _ => Handled(Failure(502), false, false)
  }

  /** The answer of the endpoints that wait for one message: pairing, choices, agents and sessions. */
  function PlainReply(signals: seq<Signal>): Handled {
    if signals == [] then Handled(NoReply, false, false)
    else
      match signals[0]
      case Closed => Handled(Failure(502), false, false)
      case TimedOut => Handled(Failure(504), false, true)
      case PhoneGone => Handled(NoReply, true, false)
      case Received(m) => Handled(WholeReply(m), false, false)
  }

  // ---- The handlers ----

  method WriteNonStreamingResponse(m: Msg) returns (reply: Reply)
    ensures reply == WholeReply(m)
  {
    var status := match m case Res(s, _) => s case ResStart(s) => s case Err(c, _) => c case _ => 0;
    if status == 0 {
      status := 200;
    }
    var body: seq<byte> := [];
    if m.Res? && m.body != "" {
      var decoded := Base64.Decode(m.body);
      if decoded.Some? {
        body := decoded.value;
      }
    }
    reply := Whole(status, body);
  }

  lemma {:induction false} NothingAfterTheEnd(errorText: ErrorText, before: seq<Signal>, after: seq<Signal>)
    requires Streamed(errorText, before).over
    ensures Streamed(errorText, before + after) == Streamed(errorText, before)
  {
    if after == [] {
      assert before + after == before;
    } else {
      var init, x := after[..|after| - 1], after[|after| - 1];
      NothingAfterTheEnd(errorText, before, init);
      assert before + after == (before + init) + [x];
      FoldSnoc(Stepper(errorText), NOTHING, before + init, x);
    }
  }

  method StreamSSE(errorText: ErrorText, status: int, signals: seq<Signal>) returns (reply: Reply, cancel: bool)
    ensures reply == Streaming(status, Streamed(errorText, signals).body)
    ensures cancel == Streamed(errorText, signals).cancel
  {
    var body: seq<byte> := [];
    var over := false;
    cancel := false;
    var i := 0;
    while i < |signals| && !over
      invariant 0 <= i <= |signals|
      invariant StreamState(body, over, cancel) == Streamed(errorText, signals[..i])
    {
      FoldSnoc(Stepper(errorText), NOTHING, signals[..i], signals[i]);
      assert signals[..i + 1] == signals[..i] + [signals[i]];
      match signals[i] {
        case Received(ResChunk(data)) =>
          if data != "" {
            var decoded := Base64.Decode(data);
            if decoded.Some? {
              body := body + decoded.value;
            }
          }
        case Received(ResEnd) => over := true;
        case Received(Err(code, message)) =>
          body := body + ErrorEvent(errorText, code, message);
          over := true;
        case Received(_) =>
        case Closed => over := true;
        case TimedOut => cancel, over := true, true;
        case PhoneGone => cancel, over := true, true;
      }
      i := i + 1;
    }
    if over {
      NothingAfterTheEnd(errorText, signals[..i], signals[i..]);
      assert signals[..i] + signals[i..] == signals;
    } else {
      assert signals[..i] == signals;
    }
    reply := Streaming(status, body);
  }

  method HandleChat(errorText: ErrorText, signals: seq<Signal>) returns (h: Handled)
    ensures h == ChatReply(errorText, signals)
    ensures signals != [] ==>
              match signals[0]
              case Closed => h == Handled(Failure(502), false, false)
              case TimedOut => h == Handled(Failure(504), false, true)
              case PhoneGone => h == Handled(NoReply, true, false)
              case Received(Err(code, _)) => h == Handled(Failure(code), false, false)
              case Received(ResChunk(_)) => h == Handled(Failure(502), false, false)
              case Received(ResEnd) => h == Handled(Failure(502), false, false)
              case Received(Res(_, _)) => h.reply.Whole? && !h.cancel && !h.forget
              case Received(ResStart(status)) => h.reply.Streaming? && h.reply.status == status && !h.forget
  {
    if signals == [] {
      return Handled(NoReply, false, false);
    }
    match signals[0] {
      case Closed => h := Handled(Failure(502), false, false);
      case TimedOut => h := Handled(Failure(504), false, true);
      case PhoneGone => h := Handled(NoReply, true, false);
      case Received(m) =>
        match m {
          case Res(_, _) =>
            var reply := WriteNonStreamingResponse(m);
            h := Handled(reply, false, false);
          case ResStart(status) =>
            var reply, cancel := StreamSSE(errorText, status, signals[1..]);
            h := Handled(reply, cancel, false);
          case Err(code, _) => h := Handled(Failure(code), false, false);
          case _ => h := Handled(Failure(502), false, false);
        }
    }
  }

  /** Only a timeout takes the request out of the pending map, and only a phone that leaves first cancels it. */
  method HandlePlain(signals: seq<Signal>) returns (h: Handled)
    ensures h == PlainReply(signals)
    ensures signals != [] ==>
              match signals[0]
              case Closed => h.reply == Failure(502)
              case TimedOut => h.reply == Failure(504)
              case PhoneGone => h.reply == NoReply
              case Received(Err(code, _)) => h.reply == Whole(if code == 0 then 200 else code, [])
              case Received(_) => h.reply.Whole?
    ensures h.forget <==> signals != [] && signals[0].TimedOut?
    ensures h.cancel <==> signals != [] && signals[0].PhoneGone?
    ensures h.reply.NoReply? <==> signals == [] || signals[0].PhoneGone?
  {
    if signals == [] {
      return Handled(NoReply, false, false);
    }
    match signals[0] {
      case Closed => h := Handled(Failure(502), false, false);
      case TimedOut => h := Handled(Failure(504), false, true);
      case PhoneGone => h := Handled(NoReply, true, false);
      case Received(m) =>
        var reply := WriteNonStreamingResponse(m);
        h := Handled(reply, false, false);
    }
  }

  // ---- Properties ----

  function Signals(ms: seq<Msg>): seq<Signal> {
    seq(|ms|, i requires 0 <= i < |ms| => Received(ms[i]))
  }

  /** A streamed response is over after this. */
  predicate Ends(signal: Signal) {
    !signal.Received? || signal.m.ResEnd? || signal.m.Err?
  }

  predicate Abandons(signal: Signal) {
    signal.TimedOut? || signal.PhoneGone?
  }

  /** Signal k is the first that ends the stream. */
  ghost predicate FirstEnd(signals: seq<Signal>, k: nat)
    requires k < |signals|
  {
    Ends(signals[k]) && forall j :: 0 <= j < k ==> !Ends(signals[j])
  }

  lemma {:induction false} StreamCancelled(errorText: ErrorText, signals: seq<Signal>)
    ensures Streamed(errorText, signals).over <==> exists k :: 0 <= k < |signals| && Ends(signals[k])
    ensures Streamed(errorText, signals).cancel <==>
            exists k :: 0 <= k < |signals| && FirstEnd(signals, k) && Abandons(signals[k])
  {
    if signals == [] {
    } else {
      var init, last := signals[..|signals| - 1], signals[|signals| - 1];
      StreamCancelled(errorText, init);
      assert forall k :: 0 <= k < |init| ==> init[k] == signals[k] && (FirstEnd(init, k) <==> FirstEnd(signals, k));
      if k :| 0 <= k < |init| && Ends(init[k]) {
        assert Ends(signals[k]);
        assert forall j :: k < j < |signals| ==> !FirstEnd(signals, j);
      } else {
        assert forall k :: 0 <= k < |init| ==> !Ends(signals[k]);
        assert FirstEnd(signals, |init|) <==> Ends(last);
      }
      if k :| 0 <= k < |init| && FirstEnd(init, k) && Abandons(init[k]) {
        assert FirstEnd(signals, k);
      }
    }
  }

  /** The agent is told to cancel exactly when the phone leaves before any answer, or when, in a stream, the phone leaves
      or a wait runs out before anything else has ended it. The request is taken out of the pending map only when the first
      wait runs out: a phone that leaves does not take it out. */
  lemma ChatCancelled(errorText: ErrorText, signals: seq<Signal>)
    ensures var h := ChatReply(errorText, signals);
            && (h.cancel <==>
                  || (signals != [] && signals[0].PhoneGone?)
                  || (&& signals != [] && signals[0].Received? && signals[0].m.ResStart?
                      && exists k :: 0 <= k < |signals[1..]| && FirstEnd(signals[1..], k) && Abandons(signals[1..][k])))
            && (h.forget <==> signals != [] && signals[0].TimedOut?)
            && (h.reply.NoReply? <==> signals == [] || signals[0].PhoneGone?)
  {
    if signals != [] {
      StreamCancelled(errorText, signals[1..]);
    }
  }

  /** While only pieces arrive, the phone's body is exactly the bytes they carry. */
  lemma {:induction false} PiecesAreWritten(errorText: ErrorText, ms: seq<Msg>)
    requires forall i :: 0 <= i < |ms| ==> ms[i].ResChunk?
    ensures Streamed(errorText, Signals(ms)) == StreamState(Payload(ms), false, false)
  {
    if ms == [] {
    } else {
      var init, m := ms[..|ms| - 1], ms[|ms| - 1];
      PiecesAreWritten(errorText, init);
      assert Signals(ms) == Signals(init) + [Received(m)];
      FoldSnoc(Stepper(errorText), NOTHING, Signals(init), Received(m));
      assert ms == init + [m];
      FlatMapSnoc(PayloadOf, init, m);
    }
  }

  lemma StreamOfPieces(errorText: ErrorText, ms: seq<Msg>, rest: seq<Signal>)
    requires forall i :: 0 <= i < |ms| ==> ms[i].ResChunk?
    ensures Streamed(errorText, Signals(ms) + [Received(ResEnd)] + rest) == StreamState(Payload(ms), true, false)
  {
    PiecesAreWritten(errorText, ms);
    FoldSnoc(Stepper(errorText), NOTHING, Signals(ms), Received(ResEnd));
    NothingAfterTheEnd(errorText, Signals(ms) + [Received(ResEnd)], rest);
  }

  lemma PayloadOfWhole(m: Msg)
    ensures Payload([m]) == PayloadOf(m)
  {
    FlatMapSnoc(PayloadOf, [], m);
    assert [] + [m] == [m];
  }

  lemma PayloadBetween(first: Msg, ms: seq<Msg>, last: Msg)
    requires PayloadOf(first) == [] && PayloadOf(last) == []
    ensures Payload([first] + ms + [last]) == Payload(ms)
  {
    FlatMapSnoc(PayloadOf, [first] + ms, last);
    FlatMapAppend(PayloadOf, [first], ms);
    PayloadOfWhole(first);
    assert [] + Payload(ms) + [] == Payload(ms);
  }

  lemma {:induction false} SettledIsReal(calls: seq<RW.Call>)
    ensures RW.Settled(calls) != 0
  {
    if calls == [] {
    } else {
      SettledIsReal(calls[1..]);
    }
  }

  /** The tunnel is transparent: whatever calls the agent's handler made, a chat request that receives all resulting
      messages is answered with the handler's status and exactly the bytes it wrote. Later signals change nothing. */
  lemma Transparent(errorText: ErrorText, calls: seq<RW.Call>, rest: seq<Signal>)
    ensures ChatReply(errorText, Signals(RW.Output(calls)) + rest)
         == Handled(if RW.Streamed(calls) then Streaming(RW.Settled(calls), RW.Written(calls))
                    else Whole(RW.Settled(calls), RW.Written(calls)), false, false)
  {
    RW.Framing(calls);
    var out := RW.Output(calls);
    SettledIsReal(calls);
    var signals := Signals(out) + rest;
    assert signals[0] == Received(out[0]);
    if RW.Streamed(calls) {
      var pieces := out[1..|out| - 1];
      assert out == [out[0]] + pieces + [ResEnd];
      PayloadBetween(out[0], pieces, ResEnd);
      StreamOfPieces(errorText, pieces, rest);
      assert signals[1..] == Signals(pieces) + [Received(ResEnd)] + rest;
    } else {
      assert out == [out[0]];
      PayloadOfWhole(out[0]);
    }
  }

  lemma PlainOfFirst(ms: seq<Msg>, rest: seq<Signal>)
    requires ms != []
    ensures PlainReply(Signals(ms) + rest) == Handled(WholeReply(ms[0]), false, false)
  {
    assert (Signals(ms) + rest)[0] == Received(ms[0]);
  }

  /** The other endpoints are transparent exactly as long as the agent's handler does not flush: a handler that streams
      loses its body, if it wrote any. */
  lemma PlainTransparent(calls: seq<RW.Call>, rest: seq<Signal>)
    ensures PlainReply(Signals(RW.Output(calls)) + rest)
         == Handled(Whole(RW.Settled(calls), if RW.Streamed(calls) then [] else RW.Written(calls)), false, false)
  {
    RW.Framing(calls);
    SettledIsReal(calls);
    var out := RW.Output(calls);
    PlainOfFirst(out, rest);
    if !RW.Streamed(calls) {
      PayloadOfWhole(out[0]);
      assert out == [out[0]];
    }
  }
}
