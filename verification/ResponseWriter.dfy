/** The messages an agent sends for one forwarded request. Request ids are kept apart by whoever routes them. */
module Wire {
  import opened Common
  import Base64

  datatype Msg =
    | Res(status: int, body: string)      // a whole response; the body is base64
    | ResStart(status: int)               // a streamed response begins
    | ResChunk(data: string)              // base64 piece of a streamed response
    | ResEnd
    | Err(code: int, message: string)

  /** After one of these the request is over. */
  predicate Terminal(m: Msg) {
    m.Res? || m.ResEnd? || m.Err?
  }

  function PayloadOf(m: Msg): seq<byte> {
    match m
    case Res(_, b) => Base64.Decode(b).GetOr([])
    case ResChunk(d) => Base64.Decode(d).GetOr([])
    case _ => []
  }

  /** The response bytes a list of messages carries. */
  function Payload(ms: seq<Msg>): seq<byte> {
    FlatMap(PayloadOf, ms)
  }
}

/** The agent side of the tunnel: an HTTP response writer that cuts handler output into relay messages. */
module ResponseWriter {
  import opened Common
  import opened Wire
  import Base64

  /** What a handler can do with the writer. */
  datatype Call = WriteHeader(code: int) | Write(data: seq<byte>) | Flush

  datatype State = State(statusCode: int, body: seq<byte>, flushed: bool, headerSent: bool, sent: seq<Msg>)

  const FRESH := State(0, [], false, false, [])

  function EffectiveStatus(code: int): int {
    if code == 0 then 200 else code
  }

  /** A buffer that is not empty goes out as one piece. */
  function WithChunk(sent: seq<Msg>, body: seq<byte>): seq<Msg> {
    if body == [] then sent else sent + [ResChunk(Base64.Encode(body))]
  }

  function Apply(s: State, call: Call): State {
    match call
    case WriteHeader(code) => if s.statusCode != 0 then s else s.(statusCode := code)
    case Write(data) => s.(statusCode := EffectiveStatus(s.statusCode), body := s.body + data)
    case Flush =>
      if s.headerSent then s.(body := [], sent := WithChunk(s.sent, s.body))
      else State(s.statusCode, [], true, true, WithChunk(s.sent + [ResStart(EffectiveStatus(s.statusCode))], s.body))
  }

  function Finalize(s: State): State {
    if s.flushed then
      s.(sent := WithChunk(s.sent, s.body) + [ResEnd])
    else
      s.(sent := s.sent + [Res(EffectiveStatus(s.statusCode), Base64.Encode(s.body))])
  }

  function AfterCalls(calls: seq<Call>): State {
    Fold(Apply, FRESH, calls)
  }

  /** Everything sent for a request whose handler made these calls and returned. */
  function Output(calls: seq<Call>): seq<Msg> {
    Finalize(AfterCalls(calls)).sent
  }

  class RelayResponseWriter {
    var statusCode: int
    var body: seq<byte>
    var flushed: bool
    var headerSent: bool
    var sent: seq<Msg>

    constructor ()
      ensures Now() == FRESH
    {
      statusCode, body, flushed, headerSent, sent := 0, [], false, false, [];
    }

    ghost function Now(): State
      reads this
    {
      State(statusCode, body, flushed, headerSent, sent)
    }

    method WriteHeader(code: int)
      modifies this
      ensures Now() == Apply(old(Now()), Call.WriteHeader(code))
    {
      if statusCode != 0 {
        return;
      }
      statusCode := code;
    }

    method Write(data: seq<byte>) returns (n: nat)
      modifies this
      ensures Now() == Apply(old(Now()), Call.Write(data)) && n == |data|
    {
      if statusCode == 0 {
        WriteHeader(200);
      }
      body := body + data;
      n := |data|;
    }

    method Flush()
      modifies this
      ensures Now() == Apply(old(Now()), Call.Flush)
    {
      if body == [] && headerSent {
        return;
      }
      if !headerSent {
        var status := statusCode;
        if status == 0 {
          status := 200;
        }
        sent := sent + [ResStart(status)];
        headerSent := true;
        flushed := true;
      }
      if body != [] {
        var data := Base64.Encode(body);
        body := [];
        sent := sent + [ResChunk(data)];
      }
    }

    method Finish()
      modifies this
      ensures Now() == Finalize(old(Now()))
    {
      if flushed {
        if body != [] {
          sent := sent + [ResChunk(Base64.Encode(body))];
        }
        sent := sent + [ResEnd];
      } else {
        var status := statusCode;
        if status == 0 {
          status := 200;
        }
        sent := sent + [Res(status, Base64.Encode(body))];
      }
    }
  }

  // ---- What the calls mean, independently of the writer ----

  function BytesOf(call: Call): seq<byte> {
    if call.Write? then call.data else []
  }

  /** All bytes the handler wrote. */
  function Written(calls: seq<Call>): seq<byte> {
    FlatMap(BytesOf, calls)
  }

  /** The first call that settles the status: an explicit non-zero code, or 200 by writing or flushing first. */
  function Settled(calls: seq<Call>): int {
    if calls == [] then 200
    else
      match calls[0]
      case WriteHeader(code) => if code != 0 then code else Settled(calls[1..])
      case _ => 200
  }

  predicate Streamed(calls: seq<Call>) {
    Call.Flush in calls
  }

  /** One whole response, or an opening, non-empty pieces and an end; in both cases one terminal message, the last. */
  ghost predicate WellFramed(ms: seq<Msg>, status: int) {
    || (exists b :: ms == [Res(status, b)])
    || (&& |ms| >= 2 && ms[0] == ResStart(status) && ms[|ms| - 1] == ResEnd
        && forall i :: 0 < i < |ms| - 1 ==> ms[i].ResChunk? && ms[i].data != "")
  }

  // ---- Proof ----

  predicate Settles(call: Call) {
    !call.WriteHeader? || call.code != 0
  }

  lemma {:induction false} SettledSnoc(calls: seq<Call>, call: Call)
    ensures Settled(calls + [call]) ==
            if exists i :: 0 <= i < |calls| && Settles(calls[i]) then Settled(calls) else Settled([call])
  {
    if calls == [] {
      assert [] + [call] == [call];
    } else {
      assert (calls + [call])[1..] == calls[1..] + [call];
      SettledSnoc(calls[1..], call);
      if exists i :: 1 <= i < |calls| && Settles(calls[i]) {
        var i :| 1 <= i < |calls| && Settles(calls[i]);
        assert Settles(calls[1..][i - 1]);
      }
    }
  }

  /** The writer's state describes the calls made so far. */
  ghost predicate Describes(s: State, calls: seq<Call>) {
    && s.flushed == s.headerSent == Streamed(calls)
    && (!Streamed(calls) ==>
          && s.sent == [] && s.body == Written(calls)
          && EffectiveStatus(s.statusCode) == Settled(calls)
          && (s.statusCode != 0 <==> exists i :: 0 <= i < |calls| && Settles(calls[i])))
    && (Streamed(calls) ==>
          && |s.sent| >= 1 && s.sent[0] == ResStart(Settled(calls))
          && (forall i :: 0 < i < |s.sent| ==> s.sent[i].ResChunk? && s.sent[i].data != "")
          && Payload(s.sent) + s.body == Written(calls)
          && exists i :: 0 <= i < |calls| && Settles(calls[i]))
  }

  lemma PayloadWithChunk(ms: seq<Msg>, body: seq<byte>)
    ensures Payload(WithChunk(ms, body)) == Payload(ms) + body
    ensures body != [] ==> Base64.Encode(body) != ""
  {
    FlatMapSnoc(PayloadOf, ms, ResChunk(Base64.Encode(body)));
    Base64.DecodeEncode(body);
  }

  lemma SettlesSnoc(calls: seq<Call>, call: Call)
    ensures (exists i :: 0 <= i < |calls + [call]| && Settles((calls + [call])[i])) <==>
            (exists i :: 0 <= i < |calls| && Settles(calls[i])) || Settles(call)
  {
    var more := calls + [call];
    assert more[|calls|] == call;
    if exists i :: 0 <= i < |calls| && Settles(calls[i]) {
      var i :| 0 <= i < |calls| && Settles(calls[i]);
      assert Settles(more[i]);
    }
  }

  lemma DescribesHeader(s: State, calls: seq<Call>, code: int)
    requires Describes(s, calls)
    ensures Describes(Apply(s, WriteHeader(code)), calls + [WriteHeader(code)])
  {
    var call := WriteHeader(code);
    SettledSnoc(calls, call);
    SettlesSnoc(calls, call);
    FlatMapSnoc(BytesOf, calls, call);
    assert Written(calls) + [] == Written(calls);
  }

  lemma DescribesWrite(s: State, calls: seq<Call>, data: seq<byte>)
    requires Describes(s, calls)
    ensures Describes(Apply(s, Write(data)), calls + [Write(data)])
  {
    var call := Write(data);
    SettledSnoc(calls, call);
    SettlesSnoc(calls, call);
    FlatMapSnoc(BytesOf, calls, call);
    assert Payload(s.sent) + (s.body + data) == Payload(s.sent) + s.body + data;
  }

  /** What one more flush means for the calls as a whole. */
  lemma FlushFacts(calls: seq<Call>)
    ensures var more := calls + [Call.Flush];
            && Written(more) == Written(calls) && Streamed(more)
            && (exists i :: 0 <= i < |more| && Settles(more[i]))
            && (Settled(more) ==
                if exists i :: 0 <= i < |calls| && Settles(calls[i]) then Settled(calls) else 200)
  {
    SettledSnoc(calls, Call.Flush);
    SettlesSnoc(calls, Call.Flush);
    FlatMapSnoc(BytesOf, calls, Call.Flush);
    assert (calls + [Call.Flush])[|calls|] == Call.Flush;
  }

  lemma {:induction false} SettledWithout(calls: seq<Call>)
    ensures !(exists i :: 0 <= i < |calls| && Settles(calls[i])) ==> Settled(calls) == 200
  {
    if calls == [] {
    } else {
      SettledWithout(calls[1..]);
      if i :| 0 <= i < |calls[1..]| && Settles(calls[1..][i]) {
        assert Settles(calls[i + 1]);
      }
    }
  }

  /** The opening and, if anything was written, one piece. */
  lemma OpeningPayload(status: int, body: seq<byte>)
    ensures Payload(WithChunk([ResStart(status)], body)) == body
  {
    var start := [ResStart(status)];
    FlatMapOne(PayloadOf, start[0]);
    PayloadWithChunk(start, body);
    assert Payload(start) + body == body;
  }

  lemma FirstFlushSends(s: State)
    requires !s.headerSent && s.sent == []
    ensures Apply(s, Call.Flush) ==
            State(s.statusCode, [], true, true, WithChunk([ResStart(EffectiveStatus(s.statusCode))], s.body))
  {
    assert [] + [ResStart(EffectiveStatus(s.statusCode))] == [ResStart(EffectiveStatus(s.statusCode))];
  }

  lemma DescribesFirstFlush(s: State, calls: seq<Call>)
    requires Describes(s, calls) && !s.headerSent
    ensures Describes(Apply(s, Call.Flush), calls + [Call.Flush])
  {
    FlushFacts(calls);
    SettledWithout(calls);
    FirstFlushSends(s);
    OpeningPayload(EffectiveStatus(s.statusCode), s.body);
    PayloadWithChunk([ResStart(EffectiveStatus(s.statusCode))], s.body);
    assert s.body + [] == s.body;
  }

  lemma DescribesNextFlush(s: State, calls: seq<Call>)
    requires Describes(s, calls) && s.headerSent
    ensures Describes(Apply(s, Call.Flush), calls + [Call.Flush])
  {
    FlushFacts(calls);
    PayloadWithChunk(s.sent, s.body);
    assert Payload(s.sent) + s.body + [] == Written(calls);
  }

  lemma {:induction false} CallsDescribed(calls: seq<Call>)
    ensures Describes(AfterCalls(calls), calls)
  {
    if calls == [] {
    } else {
      var init, call := calls[..|calls| - 1], calls[|calls| - 1];
      CallsDescribed(init);
      assert init + [call] == calls;
      match call {
        case WriteHeader(code) => DescribesHeader(AfterCalls(init), init, code);
        case Write(data) => DescribesWrite(AfterCalls(init), init, data);
        case Flush =>
          if AfterCalls(init).headerSent {
            DescribesNextFlush(AfterCalls(init), init);
          } else {
            DescribesFirstFlush(AfterCalls(init), init);
          }
      }
    }
  }

  lemma FramingStreamed(s: State, calls: seq<Call>)
    requires Describes(s, calls) && Streamed(calls)
    ensures var out := Finalize(s).sent;
            WellFramed(out, Settled(calls)) && Payload(out) == Written(calls) && out[0].ResStart?
  {
    var front := WithChunk(s.sent, s.body);
    PayloadWithChunk(s.sent, s.body);
    FlatMapSnoc(PayloadOf, front, ResEnd);
    assert Payload(front) + [] == Payload(front);
  }

  lemma FramingWhole(s: State, calls: seq<Call>)
    requires Describes(s, calls) && !Streamed(calls)
    ensures var out := Finalize(s).sent;
            WellFramed(out, Settled(calls)) && Payload(out) == Written(calls) && !out[0].ResStart?
  {
    var m := Res(EffectiveStatus(s.statusCode), Base64.Encode(s.body));
    FlatMapSnoc(PayloadOf, [], m);
    Base64.DecodeEncode(s.body);
    assert [] + [m] == [m] && [] + s.body == s.body;
  }

  /** For every sequence of calls: well-formed framing, the settled status, and exactly the bytes written. A stream
      is opened if and only if the handler flushed. */
  lemma Framing(calls: seq<Call>)
    ensures WellFramed(Output(calls), Settled(calls))
    ensures Payload(Output(calls)) == Written(calls)
    ensures Output(calls)[0].ResStart? <==> Streamed(calls)
  {
    CallsDescribed(calls);
    if Streamed(calls) {
      FramingStreamed(AfterCalls(calls), calls);
    } else {
      FramingWhole(AfterCalls(calls), calls);
    }
  }

  /** When no stream was opened the buffer still holds the whole body after the response has been sent; the bridge
      reads the session token of a pairing reply from it. */
  lemma BodyKept(calls: seq<Call>)
    requires !Streamed(calls)
    ensures Finalize(AfterCalls(calls)).body == Written(calls)
  {
    CallsDescribed(calls);
  }

  /** Calls made after the response was finished only add messages behind it. */
  lemma {:induction false} LateCalls(s: State, late: seq<Call>)
    ensures s.sent <= Fold(Apply, s, late).sent
  {
    if late == [] {
    } else {
      LateCalls(s, late[..|late| - 1]);
    }
  }
}
