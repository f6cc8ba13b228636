/** The event loop over the parser's events: per-turn channels, tool inputs, and the launch of tools. */
module ClaudeSession {
  import opened Common
  import opened ClaudeParser

  datatype Launch = Launch(id: string, name: string, input: string)

  /** What the loop offers to the event callback. */
  datatype Emitted =
    | ThinkingEmitted(token: string)
    | ToolUseEmitted(id: string, name: string)
    | ToolInputEmitted(id: string, input: string)

  datatype ErrorValue = NoError | ClaudeError

  /** The two channels of one ChatStream call: what was sent on them, and how often each was closed. */
  datatype Turn = Turn(tokens: seq<string>, tokenCloses: nat, errors: seq<ErrorValue>, errorCloses: nat)

  const NEW_TURN := Turn([], 0, [], 0)

  /** `tokenCh` and `errCh` tell whether the session's field is set; a field that is set names the last turn's channel. */
  datatype State = State(
    turns: seq<Turn>,
    tokenCh: bool,
    errCh: bool,
    inputs: map<string, string>,
    names: map<string, string>,
    lastStopReason: string,
    launches: seq<Launch>,
    emitted: seq<Emitted>)

  const FRESH := State([], false, false, map[], map[], "", [], [])

  function Get(m: map<string, string>, k: string): string {
    if k in m then m[k] else ""
  }

  /** Something happens to the channels of the last turn. */
  function WithLast(s: State, t: Turn): State
    requires s.turns != []
  {
    s.(turns := s.turns[|s.turns| - 1 := t])
  }

  function Last(s: State): Turn {
    if s.turns == [] then NEW_TURN else s.turns[|s.turns| - 1]
  }

  function CloseTokens(s: State): State {
    if s.tokenCh && s.turns != [] then
      WithLast(s, Last(s).(tokenCloses := Last(s).tokenCloses + 1)).(tokenCh := false)
    else s
  }

  function EndErrors(s: State, v: ErrorValue): State {
    if s.errCh && s.turns != [] then
      WithLast(s, Last(s).(errors := Last(s).errors + [v], errorCloses := Last(s).errorCloses + 1)).(errCh := false)
    else s
  }

  function Handle(s: State, e: ParseEvent): State {
    match e
    case Text(t) =>
      if s.tokenCh && s.turns != [] then WithLast(s, Last(s).(tokens := Last(s).tokens + [t])) else s
    case Thinking(t) => s.(emitted := s.emitted + [ThinkingEmitted(t)])
    case ToolUse(id, name) =>
      s.(inputs := s.inputs[id := ""], names := s.names[id := name], emitted := s.emitted + [ToolUseEmitted(id, name)])
    case ToolInput(id, _, part) => s.(inputs := s.inputs[id := Get(s.inputs, id) + part])
    case ToolStop(id, _) =>
      if id in s.inputs then
        s.(launches := s.launches + [Launch(id, Get(s.names, id), s.inputs[id])],
           emitted := s.emitted + [ToolInputEmitted(id, s.inputs[id])])
      else s
    case Done(reason) =>
      var s' := s.(lastStopReason := if reason != "" then reason else s.lastStopReason);
      if s'.lastStopReason == "tool_use" then s' else EndErrors(CloseTokens(s'), NoError)
    case Result(isError) => if isError then EndErrors(s, ClaudeError) else s
    case _ => s
  }

  function ChatStream(s: State): State {
    s.(turns := s.turns + [NEW_TURN], tokenCh := true, errCh := true, inputs := map[], names := map[])
  }

  /** The deferred closes when the event channel ends. */
  function Finish(s: State): State {
    if s.turns == [] then s
    else
      var l := Last(s);
      WithLast(s, l.(tokenCloses := l.tokenCloses + if s.tokenCh then 1 else 0,
                     errorCloses := l.errorCloses + if s.errCh then 1 else 0))
  }

  datatype Input = Chat | Parsed(event: ParseEvent)

  function Step(s: State, i: Input): State {
    match i
    case Chat => ChatStream(s)
    case Parsed(e) => Handle(s, e)
  }

  /** No channel is closed twice, none gets more than one error value, and a channel the session still holds is open. */
  ghost predicate Disciplined(s: State) {
    && (forall i :: 0 <= i < |s.turns| ==>
          && s.turns[i].tokenCloses <= 1 && s.turns[i].errorCloses <= 1 && |s.turns[i].errors| <= 1)
    && (s.tokenCh ==> s.turns != [] && Last(s).tokenCloses == 0)
    && (s.errCh ==> s.turns != [] && Last(s).errorCloses == 0 && Last(s).errors == [])
  }

  lemma HandleKeepsDiscipline(s: State, e: ParseEvent)
    requires Disciplined(s)
    ensures Disciplined(Handle(s, e))
  {
  }

  class Session {
    var turns: seq<Turn>
    var tokenCh: bool
    var errCh: bool
    var inputs: map<string, string>
    var names: map<string, string>
    var lastStopReason: string
    var launches: seq<Launch>
    var emitted: seq<Emitted>

    constructor ()
      ensures Now() == FRESH
    {
      turns, tokenCh, errCh, inputs, names, lastStopReason, launches, emitted := [], false, false, map[], map[], "", [], [];
    }

    ghost function Now(): State
      reads this
    {
      State(turns, tokenCh, errCh, inputs, names, lastStopReason, launches, emitted)
    }

    method StartTurn()
      requires Disciplined(Now())
      modifies this
      ensures Now() == ChatStream(old(Now())) && Disciplined(Now())
    {
      turns := turns + [NEW_TURN];
      tokenCh, errCh := true, true;
      inputs, names := map[], map[];
    }

    /** Closing twice, or sending after a close, would panic. */
    method CloseTokenCh()
      requires tokenCh && turns != [] && Last(Now()).tokenCloses == 0
      modifies this`turns, this`tokenCh
      ensures Now() == CloseTokens(old(Now()))
    {
      var l := turns[|turns| - 1];
      turns := turns[|turns| - 1 := l.(tokenCloses := l.tokenCloses + 1)];
      tokenCh := false;
    }

    /** The error channel holds one value: the send must find it empty, or the loop blocks. */
    method EndErrCh(v: ErrorValue)
      requires errCh && turns != [] && Last(Now()).errors == [] && Last(Now()).errorCloses == 0
      modifies this`turns, this`errCh
      ensures Now() == EndErrors(old(Now()), v)
    {
      var l := turns[|turns| - 1];
      turns := turns[|turns| - 1 := l.(errors := l.errors + [v], errorCloses := l.errorCloses + 1)];
      errCh := false;
    }

    method HandleEvent(e: ParseEvent)
      requires Disciplined(Now())
      modifies this
      ensures Now() == Handle(old(Now()), e) && Disciplined(Now())
    {
      HandleKeepsDiscipline(Now(), e);
      match e {
        case Text(t) =>
          if tokenCh {
            var l := turns[|turns| - 1];
            turns := turns[|turns| - 1 := l.(tokens := l.tokens + [t])];
          }
        case Thinking(t) => emitted := emitted + [ThinkingEmitted(t)];
        case ToolUse(id, name) =>
          inputs := inputs[id := ""];
          names := names[id := name];
          emitted := emitted + [ToolUseEmitted(id, name)];
        case ToolInput(id, _, part) =>
          var existing := Get(inputs, id);
          existing := existing + part;
          inputs := inputs[id := existing];
        case ToolStop(id, _) =>
          var name := Get(names, id);
          if id in inputs {
            emitted := emitted + [ToolInputEmitted(id, inputs[id])];
            launches := launches + [Launch(id, name, inputs[id])];
          }
        case Done(reason) =>
          if reason != "" {
            lastStopReason := reason;
          }
          if lastStopReason == "tool_use" {
            return;
          }
          if tokenCh {
            CloseTokenCh();
          }
          if errCh {
            EndErrCh(NoError);
          }
        case Result(isError) =>
          if isError && errCh {
            EndErrCh(ClaudeError);
          }
        case _ =>
      }
    }

    /** One run of the loop, with ChatStream calls arriving in between, up to the end of the event channel. */
    method EventLoop(arrivals: seq<Input>)
      requires Disciplined(Now())
      modifies this
      ensures Now() == Finish(Fold(Step, old(Now()), arrivals))
    {
      ghost var start := Now();
      for i := 0 to |arrivals|
        invariant Disciplined(Now())
        invariant Now() == Fold(Step, start, arrivals[..i])
      {
        assert arrivals[..i + 1] == arrivals[..i] + [arrivals[i]];
        FoldSnoc(Step, start, arrivals[..i], arrivals[i]);
        match arrivals[i] {
          case Chat => StartTurn();
          case Parsed(e) => HandleEvent(e);
        }
      }
      assert arrivals[..|arrivals|] == arrivals;
      CloseOpen();
    }

    /** The deferred closes. */
    method CloseOpen()
      modifies this`turns
      ensures Now() == Finish(old(Now()))
    {
      if turns != [] {
        var l := turns[|turns| - 1];
        turns := turns[|turns| - 1 := l.(tokenCloses := l.tokenCloses + if tokenCh then 1 else 0,
                                         errorCloses := l.errorCloses + if errCh then 1 else 0)];
      }
    }
  }

  // ---- Channel discipline ----

  /** Whatever arrives, in any order, each channel is closed at most once within a run of the loop, also by the deferred
      closes, and the error channel gets at most one value. */
  lemma {:induction false} RunKeepsDiscipline(arrivals: seq<Input>)
    ensures Disciplined(Fold(Step, FRESH, arrivals))
    ensures forall t <- Finish(Fold(Step, FRESH, arrivals)).turns ::
              t.tokenCloses <= 1 && t.errorCloses <= 1 && |t.errors| <= 1
  {
    if arrivals == [] {
    } else {
      RunKeepsDiscipline(arrivals[..|arrivals| - 1]);
      match arrivals[|arrivals| - 1] {
        case Chat =>
        case Parsed(e) => HandleKeepsDiscipline(Fold(Step, FRESH, arrivals[..|arrivals| - 1]), e);
      }
    }
  }
}
