/** What parser and event loop guarantee together: turns, tool inputs, and how often each tool runs. */
module ClaudeTurns {
  import opened Common
  import opened ClaudeParser
  import opened ClaudeSession

  // ---- What the events of one turn amount to ----

  ghost predicate Events(inputs: seq<Input>) {
    forall i :: 0 <= i < |inputs| ==> inputs[i].Parsed?
  }

  predicate IsDone(i: Input) {
    i.Parsed? && i.event.Done?
  }

  predicate IsText(i: Input) {
    i.Parsed? && i.event.Text?
  }

  function TextOf(i: Input): seq<string> {
    if IsText(i) then [i.event.token] else []
  }

  function ErrorOf(i: Input): seq<ErrorValue> {
    if i.Parsed? && i.event == Result(true) then [ClaudeError] else []
  }

  /** A message end without a reason of its own goes by the last one there was, also in earlier turns. */
  function Effective(reason: string, i: Input): string {
    if IsDone(i) && i.event.stopReason != "" then i.event.stopReason else reason
  }

  function Reason(carried: string, inputs: seq<Input>): string {
    Fold(Effective, carried, inputs)
  }

  /** The last of these events is a message end that is not for tool use. */
  predicate Closing(carried: string, evs: seq<Input>) {
    evs != [] && IsDone(evs[|evs| - 1]) && Reason(carried, evs) != "tool_use"
  }

  /** One of the events is such an end. */
  predicate Closed(carried: string, evs: seq<Input>) {
    evs != [] && (Closed(carried, evs[..|evs| - 1]) || Closing(carried, evs))
  }

  /** The events before the first such end. */
  function Heard(carried: string, evs: seq<Input>): seq<Input> {
    if evs == [] then []
    else
      var init := evs[..|evs| - 1];
      if Closed(carried, init) then Heard(carried, init) else if Closing(carried, evs) then init else evs
  }

  ghost predicate ClosesAt(carried: string, evs: seq<Input>, k: nat)
    requires k < |evs|
  {
    Closing(carried, evs[..k + 1])
  }

  /** The first closing end, by position. */
  lemma {:induction false} FirstClosing(carried: string, evs: seq<Input>)
    ensures |Heard(carried, evs)| <= |evs| && Heard(carried, evs) == evs[..|Heard(carried, evs)|]
    ensures forall k :: 0 <= k < |Heard(carried, evs)| ==> !ClosesAt(carried, evs, k)
    ensures Closed(carried, evs) <==> |Heard(carried, evs)| < |evs|
    ensures Closed(carried, evs) ==> ClosesAt(carried, evs, |Heard(carried, evs)|)
  {
    if evs == [] {
    } else {
      var init := evs[..|evs| - 1];
      FirstClosing(carried, init);
      assert evs[..|evs|] == evs;
      forall k | 0 <= k < |init|
        ensures ClosesAt(carried, init, k) <==> ClosesAt(carried, evs, k)
      {
        assert init[..k + 1] == evs[..k + 1];
      }
    }
  }

  function Record(heard: seq<Input>): Turn {
    var failed := FlatMap(ErrorOf, heard) != [];
    Turn(FlatMap(TextOf, heard), 0, if failed then [ClaudeError] else [], if failed then 1 else 0)
  }

  /** The channels of a turn: the text before its first closing end, in order; closed, with one error value, if there is
      such an end; else still open, unless a failure has ended the errors. */
  function Outcome(carried: string, evs: seq<Input>): Turn {
    var heard := Heard(carried, evs);
    if Closed(carried, evs) then
      Turn(FlatMap(TextOf, heard), 1, [if FlatMap(ErrorOf, heard) == [] then NoError else ClaudeError], 1)
    else Record(heard)
  }

  // ---- The session does that ----

  /** Inside a turn: earlier turns stay as they were, and this one is what its events so far amount to. */
  ghost predicate InTurn(s: State, before: seq<Turn>, carried: string, evs: seq<Input>) {
    && s.lastStopReason == Reason(carried, evs)
    && s.turns == before + [Outcome(carried, evs)]
    && s.tokenCh == !Closed(carried, evs)
    && s.errCh == (!Closed(carried, evs) && FlatMap(ErrorOf, evs) == [])
  }

  lemma UpdateLast(before: seq<Turn>, t: Turn, t': Turn)
    ensures (before + [t])[|before| := t'] == before + [t']
  {
  }

  lemma OneMore(carried: string, evs: seq<Input>, e: Input)
    ensures Reason(carried, evs + [e]) == Effective(Reason(carried, evs), e)
    ensures Closing(carried, evs + [e]) <==> IsDone(e) && Effective(Reason(carried, evs), e) != "tool_use"
    ensures Closed(carried, evs + [e]) <==> Closed(carried, evs) || Closing(carried, evs + [e])
    ensures Heard(carried, evs + [e]) ==
            if Closed(carried, evs) then Heard(carried, evs)
            else if Closing(carried, evs + [e]) then evs
            else evs + [e]
  {
    FoldSnoc(Effective, carried, evs, e);
    assert (evs + [e])[..|evs|] == evs;
  }

  lemma {:induction false} AllHeard(carried: string, evs: seq<Input>)
    ensures !Closed(carried, evs) ==> Heard(carried, evs) == evs
  {
  }

  lemma RecordSnoc(evs: seq<Input>, e: Input)
    ensures Record(evs + [e]) ==
            if IsText(e) then Record(evs).(tokens := Record(evs).tokens + [e.event.token])
            else if ErrorOf(e) != [] then Record(evs).(errors := [ClaudeError], errorCloses := 1)
            else Record(evs)
    ensures FlatMap(ErrorOf, evs + [e]) == [] <==> FlatMap(ErrorOf, evs) == [] && ErrorOf(e) == []
  {
    FlatMapSnoc(TextOf, evs, e);
    FlatMapSnoc(ErrorOf, evs, e);
    assert FlatMap(TextOf, evs) + [] == FlatMap(TextOf, evs);
    assert FlatMap(ErrorOf, evs) + [] == FlatMap(ErrorOf, evs);
  }

  lemma LastTurnGoesOn(s: State, before: seq<Turn>, r: Turn, e: ParseEvent)
    requires s.turns == before + [r] && s.tokenCh
    requires e.Done? ==> Effective(s.lastStopReason, Parsed(e)) == "tool_use"
    ensures var s' := Handle(s, e);
            && s'.tokenCh && s'.errCh == (s.errCh && e != Result(true))
            && s'.lastStopReason == Effective(s.lastStopReason, Parsed(e))
            && s'.turns == before + [if e.Text? then r.(tokens := r.tokens + [e.token])
                                     else if e == Result(true) && s.errCh then
                                       r.(errors := r.errors + [ClaudeError], errorCloses := r.errorCloses + 1)
                                     else r]
  {
    match e {
      case Text(t) => UpdateLast(before, r, r.(tokens := r.tokens + [t]));
      case Result(_) =>
        UpdateLast(before, r, r.(errors := r.errors + [ClaudeError], errorCloses := r.errorCloses + 1));
      case _ =>
    }
  }

  /** An event that ends nothing. */
  lemma OpenStep(s: State, before: seq<Turn>, carried: string, evs: seq<Input>, e: Input)
    requires InTurn(s, before, carried, evs) && e.Parsed?
    requires !Closed(carried, evs) && !Closing(carried, evs + [e])
    ensures InTurn(Step(s, e), before, carried, evs + [e])
  {
    OneMore(carried, evs, e);
    AllHeard(carried, evs);
    RecordSnoc(evs, e);
    LastTurnGoesOn(s, before, Record(evs), e.event);
    assert [] + [ClaudeError] == [ClaudeError];
  }

  lemma LastTurnEnds(s: State, before: seq<Turn>, r: Turn, reason: string)
    requires s.turns == before + [r] && s.tokenCh
    requires (if reason != "" then reason else s.lastStopReason) != "tool_use"
    ensures var s' := Handle(s, Done(reason));
            && !s'.tokenCh && !s'.errCh && s'.lastStopReason == (if reason != "" then reason else s.lastStopReason)
            && s'.turns == before + [r.(tokenCloses := r.tokenCloses + 1,
                                        errors := if s.errCh then r.errors + [NoError] else r.errors,
                                        errorCloses := if s.errCh then r.errorCloses + 1 else r.errorCloses)]
  {
    var r1 := r.(tokenCloses := r.tokenCloses + 1);
    var s1 := CloseTokens(s.(lastStopReason := if reason != "" then reason else s.lastStopReason));
    UpdateLast(before, r, r1);
    assert s1.turns == before + [r1];
    UpdateLast(before, r1, r1.(errors := r.errors + [NoError], errorCloses := r.errorCloses + 1));
  }

  /** The first closing end. */
  lemma ClosingStep(s: State, before: seq<Turn>, carried: string, evs: seq<Input>, e: Input)
    requires InTurn(s, before, carried, evs) && e.Parsed?
    requires !Closed(carried, evs) && Closing(carried, evs + [e])
    ensures InTurn(Step(s, e), before, carried, evs + [e])
  {
    OneMore(carried, evs, e);
    AllHeard(carried, evs);
    LastTurnEnds(s, before, Record(evs), e.event.stopReason);
    assert [] + [NoError] == [NoError];
  }

  /** With neither field set no event touches a turn. */
  lemma QuietStep(s: State, e: ParseEvent)
    requires !s.tokenCh && !s.errCh
    ensures var s' := Handle(s, e);
            s'.turns == s.turns && !s'.tokenCh && !s'.errCh
            && s'.lastStopReason == Effective(s.lastStopReason, Parsed(e))
  {
  }

  lemma TurnStep(s: State, before: seq<Turn>, carried: string, evs: seq<Input>, e: Input)
    requires InTurn(s, before, carried, evs) && e.Parsed?
    ensures InTurn(Step(s, e), before, carried, evs + [e])
  {
    if Closed(carried, evs) {
      OneMore(carried, evs, e);
      QuietStep(s, e.event);
    } else if Closing(carried, evs + [e]) {
      ClosingStep(s, before, carried, evs, e);
    } else {
      OpenStep(s, before, carried, evs, e);
    }
  }

  lemma {:induction false} TurnSteps(s: State, evs: seq<Input>)
    requires Events(evs)
    ensures InTurn(Fold(Step, ChatStream(s), evs), s.turns, s.lastStopReason, evs)
  {
    if evs == [] {
    } else {
      var init, e := evs[..|evs| - 1], evs[|evs| - 1];
      TurnSteps(s, init);
      TurnStep(Fold(Step, ChatStream(s), init), s.turns, s.lastStopReason, init, e);
      assert evs == init + [e];
    }
  }

  /** A ChatStream call and all events up to the next one. */
  function Call(evs: seq<Input>): seq<Input> {
    [Chat] + evs
  }

  /** One turn from any state: its channels are exactly what its events amount to, given the reason carried over; earlier
      turns are not touched. */
  lemma OneTurn(s: State, evs: seq<Input>)
    requires Events(evs)
    ensures InTurn(Fold(Step, s, Call(evs)), s.turns, s.lastStopReason, evs)
  {
    FoldAppend(Step, s, [Chat], evs);
    FoldTwo(Step, s, Chat, Chat);
    TurnSteps(s, evs);
  }

  // ---- Whole runs ----

  /** Any arrivals: some events, then calls with their events. */
  function Arrivals(front: seq<Input>, calls: seq<seq<Input>>): seq<Input> {
    front + FlatMap(Call, calls)
  }

  ghost predicate AllEvents(front: seq<Input>, calls: seq<seq<Input>>) {
    Events(front) && forall i :: 0 <= i < |calls| ==> Events(calls[i])
  }

  lemma ArrivalsSnoc(front: seq<Input>, calls: seq<seq<Input>>, evs: seq<Input>)
    ensures Arrivals(front, calls + [evs]) == Arrivals(front, calls) + Call(evs)
  {
    FlatMapSnoc(Call, calls, evs);
    AppendAppend(front, FlatMap(Call, calls), Call(evs));
  }

  lemma ArrivalsMore(front: seq<Input>, calls: seq<seq<Input>>, evs: seq<Input>, e: Input)
    ensures Arrivals(front, calls + [evs + [e]]) == Arrivals(front, calls + [evs]) + [e]
  {
    ArrivalsSnoc(front, calls, evs + [e]);
    ArrivalsSnoc(front, calls, evs);
    AppendAppend([Chat], evs, [e]);
    AppendAppend(Arrivals(front, calls), Call(evs), [e]);
  }

  /** Every list of arrivals is of that form, overlapping calls included: a call in mid-turn just ends the list of the
      earlier one's events. */
  lemma {:induction false} AnyArrivals(arrivals: seq<Input>) returns (front: seq<Input>, calls: seq<seq<Input>>)
    ensures AllEvents(front, calls) && Arrivals(front, calls) == arrivals
  {
    if arrivals == [] {
      front, calls := [], [];
    } else {
      var init, i := arrivals[..|arrivals| - 1], arrivals[|arrivals| - 1];
      front, calls := AnyArrivals(init);
      assert arrivals == init + [i];
      if i == Chat {
        ArrivalsSnoc(front, calls, []);
        calls := calls + [[]];
      } else if calls == [] {
        front := front + [i];
      } else {
        var earlier, evs := calls[..|calls| - 1], calls[|calls| - 1];
        assert calls == earlier + [evs];
        ArrivalsMore(front, earlier, evs, i);
        calls := earlier + [evs + [i]];
      }
    }
  }

  /** The reason carried into call number i. */
  function Carried(front: seq<Input>, calls: seq<seq<Input>>, i: nat): string
    requires i <= |calls|
  {
    Reason("", Arrivals(front, calls[..i]))
  }

  lemma StepReason(s: State, i: Input)
    ensures Step(s, i).lastStopReason == Effective(s.lastStopReason, i)
  {
  }

  lemma {:induction false} LastReason(s: State, inputs: seq<Input>)
    ensures Fold(Step, s, inputs).lastStopReason == Reason(s.lastStopReason, inputs)
  {
    if inputs == [] {
    } else {
      LastReason(s, inputs[..|inputs| - 1]);
      StepReason(Fold(Step, s, inputs[..|inputs| - 1]), inputs[|inputs| - 1]);
    }
  }

  lemma {:induction false} FrontIsQuiet(s: State, front: seq<Input>)
    requires !s.tokenCh && !s.errCh && Events(front)
    ensures var s' := Fold(Step, s, front); s'.turns == s.turns && !s'.tokenCh && !s'.errCh
  {
    if front == [] {
    } else {
      FrontIsQuiet(s, front[..|front| - 1]);
      QuietStep(Fold(Step, s, front[..|front| - 1]), front[|front| - 1].event);
    }
  }

  /** The turns of a run, call by call. */
  function Outcomes(front: seq<Input>, calls: seq<seq<Input>>): seq<Turn> {
    if calls == [] then []
    else
      var init := calls[..|calls| - 1];
      Outcomes(front, init) + [Outcome(Reason("", Arrivals(front, init)), calls[|calls| - 1])]
  }

  lemma {:induction false} OutcomeAt(front: seq<Input>, calls: seq<seq<Input>>, i: nat)
    requires i < |calls|
    ensures |Outcomes(front, calls)| == |calls|
    ensures Outcomes(front, calls)[i] == Outcome(Carried(front, calls, i), calls[i])
  {
    var init := calls[..|calls| - 1];
    if i < |init| {
      OutcomeAt(front, init, i);
      assert init[..i] == calls[..i];
    } else if init != [] {
      OutcomeAt(front, init, 0);
    }
  }

  /** The session after a run, before and after its deferred closes. */
  function After(front: seq<Input>, calls: seq<seq<Input>>): State {
    Fold(Step, FRESH, Arrivals(front, calls))
  }

  lemma AfterSnoc(front: seq<Input>, calls: seq<seq<Input>>, evs: seq<Input>)
    requires Events(evs)
    ensures InTurn(After(front, calls + [evs]), After(front, calls).turns, Reason("", Arrivals(front, calls)), evs)
  {
    ArrivalsSnoc(front, calls, evs);
    FoldAppend(Step, FRESH, Arrivals(front, calls), Call(evs));
    LastReason(FRESH, Arrivals(front, calls));
    OneTurn(After(front, calls), evs);
  }

  lemma {:induction false} RunOutcomes(front: seq<Input>, calls: seq<seq<Input>>)
    requires AllEvents(front, calls)
    ensures After(front, calls).turns == Outcomes(front, calls)
  {
    if calls == [] {
      assert Arrivals(front, calls) == front;
      FrontIsQuiet(FRESH, front);
    } else {
      var init, evs := calls[..|calls| - 1], calls[|calls| - 1];
      RunOutcomes(front, init);
      AfterSnoc(front, init, evs);
      assert calls == init + [evs];
    }
  }

  lemma FinishLast(s: State, before: seq<Turn>, carried: string, evs: seq<Input>)
    requires InTurn(s, before, carried, evs)
    ensures Finish(s).turns == before + [Outcome(carried, evs).(tokenCloses := 1, errorCloses := 1)]
  {
    AllHeard(carried, evs);
    UpdateLast(before, Outcome(carried, evs), Outcome(carried, evs).(tokenCloses := 1, errorCloses := 1));
  }

  /** The deferred closes reach the last turn only: an earlier turn without a closing end before the next call is never
      closed. */
  lemma EveryRun(front: seq<Input>, calls: seq<seq<Input>>)
    requires AllEvents(front, calls)
    ensures var turns := Finish(After(front, calls)).turns;
            && |turns| == |calls|
            && forall i :: 0 <= i < |calls| ==>
                 var t := Outcome(Carried(front, calls, i), calls[i]);
                 turns[i] == if i < |calls| - 1 then t else t.(tokenCloses := 1, errorCloses := 1)
  {
    if calls == [] {
      RunOutcomes(front, calls);
    } else {
      var init, evs := calls[..|calls| - 1], calls[|calls| - 1];
      assert calls == init + [evs];
      RunOutcomes(front, init);
      AfterSnoc(front, init, evs);
      FinishLast(After(front, calls), Outcomes(front, init), Reason("", Arrivals(front, init)), evs);
      OutcomeAt(front, calls, |init|);
      forall i | 0 <= i < |init|
        ensures |Outcomes(front, init)| == |init|
        ensures Outcomes(front, init)[i] == Outcome(Carried(front, calls, i), calls[i])
      {
        OutcomeAt(front, init, i);
        assert init[..i] == calls[..i];
      }
    }
  }

  // ---- When a turn is complete ----

  /** All the call's text in order, one end of stream, one error value and the end of that. */
  predicate Complete(t: Turn, evs: seq<Input>) {
    t.tokens == FlatMap(TextOf, evs) && t.tokenCloses == 1 && |t.errors| == 1 && t.errorCloses == 1
  }

  /** There is a closing end, and no text behind one. */
  ghost predicate EndsWell(carried: string, evs: seq<Input>) {
    && (exists k :: 0 <= k < |evs| && ClosesAt(carried, evs, k))
    && forall k, j :: 0 <= k < j < |evs| && ClosesAt(carried, evs, k) ==> !IsText(evs[j])
  }

  lemma {:induction false} NoMoreText(a: seq<Input>, b: seq<Input>)
    ensures FlatMap(TextOf, a + b) == FlatMap(TextOf, a) <==> forall i :: 0 <= i < |b| ==> !IsText(b[i])
    ensures |FlatMap(TextOf, a + b)| >= |FlatMap(TextOf, a)|
    ensures |FlatMap(TextOf, a + b)| == |FlatMap(TextOf, a)| ==> FlatMap(TextOf, a + b) == FlatMap(TextOf, a)
  {
    if b == [] {
      assert a + b == a;
    } else {
      var init, e := b[..|b| - 1], b[|b| - 1];
      NoMoreText(a, init);
      assert a + b == (a + init) + [e];
      FlatMapSnoc(TextOf, a + init, e);
    }
  }

  /** A turn is complete if and only if its events have a closing end, and no text behind it, before the next call. */
  lemma CompleteTurn(carried: string, evs: seq<Input>)
    ensures Complete(Outcome(carried, evs), evs) <==> EndsWell(carried, evs)
  {
    FirstClosing(carried, evs);
    AllHeard(carried, evs);
    var n := |Heard(carried, evs)|;
    NoMoreText(evs[..n], evs[n..]);
    assert evs[..n] + evs[n..] == evs;
    assert forall j :: n <= j < |evs| ==> evs[j] == evs[n..][j - n];
    if Closed(carried, evs) {
      assert IsDone(evs[..n + 1][n]);
    }
  }

  /** In every run, with calls at any time and any events between them, exactly those turns are complete whose events have a
      closing end with no text behind it before the next call. */
  lemma TurnsAreSeparate(front: seq<Input>, calls: seq<seq<Input>>)
    requires AllEvents(front, calls)
    ensures var turns := After(front, calls).turns;
            && |turns| == |calls|
            && forall i :: 0 <= i < |calls| ==>
                 (Complete(turns[i], calls[i]) <==> EndsWell(Carried(front, calls, i), calls[i]))
  {
    RunOutcomes(front, calls);
    if calls != [] {
      OutcomeAt(front, calls, 0);
    }
    forall i | 0 <= i < |calls|
      ensures Complete(Outcomes(front, calls)[i], calls[i]) <==> EndsWell(Carried(front, calls, i), calls[i])
    {
      OutcomeAt(front, calls, i);
      CompleteTurn(Carried(front, calls, i), calls[i]);
    }
  }

  // ---- What is carried over ----

  /** The first message end among the events, if any, names its reason. */
  ghost predicate NamesReason(evs: seq<Input>) {
    forall k :: 0 <= k < |evs| && IsDone(evs[k]) && evs[k].event.stopReason == "" ==>
      exists j :: 0 <= j < k && IsDone(evs[j]) && evs[j].event.stopReason != ""
  }

  lemma {:induction false} SameReason(a: string, b: string, evs: seq<Input>)
    requires exists j :: 0 <= j < |evs| && IsDone(evs[j]) && evs[j].event.stopReason != ""
    ensures Reason(a, evs) == Reason(b, evs)
  {
    var init, e := evs[..|evs| - 1], evs[|evs| - 1];
    if !IsDone(e) || e.event.stopReason == "" {
      var j :| 0 <= j < |evs| && IsDone(evs[j]) && evs[j].event.stopReason != "";
      assert init[j] == evs[j];
      SameReason(a, b, init);
    }
  }

  /** A turn whose first message end names its reason depends on its own events alone, whatever came before it. */
  lemma {:induction false} OwnEventsDecide(a: string, b: string, evs: seq<Input>)
    requires NamesReason(evs)
    ensures Outcome(a, evs) == Outcome(b, evs)
    ensures Closed(a, evs) == Closed(b, evs) && Heard(a, evs) == Heard(b, evs)
  {
    if evs == [] {
    } else {
      var init := evs[..|evs| - 1];
      assert forall k :: 0 <= k < |init| ==> init[k] == evs[k];
      OwnEventsDecide(a, b, init);
      if IsDone(evs[|init|]) {
        SameReason(a, b, evs);
      }
    }
  }

  /** So when every turn's first message end names its reason, each turn is complete if and only if its own events end it
      well, whatever the other turns were. */
  lemma TurnsOnTheirOwn(front: seq<Input>, calls: seq<seq<Input>>)
    requires AllEvents(front, calls) && forall i :: 0 <= i < |calls| ==> NamesReason(calls[i])
    ensures var turns := After(front, calls).turns;
            && |turns| == |calls|
            && forall i :: 0 <= i < |calls| ==> (Complete(turns[i], calls[i]) <==> EndsWell("", calls[i]))
  {
    TurnsAreSeparate(front, calls);
    forall i | 0 <= i < |calls|
      ensures EndsWell(Carried(front, calls, i), calls[i]) <==> EndsWell("", calls[i])
    {
      OwnEventsDecide(Carried(front, calls, i), "", calls[i]);
      CompleteTurn(Carried(front, calls, i), calls[i]);
      CompleteTurn("", calls[i]);
    }
  }

  // ---- A message_stop behind the next call ----

  /** A message_stop that is only consumed after the next ChatStream call leaves the new turn alone exactly when the last
      stop was for tool use; otherwise it ends the new turn before its first token. */
  lemma LateStop(s: State)
    ensures var s' := Handle(ChatStream(s), Done(""));
            && (s'.tokenCh && s'.errCh <==> s.lastStopReason == "tool_use")
            && (s.lastStopReason != "tool_use" ==>
                  !s'.tokenCh && !s'.errCh && s'.turns == s.turns + [Turn([], 1, [NoError], 1)])
  {
    assert (s.turns + [NEW_TURN])[..|s.turns|] == s.turns;
    assert [] + [NoError] == [NoError];
  }

  lemma {:induction false} NothingHeard(carried: string, more: seq<Input>)
    requires carried != "tool_use"
    ensures var evs := [Parsed(Done(""))] + more; Closed(carried, evs) && Heard(carried, evs) == []
  {
    var first := [Parsed(Done(""))];
    if more == [] {
      OneMore(carried, [], Parsed(Done("")));
      assert first + more == [] + first;
    } else {
      var init, e := more[..|more| - 1], more[|more| - 1];
      NothingHeard(carried, init);
      OneMore(carried, first + init, e);
      assert first + more == (first + init) + [e];
    }
  }

  /** After any arrivals whose last named stop was not for tool use, a call whose first message end names no reason before
      any text loses everything, whatever Claude goes on to say: so when the reader is told of a turn's end by its last
      message_delta and calls again before the loop has taken the message_stop. */
  lemma LateStopLosesTurn(front: seq<Input>, calls: seq<seq<Input>>, more: seq<Input>)
    requires AllEvents(front, calls) && Events(more)
    requires Reason("", Arrivals(front, calls)) != "tool_use"
    ensures After(front, calls + [[Parsed(Done(""))] + more]).turns == After(front, calls).turns + [Turn([], 1, [NoError], 1)]
  {
    NothingHeard(Reason("", Arrivals(front, calls)), more);
    AfterSnoc(front, calls, [Parsed(Done(""))] + more);
  }

  /** The shortest such run: the second turn's text is gone. */
  lemma LateStopExample(token: string)
    ensures Fold(Step, FRESH, [Chat, Parsed(Done("end_turn"))] + [Chat, Parsed(Done("")), Parsed(Text(token))]).turns
         == [Turn([], 1, [NoError], 1), Turn([], 1, [NoError], 1)]
  {
    var first, second := [Parsed(Done("end_turn"))], [Parsed(Done(""))] + [Parsed(Text(token))];
    ArrivalsSnoc([], [], first);
    ArrivalsSnoc([], [first], second);
    assert Arrivals([], []) == [] && [] + [first] == [first];
    assert Arrivals([], [first]) == [Chat, Parsed(Done("end_turn"))];
    assert Call(second) == [Chat, Parsed(Done("")), Parsed(Text(token))];
    FoldTwo(Effective, "", Chat, Parsed(Done("end_turn")));
    LateStopLosesTurn([], [first], [Parsed(Text(token))]);
    FoldTwo(Step, FRESH, Chat, Parsed(Done("end_turn")));
    LastTurnEnds(ChatStream(FRESH), [], NEW_TURN, "end_turn");
    assert [] + [NEW_TURN] == [NEW_TURN] && [] + [NoError] == [NoError];
  }
}

/** From the lines of Claude's output to the channels of a turn, with a reading of the lines that does not go by the parser's
    events. */
module ClaudeAnswers {
  import opened Common
  import opened ClaudeParser
  import opened ClaudeSession
  import Turns = ClaudeTurns

  // ---- What the lines say ----

  /** The answer's text is in text deltas, and nowhere else. */
  function AnswerText(line: Line): seq<string> {
    if line.StreamLine? && line.event.TextDelta? then [line.event.text] else []
  }

  /** A message_delta may name a reason; the message_stop behind it never does. */
  function NamedReason(line: Line): string {
    if line.StreamLine? && line.event.MessageDelta? then line.event.stopReason else ""
  }

  predicate EndsMessage(line: Line) {
    line.StreamLine? && (line.event.MessageDelta? || line.event.MessageStop?)
  }

  predicate Fails(line: Line) {
    line.ResultLine? && line.isError
  }

  /** The last reason named, in these lines or before them. */
  function LastReason(carried: string, lines: seq<Line>): string {
    if lines == [] then carried
    else
      var last := lines[|lines| - 1];
      if NamedReason(last) != "" then NamedReason(last) else LastReason(carried, lines[..|lines| - 1])
  }

  /** Some message end came when the last reason named was not tool use. */
  predicate Over(carried: string, lines: seq<Line>) {
    lines != [] &&
    (|| Over(carried, lines[..|lines| - 1])
     || (EndsMessage(lines[|lines| - 1]) && LastReason(carried, lines) != "tool_use"))
  }

  /** The lines before the first such end. */
  function InTime(carried: string, lines: seq<Line>): seq<Line> {
    if lines == [] then []
    else
      var init := lines[..|lines| - 1];
      if Over(carried, init) then InTime(carried, init) else if Over(carried, lines) then init else lines
  }

  predicate Failed(lines: seq<Line>) {
    exists i :: 0 <= i < |lines| && Fails(lines[i])
  }

  // ---- What the turn's channels hold ----

  /** All text in time, in order; closed exactly if the turn is over; and one error value as soon as there is one: a failure
      if one was reported in time, else none at the end. */
  function AnswerTurn(carried: string, lines: seq<Line>): Turn {
    var heard := InTime(carried, lines);
    var errors := if Failed(heard) then [ClaudeError] else if Over(carried, lines) then [NoError] else [];
    Turn(FlatMap(AnswerText, heard), if Over(carried, lines) then 1 else 0, errors, |errors|)
  }

  ghost predicate InAnswer(s: State, before: seq<Turn>, carried: string, lines: seq<Line>) {
    && s.turns == before + [AnswerTurn(carried, lines)]
    && s.lastStopReason == LastReason(carried, lines)
    && s.tokenCh == !Over(carried, lines)
    && s.errCh == (!Over(carried, lines) && !Failed(lines))
  }

  // ---- What one line does ----

  /** The loop handles what the parser makes of one line. */
  function HandleLine(c: Cursor, s: State, line: Line): State {
    Fold(Handle, s, ParseLine(c, line))
  }

  lemma OneOrNone(c: Cursor, s: State, line: Line)
    ensures HandleLine(c, s, line) ==
            if ParseLine(c, line) == [] then s else Handle(s, ParseLine(c, line)[0])
  {
    if ParseLine(c, line) != [] {
      FoldTwo(Handle, s, ParseLine(c, line)[0], Init);
      assert ParseLine(c, line) == [ParseLine(c, line)[0]];
    }
  }

  function NextReason(reason: string, line: Line): string {
    if NamedReason(line) != "" then NamedReason(line) else reason
  }

  lemma QuietLine(c: Cursor, s: State, line: Line)
    requires !s.tokenCh && !s.errCh
    ensures var s' := HandleLine(c, s, line);
            s'.turns == s.turns && !s'.tokenCh && !s'.errCh && s'.lastStopReason == NextReason(s.lastStopReason, line)
  {
    OneOrNone(c, s, line);
    if ParseLine(c, line) != [] {
      Turns.QuietStep(s, ParseLine(c, line)[0]);
    }
  }

  lemma EndingLine(c: Cursor, s: State, before: seq<Turn>, r: Turn, line: Line)
    requires s.turns == before + [r] && s.tokenCh
    requires EndsMessage(line) && NextReason(s.lastStopReason, line) != "tool_use"
    ensures var s' := HandleLine(c, s, line);
            && !s'.tokenCh && !s'.errCh && s'.lastStopReason == NextReason(s.lastStopReason, line)
            && s'.turns == before + [r.(tokenCloses := r.tokenCloses + 1,
                                        errors := if s.errCh then r.errors + [NoError] else r.errors,
                                        errorCloses := if s.errCh then r.errorCloses + 1 else r.errorCloses)]
  {
    OneOrNone(c, s, line);
    Turns.LastTurnEnds(s, before, r, NamedReason(line));
  }

  lemma OpenLine(c: Cursor, s: State, before: seq<Turn>, r: Turn, line: Line)
    requires s.turns == before + [r] && s.tokenCh
    requires EndsMessage(line) ==> NextReason(s.lastStopReason, line) == "tool_use"
    ensures var s' := HandleLine(c, s, line);
            && s'.tokenCh && s'.errCh == (s.errCh && !Fails(line))
            && s'.lastStopReason == NextReason(s.lastStopReason, line)
            && s'.turns == before + [if Fails(line) && s.errCh then
                                       r.(errors := r.errors + [ClaudeError], errorCloses := r.errorCloses + 1)
                                     else r.(tokens := r.tokens + AnswerText(line))]
  {
    OneOrNone(c, s, line);
    assert r.tokens + [] == r.tokens;
    if ParseLine(c, line) != [] {
      Turns.LastTurnGoesOn(s, before, r, ParseLine(c, line)[0]);
    }
  }

  // ---- The lines of a turn ----

  lemma FailedSnoc(lines: seq<Line>, line: Line)
    ensures Failed(lines + [line]) <==> Failed(lines) || Fails(line)
  {
    var more := lines + [line];
    assert more[|lines|] == line;
    if i :| 0 <= i < |lines| && Fails(lines[i]) {
      assert Fails(more[i]);
    }
  }

  lemma OneMoreLine(carried: string, lines: seq<Line>, line: Line)
    ensures LastReason(carried, lines + [line]) == NextReason(LastReason(carried, lines), line)
    ensures Over(carried, lines + [line]) <==>
            Over(carried, lines) || (EndsMessage(line) && NextReason(LastReason(carried, lines), line) != "tool_use")
    ensures InTime(carried, lines + [line]) ==
            if Over(carried, lines) then InTime(carried, lines)
            else if Over(carried, lines + [line]) then lines
            else lines + [line]
  {
    assert (lines + [line])[..|lines|] == lines;
  }

  lemma {:induction false} AllInTime(carried: string, lines: seq<Line>)
    ensures !Over(carried, lines) ==> InTime(carried, lines) == lines
  {
  }

  lemma LateLine(c: Cursor, s: State, before: seq<Turn>, carried: string, lines: seq<Line>, line: Line)
    requires InAnswer(s, before, carried, lines) && Over(carried, lines)
    ensures InAnswer(HandleLine(c, s, line), before, carried, lines + [line])
  {
    QuietLine(c, s, line);
    OneMoreLine(carried, lines, line);
  }

  lemma EndLine(c: Cursor, s: State, before: seq<Turn>, carried: string, lines: seq<Line>, line: Line)
    requires InAnswer(s, before, carried, lines) && !Over(carried, lines) && Over(carried, lines + [line])
    ensures InAnswer(HandleLine(c, s, line), before, carried, lines + [line])
  {
    OneMoreLine(carried, lines, line);
    AllInTime(carried, lines);
    EndingLine(c, s, before, AnswerTurn(carried, lines), line);
    assert [] + [NoError] == [NoError];
  }

  lemma GoesOnLine(c: Cursor, s: State, before: seq<Turn>, carried: string, lines: seq<Line>, line: Line)
    requires InAnswer(s, before, carried, lines) && !Over(carried, lines + [line])
    ensures InAnswer(HandleLine(c, s, line), before, carried, lines + [line])
  {
    OneMoreLine(carried, lines, line);
    AllInTime(carried, lines);
    FailedSnoc(lines, line);
    FlatMapSnoc(AnswerText, lines, line);
    OpenLine(c, s, before, AnswerTurn(carried, lines), line);
    assert FlatMap(AnswerText, lines) + [] == FlatMap(AnswerText, lines) && [] + [ClaudeError] == [ClaudeError];
  }

  lemma LineStep(c: Cursor, s: State, before: seq<Turn>, carried: string, lines: seq<Line>, line: Line)
    requires InAnswer(s, before, carried, lines)
    ensures InAnswer(HandleLine(c, s, line), before, carried, lines + [line])
  {
    if Over(carried, lines) {
      LateLine(c, s, before, carried, lines, line);
    } else if Over(carried, lines + [line]) {
      EndLine(c, s, before, carried, lines, line);
    } else {
      GoesOnLine(c, s, before, carried, lines, line);
    }
  }

  /** The session after the lines of a turn: scanned, then handled. */
  function AfterLines(c: Cursor, s: State, lines: seq<Line>): State {
    Fold(Handle, ChatStream(s), Fold(ParseStep, ScanState(c, []), lines).out)
  }

  lemma ScanSnoc(s: State, scanned: ScanState, line: Line)
    ensures Fold(Handle, s, ParseStep(scanned, line).out) == HandleLine(scanned.cursor, Fold(Handle, s, scanned.out), line)
  {
    FoldAppend(Handle, s, scanned.out, ParseLine(scanned.cursor, line));
  }

  lemma NoLines(s: State)
    ensures InAnswer(Fold(Handle, ChatStream(s), []), s.turns, s.lastStopReason, [])
  {
  }

  /** From Claude's output to the reader, for any state and any lines of a turn: the token channel gets exactly the text
      deltas before the first message end whose reason, the last one named, is not tool use, in order; it is closed exactly
      if there is such an end; and the error value is a failure exactly if a result line reported one in time. Thinking,
      tool input and everything else add no token. */
  lemma LinesToTurn(c: Cursor, s: State, lines: seq<Line>)
    ensures AfterLines(c, s, lines).turns == s.turns + [AnswerTurn(s.lastStopReason, lines)]
  {
    var holds := (scanned: ScanState, seen: seq<Line>) =>
      InAnswer(Fold(Handle, ChatStream(s), scanned.out), s.turns, s.lastStopReason, seen);
    NoLines(s);
    forall scanned: ScanState, seen: seq<Line>, line: Line | holds(scanned, seen)
      ensures holds(ParseStep(scanned, line), seen + [line])
    {
      ScanSnoc(ChatStream(s), scanned, line);
      LineStep(scanned.cursor, Fold(Handle, ChatStream(s), scanned.out), s.turns, s.lastStopReason, seen, line);
    }
    FoldKeeps(ParseStep, ScanState(c, []), lines, holds);
  }

  // ---- What the callback is offered ----

  function Thought(e: Emitted): seq<string> {
    if e.ThinkingEmitted? then [e.token] else []
  }

  function Started(e: Emitted): seq<(string, string)> {
    if e.ToolUseEmitted? then [(e.id, e.name)] else []
  }

  function InputShown(e: Emitted): seq<(string, string)> {
    if e.ToolInputEmitted? then [(e.id, e.input)] else []
  }

  function InputUsed(l: Launch): seq<(string, string)> {
    [(l.id, l.input)]
  }

  function ThinkingText(line: Line): seq<string> {
    if line.StreamLine? && line.event.ThinkingDelta? then [line.event.text] else []
  }

  function ToolStarted(line: Line): seq<(string, string)> {
    if line.StreamLine? && line.event.BlockStart? && line.event.kind.ToolKind? then
      [(line.event.kind.id, line.event.kind.name)]
    else []
  }

  ghost predicate Offered(s: State, lines: seq<Line>) {
    && FlatMap(Thought, s.emitted) == FlatMap(ThinkingText, lines)
    && FlatMap(Started, s.emitted) == FlatMap(ToolStarted, lines)
    && FlatMap(InputShown, s.emitted) == FlatMap(InputUsed, s.launches)
  }

  /** What handling one event adds. */
  function Offer(s: State, e: ParseEvent): seq<Emitted> {
    match e
    case Thinking(t) => [ThinkingEmitted(t)]
    case ToolUse(id, name) => [ToolUseEmitted(id, name)]
    case ToolStop(id, _) => if id in s.inputs then [ToolInputEmitted(id, s.inputs[id])] else []
    case _ => []
  }

  function Launched(s: State, e: ParseEvent): seq<Launch> {
    if e.ToolStop? && e.id in s.inputs then [Launch(e.id, Get(s.names, e.id), s.inputs[e.id])] else []
  }

  lemma EventAdds(s: State, e: ParseEvent)
    ensures Handle(s, e).emitted == s.emitted + Offer(s, e)
    ensures Handle(s, e).launches == s.launches + Launched(s, e)
  {
    assert s.emitted + [] == s.emitted && s.launches + [] == s.launches;
  }

  lemma OffersShow(s: State, e: ParseEvent)
    ensures FlatMap(Thought, Offer(s, e)) == if e.Thinking? then [e.token] else []
    ensures FlatMap(Started, Offer(s, e)) == if e.ToolUse? then [(e.id, e.name)] else []
    ensures FlatMap(InputShown, Offer(s, e)) == FlatMap(InputUsed, Launched(s, e))
  {
    if Offer(s, e) != [] {
      FlatMapOne(Thought, Offer(s, e)[0]);
      FlatMapOne(Started, Offer(s, e)[0]);
      FlatMapOne(InputShown, Offer(s, e)[0]);
    }
    if Launched(s, e) != [] {
      FlatMapOne(InputUsed, Launched(s, e)[0]);
    }
  }

  lemma EventOffers(s: State, e: ParseEvent)
    ensures FlatMap(Thought, Handle(s, e).emitted) == FlatMap(Thought, s.emitted) + if e.Thinking? then [e.token] else []
    ensures FlatMap(Started, Handle(s, e).emitted) ==
            FlatMap(Started, s.emitted) + if e.ToolUse? then [(e.id, e.name)] else []
  {
    EventAdds(s, e);
    OffersShow(s, e);
    FlatMapAppend(Thought, s.emitted, Offer(s, e));
    FlatMapAppend(Started, s.emitted, Offer(s, e));
  }

  lemma EventLaunches(s: State, e: ParseEvent)
    requires FlatMap(InputShown, s.emitted) == FlatMap(InputUsed, s.launches)
    ensures FlatMap(InputShown, Handle(s, e).emitted) == FlatMap(InputUsed, Handle(s, e).launches)
  {
    EventAdds(s, e);
    OffersShow(s, e);
    FlatMapAppend(InputShown, s.emitted, Offer(s, e));
    FlatMapAppend(InputUsed, s.launches, Launched(s, e));
  }

  lemma ParsedThinking(c: Cursor, line: Line)
    ensures ParseLine(c, line) == [] ==> ThinkingText(line) == [] && ToolStarted(line) == []
    ensures ParseLine(c, line) != [] ==>
              var e := ParseLine(c, line)[0];
              && ThinkingText(line) == (if e.Thinking? then [e.token] else [])
              && ToolStarted(line) == if e.ToolUse? then [(e.id, e.name)] else []
  {
  }

  lemma OfferedSnoc(c: Cursor, s: State, lines: seq<Line>, line: Line)
    requires Offered(s, lines)
    ensures Offered(HandleLine(c, s, line), lines + [line])
  {
    FlatMapSnoc(ThinkingText, lines, line);
    FlatMapSnoc(ToolStarted, lines, line);
    ParsedThinking(c, line);
    OneOrNone(c, s, line);
    if ParseLine(c, line) == [] {
      assert FlatMap(ThinkingText, lines) + [] == FlatMap(ThinkingText, lines);
      assert FlatMap(ToolStarted, lines) + [] == FlatMap(ToolStarted, lines);
    } else {
      EventOffers(s, ParseLine(c, line)[0]);
      EventLaunches(s, ParseLine(c, line)[0]);
    }
  }

  /** Turn by turn the callback is offered all thinking, and all tool starts, in order; and one input for every launch, the
      same that the tool gets. */
  lemma LinesToCallback(c: Cursor, s: State, before: seq<Line>, lines: seq<Line>)
    requires Offered(s, before)
    ensures Offered(AfterLines(c, s, lines), before + lines)
  {
    var holds := (scanned: ScanState, seen: seq<Line>) => Offered(Fold(Handle, ChatStream(s), scanned.out), before + seen);
    assert before + [] == before;
    forall scanned: ScanState, seen: seq<Line>, line: Line | holds(scanned, seen)
      ensures holds(ParseStep(scanned, line), seen + [line])
    {
      ScanSnoc(ChatStream(s), scanned, line);
      OfferedSnoc(scanned.cursor, Fold(Handle, ChatStream(s), scanned.out), before + seen, line);
      AppendAppend(before, seen, [line]);
    }
    FoldKeeps(ParseStep, ScanState(c, []), lines, holds);
  }
}

/** Tool inputs and tool runs within one turn. */
module ClaudeTools {
  import opened Common
  import opened ClaudeParser
  import opened ClaudeSession

  /** Parser and loop in step. */
  datatype Both = Both(cursor: Cursor, session: State)

  function Feed(b: Both, e: StreamEvent): Both {
    Both(Move(b.cursor, e), Handle(b.session, ParseStream(b.cursor, e)))
  }

  function StreamLines(evs: seq<StreamEvent>): seq<Line> {
    seq(|evs|, i requires 0 <= i < |evs| => StreamLine(evs[i]))
  }

  lemma StreamLinesSnoc(evs: seq<StreamEvent>, e: StreamEvent)
    ensures StreamLines(evs + [e]) == StreamLines(evs) + [StreamLine(e)]
  {
  }

  function Scanned(c: Cursor, evs: seq<StreamEvent>): ScanState {
    Fold(ParseStep, ScanState(c, []), StreamLines(evs))
  }

  lemma ScannedSnoc(c: Cursor, evs: seq<StreamEvent>, e: StreamEvent)
    ensures Scanned(c, evs + [e]) == ParseStep(Scanned(c, evs), StreamLine(e))
  {
    StreamLinesSnoc(evs, e);
    FoldSnoc(ParseStep, ScanState(c, []), StreamLines(evs), StreamLine(e));
  }

  lemma OneMoreLine(scanned: ScanState, s: State, e: StreamEvent)
    ensures var next := ParseStep(scanned, StreamLine(e));
            Both(next.cursor, Fold(Handle, s, next.out)) == Feed(Both(scanned.cursor, Fold(Handle, s, scanned.out)), e)
  {
    FoldSnoc(Handle, s, scanned.out, ParseStream(scanned.cursor, e));
  }

  /** Scanning all lines first and handling the results afterwards is the same as going event by event. */
  lemma {:induction false} InStep(c: Cursor, s: State, evs: seq<StreamEvent>)
    ensures Both(Scanned(c, evs).cursor, Fold(Handle, s, Scanned(c, evs).out)) == Fold(Feed, Both(c, s), evs)
  {
    if evs == [] {
    } else {
      var init, e := evs[..|evs| - 1], evs[|evs| - 1];
      InStep(c, s, init);
      assert Scanned(c, evs) == ParseStep(Scanned(c, init), StreamLine(e)) by {
        ScannedSnoc(c, init, e);
        assert evs == init + [e];
      }
      OneMoreLine(Scanned(c, init), s, e);
    }
  }

  // ---- How often a tool runs, on any stream ----

  function Current(c: Cursor, evs: seq<StreamEvent>): Cursor {
    Fold(Move, c, evs)
  }

  predicate Starts(e: StreamEvent, id: string) {
    e.BlockStart? && e.kind.ToolKind? && e.kind.id == id
  }

  /** The turn has started this tool, or received input under its id. */
  ghost predicate Touched(c: Cursor, evs: seq<StreamEvent>, id: string) {
    exists j :: 0 <= j < |evs| && (Starts(evs[j], id) || (evs[j].JsonDelta? && Current(c, evs[..j]).id == id))
  }

  lemma TouchedSnoc(c: Cursor, evs: seq<StreamEvent>, e: StreamEvent, id: string)
    ensures Touched(c, evs + [e], id) <==>
            Touched(c, evs, id) || Starts(e, id) || (e.JsonDelta? && Current(c, evs).id == id)
  {
    var more := evs + [e];
    assert more[|evs|] == e && more[..|evs|] == evs;
    assert forall j :: 0 <= j < |evs| ==> more[j] == evs[j] && more[..j] == evs[..j];
    if Touched(c, evs, id) {
      var j :| 0 <= j < |evs| && (Starts(evs[j], id) || (evs[j].JsonDelta? && Current(c, evs[..j]).id == id));
      assert Starts(more[j], id) || (more[j].JsonDelta? && Current(c, more[..j]).id == id);
    }
    if Starts(e, id) || (e.JsonDelta? && Current(c, evs).id == id) {
      assert Starts(more[|evs|], id) || (more[|evs|].JsonDelta? && Current(c, more[..|evs|]).id == id);
    }
  }

  /** The block stops seen while this tool is the current one. */
  ghost function StopsOn(c: Cursor, evs: seq<StreamEvent>, id: string): nat {
    if evs == [] then 0
    else
      var init, e := evs[..|evs| - 1], evs[|evs| - 1];
      StopsOn(c, init, id) + if e.BlockStop? && Current(c, init).id == id && Touched(c, init, id) then 1 else 0
  }

  function Runs(launches: seq<Launch>, id: string): nat {
    if launches == [] then 0
    else Runs(launches[..|launches| - 1], id) + if launches[|launches| - 1].id == id then 1 else 0
  }

  lemma RunsSnoc(launches: seq<Launch>, l: Launch, id: string)
    ensures Runs(launches + [l], id) == Runs(launches, id) + if l.id == id then 1 else 0
  {
    assert (launches + [l])[..|launches|] == launches;
  }

  lemma StopRuns(b: Both, id: string)
    ensures var b' := Feed(b, BlockStop);
            && b'.session.inputs == b.session.inputs
            && Runs(b'.session.launches, id) ==
               Runs(b.session.launches, id) + if b.cursor.id == id && id in b.session.inputs then 1 else 0
  {
    if b.cursor.id in b.session.inputs {
      RunsSnoc(b.session.launches, Launch(b.cursor.id, Get(b.session.names, b.cursor.id),
                                          b.session.inputs[b.cursor.id]), id);
    }
  }

  lemma OtherRuns(b: Both, e: StreamEvent, id: string)
    requires !e.BlockStop?
    ensures var b' := Feed(b, e);
            && b'.session.launches == b.session.launches
            && (id in b'.session.inputs <==>
                id in b.session.inputs || Starts(e, id) || (e.JsonDelta? && b.cursor.id == id))
  {
  }

  /** In a turn on any stream of events, with any tool carried over from before, a tool runs as often as a block stops
      while it is current. */
  lemma {:induction false} RunsAreStops(c: Cursor, s: State, evs: seq<StreamEvent>, id: string)
    ensures var b := Fold(Feed, Both(c, ChatStream(s)), evs);
            && b.cursor == Current(c, evs)
            && (id in b.session.inputs <==> Touched(c, evs, id))
            && Runs(b.session.launches, id) == Runs(s.launches, id) + StopsOn(c, evs, id)
  {
    if evs == [] {
    } else {
      var init, e := evs[..|evs| - 1], evs[|evs| - 1];
      assert evs == init + [e];
      RunsAreStops(c, s, init, id);
      TouchedSnoc(c, init, e, id);
      var b := Fold(Feed, Both(c, ChatStream(s)), init);
      assert Fold(Feed, Both(c, ChatStream(s)), evs) == Feed(b, e);
      if e.BlockStop? {
        StopRuns(b, id);
      } else {
        OtherRuns(b, e, id);
      }
    }
  }

  function CountStops(evs: seq<StreamEvent>): nat {
    if evs == [] then 0 else CountStops(evs[..|evs| - 1]) + if evs[|evs| - 1].BlockStop? then 1 else 0
  }

  predicate StartsTool(e: StreamEvent) {
    e.BlockStart? && e.kind.ToolKind?
  }

  lemma {:induction false} NotCurrent(c: Cursor, evs: seq<StreamEvent>, id: string)
    requires c.id != id && forall i :: 0 <= i < |evs| ==> !Starts(evs[i], id)
    ensures Current(c, evs).id != id && StopsOn(c, evs, id) == 0
  {
    if evs == [] {
    } else {
      NotCurrent(c, evs[..|evs| - 1], id);
    }
  }

  lemma {:induction false} WhileCurrent(c: Cursor, pre: seq<StreamEvent>, id: string, name: string, mid: seq<StreamEvent>)
    requires c.id != id && forall i :: 0 <= i < |pre| ==> !Starts(pre[i], id)
    requires forall i :: 0 <= i < |mid| ==> !StartsTool(mid[i])
    ensures var evs := pre + [BlockStart(ToolKind(id, name))] + mid;
            Current(c, evs) == Cursor(id, name) && Touched(c, evs, id) && StopsOn(c, evs, id) == CountStops(mid)
  {
    var start := BlockStart(ToolKind(id, name));
    var begun := pre + [start];
    if mid == [] {
      NotCurrent(c, pre, id);
      FoldSnoc(Move, c, pre, start);
      TouchedSnoc(c, pre, start, id);
      assert begun[..|begun| - 1] == pre;
      assert begun + mid == begun;
    } else {
      var init, e := mid[..|mid| - 1], mid[|mid| - 1];
      WhileCurrent(c, pre, id, name, init);
      assert begun + mid == (begun + init) + [e];
      FoldSnoc(Move, c, begun + init, e);
      TouchedSnoc(c, begun + init, e, id);
      assert (begun + mid)[..|begun + mid| - 1] == begun + init;
    }
  }

  lemma {:induction false} AfterCurrent(c: Cursor, before: seq<StreamEvent>, next: StreamEvent, post: seq<StreamEvent>,
                                        id: string)
    requires StartsTool(next) && !Starts(next, id) && forall i :: 0 <= i < |post| ==> !Starts(post[i], id)
    ensures var evs := before + [next] + post;
            Current(c, evs).id != id && StopsOn(c, evs, id) == StopsOn(c, before, id)
  {
    if post == [] {
      FoldSnoc(Move, c, before, next);
      assert (before + [next])[..|before|] == before;
      assert before + [next] + post == before + [next];
    } else {
      var init, e := post[..|post| - 1], post[|post| - 1];
      AfterCurrent(c, before, next, init, id);
      assert before + [next] + post == (before + [next] + init) + [e];
      FoldSnoc(Move, c, before + [next] + init, e);
      assert (before + [next] + post)[..|before + [next] + post| - 1] == before + [next] + init;
    }
  }

  /** A tool started once in a turn runs once for every block that stops before the next tool starts or the turn ends: so
      exactly once if and only if exactly one block does. */
  lemma RunsOfOneTool(c: Cursor, s: State, pre: seq<StreamEvent>, id: string, name: string, mid: seq<StreamEvent>,
                      post: seq<StreamEvent>)
    requires c.id != id && forall i :: 0 <= i < |pre| ==> !Starts(pre[i], id)
    requires forall i :: 0 <= i < |mid| ==> !StartsTool(mid[i])
    requires post != [] ==> StartsTool(post[0])
    requires forall i :: 0 <= i < |post| ==> !Starts(post[i], id)
    ensures var evs := pre + [BlockStart(ToolKind(id, name))] + mid + post;
            Runs(Fold(Feed, Both(c, ChatStream(s)), evs).session.launches, id) == Runs(s.launches, id) + CountStops(mid)
  {
    var before := pre + [BlockStart(ToolKind(id, name))] + mid;
    WhileCurrent(c, pre, id, name, mid);
    if post == [] {
      assert before + post == before;
    } else {
      AfterCurrent(c, before, post[0], post[1..], id);
      assert before + [post[0]] + post[1..] == before + post;
    }
    RunsAreStops(c, s, before + post, id);
  }

  // ---- Streams of whole blocks ----

  /** A block of any kind with anything inside but starts and stops, or such an event between blocks. */
  datatype Item =
    | Block(kind: BlockKind, inside: seq<StreamEvent>)
    | Aside(event: StreamEvent)

  predicate Inside(e: StreamEvent) {
    !e.BlockStart? && !e.BlockStop?
  }

  ghost predicate AllInside(evs: seq<StreamEvent>) {
    forall i :: 0 <= i < |evs| ==> Inside(evs[i])
  }

  ghost predicate Proper(item: Item) {
    match item
    case Block(_, inside) => AllInside(inside)
    case Aside(e) => Inside(e)
  }

  function EventsOf(item: Item): seq<StreamEvent> {
    match item
    case Block(kind, inside) => [BlockStart(kind)] + inside + [BlockStop]
    case Aside(e) => [e]
  }

  datatype Nesting = Outside | Within | Broken

  function Nest(n: Nesting, e: StreamEvent): Nesting {
    match e
    case BlockStart(_) => if n == Outside then Within else Broken
    case BlockStop => if n == Within then Outside else Broken
    case _ => n
  }

  /** A list of whole items and a block that may still be open behind them. */
  datatype Pieces = Pieces(items: seq<Item>, kind: BlockKind, inside: seq<StreamEvent>)

  ghost predicate CutsInto(evs: seq<StreamEvent>, n: Nesting, p: Pieces) {
    && (forall i :: 0 <= i < |p.items| ==> Proper(p.items[i])) && AllInside(p.inside)
    && evs == FlatMap(EventsOf, p.items) + if n == Within then [BlockStart(p.kind)] + p.inside else []
  }

  lemma CutStop(evs: seq<StreamEvent>, p: Pieces)
    requires CutsInto(evs, Within, p)
    ensures CutsInto(evs + [BlockStop], Outside, Pieces(p.items + [Block(p.kind, p.inside)], p.kind, []))
  {
    FlatMapSnoc(EventsOf, p.items, Block(p.kind, p.inside));
    AppendAppend(FlatMap(EventsOf, p.items), [BlockStart(p.kind)] + p.inside, [BlockStop]);
  }

  lemma CutInside(evs: seq<StreamEvent>, p: Pieces, e: StreamEvent)
    requires CutsInto(evs, Within, p) && Inside(e)
    ensures CutsInto(evs + [e], Within, p.(inside := p.inside + [e]))
  {
    AppendAppend(FlatMap(EventsOf, p.items), [BlockStart(p.kind)] + p.inside, [e]);
    AppendAppend([BlockStart(p.kind)], p.inside, [e]);
  }

  lemma CutAside(evs: seq<StreamEvent>, p: Pieces, e: StreamEvent)
    requires CutsInto(evs, Outside, p) && Inside(e)
    ensures CutsInto(evs + [e], Outside, p.(items := p.items + [Aside(e)]))
  {
    FlatMapSnoc(EventsOf, p.items, Aside(e));
    assert evs == FlatMap(EventsOf, p.items);
  }

  lemma CutStart(evs: seq<StreamEvent>, p: Pieces, kind: BlockKind)
    requires CutsInto(evs, Outside, p)
    ensures CutsInto(evs + [BlockStart(kind)], Within, Pieces(p.items, kind, []))
  {
    assert evs == FlatMap(EventsOf, p.items);
  }

  lemma {:induction false} Cut(evs: seq<StreamEvent>) returns (p: Pieces)
    requires Fold(Nest, Outside, evs) != Broken
    ensures CutsInto(evs, Fold(Nest, Outside, evs), p)
  {
    if evs == [] {
      p := Pieces([], NoBlock, []);
    } else {
      var init, e := evs[..|evs| - 1], evs[|evs| - 1];
      p := Cut(init);
      assert evs == init + [e];
      match e {
        case BlockStart(kind) =>
          CutStart(init, p, kind);
          p := Pieces(p.items, kind, []);
        case BlockStop =>
          CutStop(init, p);
          p := Pieces(p.items + [Block(p.kind, p.inside)], p.kind, []);
        case _ =>
          if Fold(Nest, Outside, init) == Within {
            CutInside(init, p, e);
            p := p.(inside := p.inside + [e]);
          } else {
            CutAside(init, p, e);
            p := p.(items := p.items + [Aside(e)]);
          }
      }
    }
  }

  /** Every stream whose starts and stops alternate, and whose last block is closed, is one of whole blocks. */
  lemma WholeBlocks(evs: seq<StreamEvent>) returns (items: seq<Item>)
    requires Fold(Nest, Outside, evs) == Outside
    ensures (forall i :: 0 <= i < |items| ==> Proper(items[i])) && FlatMap(EventsOf, items) == evs
  {
    var p := Cut(evs);
    items := p.items;
  }

  function PartOf(e: StreamEvent): string {
    if e.JsonDelta? then e.part else ""
  }

  /** The in-order concatenation of the partial JSON deltas. */
  function InputOf(evs: seq<StreamEvent>): string {
    FlatMap(PartOf, evs)
  }

  predicate HasParts(evs: seq<StreamEvent>) {
    exists i :: 0 <= i < |evs| && evs[i].JsonDelta?
  }

  /** The launch that the next block stop will make: the last tool started, with its input so far. Before the turn's first
      tool only stray deltas can bring one about, under the id carried over from before. */
  function AddInput(c: Cursor, current: Option<Launch>, evs: seq<StreamEvent>): Option<Launch> {
    if current.Some? then Some(current.value.(input := current.value.input + InputOf(evs)))
    else if HasParts(evs) then Some(Launch(c.id, "", InputOf(evs)))
    else None
  }

  datatype Expected = Expected(launches: seq<Launch>, current: Option<Launch>)

  function Stopped(x: Expected): Expected {
    if x.current.Some? then x.(launches := x.launches + [x.current.value]) else x
  }

  /** What a turn of blocks launches: every tool block its tool, with all its input parts in order; and every other block
      behind a tool, that same tool again. */
  function Expect(c: Cursor, x: Expected, item: Item): Expected {
    match item
    case Block(ToolKind(id, name), inside) => Stopped(x.(current := Some(Launch(id, name, InputOf(inside)))))
    case Block(_, inside) => Stopped(x.(current := AddInput(c, x.current, inside)))
    case Aside(e) => x.(current := AddInput(c, x.current, [e]))
  }

  function Expecter(c: Cursor): (Expected, Item) -> Expected {
    (x, item) => Expect(c, x, item)
  }

  const NOTHING_YET := Expected([], None)

  ghost predicate Agrees(c: Cursor, base: seq<Launch>, b: Both, x: Expected) {
    && b.session.launches == base + x.launches
    && (x.current.None? ==> b.cursor == c && b.session.inputs == map[] && b.session.names == map[])
    && (x.current.Some? ==>
          var l := x.current.value;
          b.cursor.id == l.id && l.id in b.session.inputs && b.session.inputs[l.id] == l.input
          && Get(b.session.names, l.id) == l.name)
  }

  lemma {:induction false} NoParts(evs: seq<StreamEvent>)
    requires !HasParts(evs)
    ensures InputOf(evs) == ""
  {
    if evs == [] {
    } else {
      var init := evs[..|evs| - 1];
      assert forall i :: 0 <= i < |init| ==> init[i] == evs[i];
      NoParts(init);
      assert !evs[|evs| - 1].JsonDelta?;
    }
  }

  lemma OnePart(e: StreamEvent)
    ensures InputOf([e]) == PartOf(e)
    ensures HasParts([e]) <==> e.JsonDelta?
  {
    FlatMapSnoc(PartOf, [], e);
    assert [] + [e] == [e];
    assert [e][0] == e;
  }

  lemma HasPartsSnoc(evs: seq<StreamEvent>, e: StreamEvent)
    ensures HasParts(evs + [e]) <==> HasParts(evs) || e.JsonDelta?
  {
    var more := evs + [e];
    assert more[|evs|] == e;
    if i :| 0 <= i < |evs| && evs[i].JsonDelta? {
      assert more[i].JsonDelta?;
    }
  }

  lemma InputSnoc(c: Cursor, current: Option<Launch>, evs: seq<StreamEvent>, e: StreamEvent)
    ensures AddInput(c, current, evs + [e]) == AddInput(c, AddInput(c, current, evs), [e])
  {
    OnePart(e);
    HasPartsSnoc(evs, e);
    FlatMapSnoc(PartOf, evs, e);
    if current.Some? {
      var input := current.value.input;
      assert input + InputOf(evs + [e]) == input + InputOf(evs) + PartOf(e);
    } else if !HasParts(evs) {
      NoParts(evs);
      assert "" + PartOf(e) == PartOf(e);
    }
  }

  lemma InsideEvent(c: Cursor, base: seq<Launch>, b: Both, x: Expected, e: StreamEvent)
    requires Agrees(c, base, b, x) && Inside(e)
    ensures Agrees(c, base, Feed(b, e), x.(current := AddInput(c, x.current, [e])))
  {
    OnePart(e);
    if x.current.Some? && !e.JsonDelta? {
      assert x.current.value.input + "" == x.current.value.input;
    }
  }

  /** Whatever comes inside a block, or between blocks, adds its parts to the current tool's input and nothing else. */
  lemma {:induction false} InsideEvents(c: Cursor, base: seq<Launch>, b: Both, x: Expected, evs: seq<StreamEvent>)
    requires Agrees(c, base, b, x) && AllInside(evs)
    ensures Agrees(c, base, Fold(Feed, b, evs), x.(current := AddInput(c, x.current, evs)))
  {
    if evs == [] {
      if x.current.Some? {
        assert x.current.value.input + "" == x.current.value.input;
      }
    } else {
      var init, e := evs[..|evs| - 1], evs[|evs| - 1];
      InsideEvents(c, base, b, x, init);
      InsideEvent(c, base, Fold(Feed, b, init), x.(current := AddInput(c, x.current, init)), e);
      InputSnoc(c, x.current, init, e);
      assert evs == init + [e];
    }
  }

  lemma StopAfter(c: Cursor, base: seq<Launch>, b: Both, x: Expected)
    requires Agrees(c, base, b, x)
    ensures Agrees(c, base, Feed(b, BlockStop), Stopped(x))
  {
    if x.current.Some? {
      assert base + x.launches + [x.current.value] == base + (x.launches + [x.current.value]);
    }
  }

  lemma BlockStarts(c: Cursor, base: seq<Launch>, b: Both, x: Expected, kind: BlockKind)
    requires Agrees(c, base, b, x)
    ensures Agrees(c, base, Feed(b, BlockStart(kind)),
                   if kind.ToolKind? then x.(current := Some(Launch(kind.id, kind.name, ""))) else x)
  {
  }

  lemma FoldBlock(b: Both, kind: BlockKind, inside: seq<StreamEvent>)
    ensures Fold(Feed, b, EventsOf(Block(kind, inside))) ==
            Feed(Fold(Feed, Feed(b, BlockStart(kind)), inside), BlockStop)
  {
    FoldSnoc(Feed, b, [BlockStart(kind)] + inside, BlockStop);
    FoldAppend(Feed, b, [BlockStart(kind)], inside);
    FoldSnoc(Feed, b, [], BlockStart(kind));
    assert [] + [BlockStart(kind)] == [BlockStart(kind)];
  }

  lemma BlockAgrees(c: Cursor, base: seq<Launch>, b: Both, x: Expected, kind: BlockKind, inside: seq<StreamEvent>)
    requires Agrees(c, base, b, x) && AllInside(inside)
    ensures Agrees(c, base, Fold(Feed, b, EventsOf(Block(kind, inside))), Expect(c, x, Block(kind, inside)))
  {
    var begun := if kind.ToolKind? then x.(current := Some(Launch(kind.id, kind.name, ""))) else x;
    var b1 := Feed(b, BlockStart(kind));
    BlockStarts(c, base, b, x, kind);
    InsideEvents(c, base, b1, begun, inside);
    StopAfter(c, base, Fold(Feed, b1, inside), begun.(current := AddInput(c, begun.current, inside)));
    FoldBlock(b, kind, inside);
    assert "" + InputOf(inside) == InputOf(inside);
  }

  lemma ItemAgrees(c: Cursor, base: seq<Launch>, b: Both, x: Expected, item: Item)
    requires Agrees(c, base, b, x) && Proper(item)
    ensures Agrees(c, base, Fold(Feed, b, EventsOf(item)), Expect(c, x, item))
  {
    match item {
      case Block(kind, inside) => BlockAgrees(c, base, b, x, kind, inside);
      case Aside(e) => InsideEvents(c, base, b, x, [e]);
    }
  }

  /** For every turn made of whole blocks, whatever tool was current before it: each launch carries exactly the in-order
      concatenation of the input parts since its tool's start, and a stop carried over from an earlier turn launches
      nothing unless stray parts came first. */
  lemma {:induction false} LaunchesOfBlocks(c: Cursor, s: State, items: seq<Item>)
    requires forall i :: 0 <= i < |items| ==> Proper(items[i])
    ensures Agrees(c, s.launches, Fold(Feed, Both(c, ChatStream(s)), FlatMap(EventsOf, items)),
                   Fold(Expecter(c), NOTHING_YET, items))
  {
    if items == [] {
      assert s.launches + [] == s.launches;
    } else {
      var init, item := items[..|items| - 1], items[|items| - 1];
      assert items == init + [item];
      LaunchesOfBlocks(c, s, init);
      FlatMapSnoc(EventsOf, init, item);
      var start := Both(c, ChatStream(s));
      FoldAppend(Feed, start, FlatMap(EventsOf, init), EventsOf(item));
      ItemAgrees(c, s.launches, Fold(Feed, start, FlatMap(EventsOf, init)), Fold(Expecter(c), NOTHING_YET, init), item);
    }
  }

  predicate IsTool(item: Item) {
    item.Block? && item.kind.ToolKind?
  }

  function OwnLaunch(item: Item): seq<Launch> {
    if IsTool(item) then [Launch(item.kind.id, item.kind.name, InputOf(item.inside))] else []
  }

  /** From here on a block stop launches something. */
  predicate Arms(item: Item) {
    IsTool(item) || HasParts(if item.Block? then item.inside else [item.event])
  }

  predicate Relaunches(items: seq<Item>, i: nat, j: nat)
    requires i <= j < |items|
  {
    Arms(items[i]) && items[j].Block? && !IsTool(items[j])
  }

  ghost predicate Armed(items: seq<Item>) {
    exists i :: 0 <= i < |items| && Arms(items[i])
  }

  ghost predicate NoRelaunch(items: seq<Item>) {
    forall i, j :: 0 <= i <= j < |items| ==> !Relaunches(items, i, j)
  }

  lemma ArmedSnoc(items: seq<Item>, item: Item)
    ensures Armed(items + [item]) <==> Armed(items) || Arms(item)
    ensures NoRelaunch(items + [item]) <==>
            NoRelaunch(items) && !(item.Block? && !IsTool(item) && (Armed(items) || Arms(item)))
  {
    var more := items + [item];
    assert more[|items|] == item;
    assert forall i :: 0 <= i < |items| ==> more[i] == items[i];
    assert forall i, j :: 0 <= i <= j < |items| ==> (Relaunches(more, i, j) <==> Relaunches(items, i, j));
    if i :| 0 <= i < |items| && Arms(items[i]) {
      assert Arms(more[i]);
      assert Relaunches(more, i, |items|) <==> item.Block? && !IsTool(item);
    }
    if Arms(item) {
      assert Relaunches(more, |items|, |items|) <==> item.Block? && !IsTool(item);
    }
    if !NoRelaunch(items) {
      var i, j :| 0 <= i <= j < |items| && Relaunches(items, i, j);
      assert Relaunches(more, i, j);
    }
  }

  lemma {:induction false} LaunchCount(c: Cursor, items: seq<Item>)
    ensures var x := Fold(Expecter(c), NOTHING_YET, items);
            && (x.current.Some? <==> Armed(items))
            && |x.launches| >= |FlatMap(OwnLaunch, items)|
            && (x.launches == FlatMap(OwnLaunch, items) <==> |x.launches| == |FlatMap(OwnLaunch, items)|)
            && (|x.launches| == |FlatMap(OwnLaunch, items)| <==> NoRelaunch(items))
  {
    if items == [] {
    } else {
      var init, item := items[..|items| - 1], items[|items| - 1];
      LaunchCount(c, init);
      assert items == init + [item];
      ArmedSnoc(init, item);
      FlatMapSnoc(OwnLaunch, init, item);
      FoldSnoc(Expecter(c), NOTHING_YET, init, item);
    }
  }

  /** In a turn of whole blocks each tool block runs its tool exactly once, and nothing else runs, if and only if no other
      block follows a tool block or a stray input part. */
  lemma OncePerToolBlock(c: Cursor, s: State, items: seq<Item>)
    requires forall i :: 0 <= i < |items| ==> Proper(items[i])
    ensures Fold(Feed, Both(c, ChatStream(s)), FlatMap(EventsOf, items)).session.launches
            == s.launches + FlatMap(OwnLaunch, items) <==>
            forall i, j :: 0 <= i <= j < |items| ==> !Relaunches(items, i, j)
  {
    LaunchesOfBlocks(c, s, items);
    LaunchCount(c, items);
    var x := Fold(Expecter(c), NOTHING_YET, items);
    assert (s.launches + x.launches)[|s.launches|..] == x.launches;
    assert (s.launches + FlatMap(OwnLaunch, items))[|s.launches|..] == FlatMap(OwnLaunch, items);
  }

  /** A stream on which a tool runs twice: a text block behind it. */
  lemma RelaunchExample(c: Cursor, s: State, id: string, name: string, part: string)
    ensures var items := [Block(ToolKind(id, name), [JsonDelta(part)]), Block(TextKind, [TextDelta("done")])];
            Fold(Feed, Both(c, ChatStream(s)), FlatMap(EventsOf, items)).session.launches
            == s.launches + [Launch(id, name, part), Launch(id, name, part)]
  {
    var tool, text := Block(ToolKind(id, name), [JsonDelta(part)]), Block(TextKind, [TextDelta("done")]);
    LaunchesOfBlocks(c, s, [tool, text]);
    FoldTwo(Expecter(c), NOTHING_YET, tool, text);
    OnePart(JsonDelta(part));
    OnePart(TextDelta("done"));
    assert part + "" == part;
  }
}
