/** Asking the user before a dangerous tool runs, and answering Claude for every tool run. */
module Permission {
  import opened Common

  predicate NeedsPermission(tool: string) {
    tool in {"Bash", "Write", "Edit"}
  }

  /** What the waiting select can see: an answer, the session's end, or a minute without either. */
  datatype Signal = Response(behavior: string) | SessionClosed | TimedOut

  predicate Decisive(s: Signal) {
    !s.Response? || s.behavior == "allow" || s.behavior == "abort"
  }

  /** The first decisive signal settles the request; None while there is none. */
  function Decision(signals: seq<Signal>): Option<bool> {
    if signals == [] then None
    else if Decisive(signals[0]) then Some(signals[0] == Response("allow"))
    else Decision(signals[1..])
  }

  /** Request ids are tool ids cut to forty characters. */
  function RequestId(toolId: string): (id: string)
    ensures id <= toolId && |id| == if |toolId| < 40 then |toolId| else 40
  {
    if |toolId| > 40 then toolId[..40] else toolId
  }

  /** How often the user paused. */
  function Pauses(signals: seq<Signal>): nat {
    if signals == [] then 0
    else Pauses(signals[..|signals| - 1]) + if signals[|signals| - 1] == Response("deny") then 1 else 0
  }

  datatype ToolResult = ToolResult(id: string, output: string, isError: bool)

  datatype Event =
    | ChoiceRequest(requestId: string, tool: string, toolId: string)
    | ResultEvent(id: string, tool: string, output: string, isError: bool)

  /** A tool body: output and error flag for an input. */
  type Tools = (string, string) -> (string, bool)

  const KNOWN_TOOLS := {"Bash", "Read", "Write", "Edit", "Grep", "Glob"}

  function ExecTool(tools: Tools, name: string, input: string): (r: (string, bool))
    ensures name == "Bash" || name == "Read" || name == "Write" || name == "Edit" || name == "Grep" || name == "Glob" ==>
              r == tools(name, input)
    ensures r.1 || name == "Bash" || name == "Read" || name == "Write" || name == "Edit" || name == "Grep" || name == "Glob"
  {
    if name in KNOWN_TOOLS then tools(name, input) else ("Tool not implemented: " + name, true)
  }

  class Session {
    var registry: map<string, nat>   // request id -> channel the waiting call receives on
    var nextChannel: nat
    var stdin: seq<ToolResult>       // results written to Claude
    var events: seq<Event>           // events offered to the callback
    var executed: seq<string>        // ids of tools whose body ran

    constructor ()
      ensures registry == map[] && stdin == [] && events == [] && executed == []
    {
      registry, nextChannel, stdin, events, executed := map[], 0, [], [], [];
    }

    /** Whether an answer finds a waiting request, and on which channel it arrives. */
    method SubmitChoice(requestId: string) returns (channel: Option<nat>)
      ensures channel == if requestId in registry then Some(registry[requestId]) else None
    {
      if requestId !in registry {
        return None;
      }
      channel := Some(registry[requestId]);
    }

    /** Waits for the user. A pause replaces the channel, so that the next answer still finds the waiting call. */
    method RequestPermission(toolId: string, tool: string, signals: seq<Signal>)
        returns (decision: Option<bool>, waitingOn: nat)
      modifies this`registry, this`nextChannel, this`events
      ensures decision == Decision(signals)
      ensures events == old(events) + [ChoiceRequest(RequestId(toolId), tool, toolId)]
      ensures decision.None? ==>
                && registry == old(registry)[RequestId(toolId) := waitingOn]
                && waitingOn == old(nextChannel) + Pauses(signals) && nextChannel == waitingOn + 1
      ensures decision.Some? ==> registry == old(registry) - {RequestId(toolId)}
    {
      var requestId := RequestId(toolId);
      events := events + [ChoiceRequest(requestId, tool, toolId)];
      waitingOn := nextChannel;
      nextChannel := nextChannel + 1;
      registry := registry[requestId := waitingOn];
      for i := 0 to |signals|
        invariant Decision(signals) == Decision(signals[i..])
        invariant events == old(events) + [ChoiceRequest(requestId, tool, toolId)]
        invariant registry == old(registry)[requestId := waitingOn]
        invariant waitingOn == old(nextChannel) + Pauses(signals[..i]) && nextChannel == waitingOn + 1
      {
        assert signals[..i + 1][..i] == signals[..i];
        match signals[i] {
          case SessionClosed =>
            registry := registry - {requestId};
            return Some(false), waitingOn;
          case TimedOut =>
            registry := registry - {requestId};
            return Some(false), waitingOn;
          case Response(behavior) =>
            if behavior == "allow" {
              registry := registry - {requestId};
              return Some(true), waitingOn;
            } else if behavior == "abort" {
              registry := registry - {requestId};
              return Some(false), waitingOn;
            } else if behavior == "deny" {
              waitingOn := nextChannel;
              nextChannel := nextChannel + 1;
              registry := registry[requestId := waitingOn];
            }
        }
      }
      assert signals[..|signals|] == signals;
      decision := None;
    }

    method SendToolResult(id: string, output: string, isError: bool)
      modifies this`stdin
      ensures stdin == old(stdin) + [ToolResult(id, output, isError)]
    {
      stdin := stdin + [ToolResult(id, output, isError)];
    }

    /** One tool run: the body runs if and only if no permission is needed or the first decisive signal allows it; and,
        once decided, exactly one result goes to Claude, and the same to the callback. */
    method ExecuteAndRespond(id: string, tool: string, input: string, tools: Tools, signals: seq<Signal>)
        returns (finished: bool)
      modifies this
      ensures finished <==> !NeedsPermission(tool) || Decision(signals).Some?
      ensures tool != "Bash" && tool != "Write" && tool != "Edit" ==> finished && executed == old(executed) + [id]
      ensures var ran := !NeedsPermission(tool) || Decision(signals) == Some(true);
              executed == old(executed) + if ran then [id] else []
      ensures var asked := if NeedsPermission(tool) then [ChoiceRequest(RequestId(id), tool, id)] else [];
              if !finished then stdin == old(stdin) && events == old(events) + asked
              else
                && |stdin| == |old(stdin)| + 1 && stdin[..|old(stdin)|] == old(stdin)
                && var r := stdin[|old(stdin)|];
                   && r.id == id
                   && events == old(events) + asked + [ResultEvent(id, tool, r.output, r.isError)]
                   && (r.output, r.isError) ==
                      if NeedsPermission(tool) && Decision(signals) == Some(false)
                      then ("Permission denied for " + tool, true)
                      else ExecTool(tools, tool, input)
    {
      if NeedsPermission(tool) {
        var decision, _ := RequestPermission(id, tool, signals);
        if decision.None? {
          return false;
        }
        if !decision.value {
          SendToolResult(id, "Permission denied for " + tool, true);
          events := events + [ResultEvent(id, tool, "Permission denied for " + tool, true)];
          return true;
        }
      }
      executed := executed + [id];
      var (output, isError) := ExecTool(tools, tool, input);
      SendToolResult(id, output, isError);
      events := events + [ResultEvent(id, tool, output, isError)];
      finished := true;
    }
  }

  /** Which tools ask first. */
  lemma DangerousTools(tool: string)
    ensures NeedsPermission(tool) <==> tool == "Bash" || tool == "Write" || tool == "Edit"
  {
  }

  /** An answer that is neither "allow" nor "abort": a pause, or one the loop does not know. */
  predicate Undecided(s: Signal) {
    match s
    case Response(behavior) => behavior != "allow" && behavior != "abort"
    case _ => false
  }

  ghost predicate OnlyUndecided(signals: seq<Signal>, k: nat)
    requires k <= |signals|
  {
    forall j :: 0 <= j < k ==> Undecided(signals[j])
  }

  lemma {:induction false} DecidedAt(signals: seq<Signal>, k: nat)
    requires k < |signals| && OnlyUndecided(signals, k) && !Undecided(signals[k])
    ensures Decision(signals) == Some(signals[k] == Response("allow"))
  {
    if k == 0 {
    } else {
      assert Undecided(signals[0]);
      DecidedAt(signals[1..], k - 1);
    }
  }

  lemma {:induction false} NeverDecided(signals: seq<Signal>)
    requires OnlyUndecided(signals, |signals|)
    ensures Decision(signals).None?
  {
    if signals == [] {
    } else {
      assert Undecided(signals[0]);
      NeverDecided(signals[1..]);
    }
  }

  lemma {:induction false} SomeDecides(signals: seq<Signal>)
    ensures OnlyUndecided(signals, |signals|) || exists k :: 0 <= k < |signals| && OnlyUndecided(signals, k) && !Undecided(signals[k])
  {
    if signals == [] {
    } else {
      var init := signals[..|signals| - 1];
      SomeDecides(init);
      if k :| 0 <= k < |init| && OnlyUndecided(init, k) && !Undecided(init[k]) {
        assert OnlyUndecided(signals, k) && !Undecided(signals[k]);
      } else {
        assert OnlyUndecided(init, |init|);
        assert OnlyUndecided(signals, |init|);
      }
    }
  }

  /** The recursive decision in terms of positions and of the answers themselves: a request is allowed if and only if some
      signal is "allow", and it is denied if and only if some signal is "abort", the session's end or a timeout, in both
      cases with nothing before it but other answers; and it stays open if and only if there are only other answers. */
  lemma FirstDecisive(signals: seq<Signal>)
    ensures Decision(signals) == Some(true) <==>
            exists k :: 0 <= k < |signals| && OnlyUndecided(signals, k) && signals[k] == Response("allow")
    ensures Decision(signals) == Some(false) <==>
            exists k :: 0 <= k < |signals| && OnlyUndecided(signals, k)
                     && (signals[k] == Response("abort") || signals[k] == SessionClosed || signals[k] == TimedOut)
    ensures Decision(signals).None? <==> OnlyUndecided(signals, |signals|)
  {
    SomeDecides(signals);
    if OnlyUndecided(signals, |signals|) {
      NeverDecided(signals);
    } else {
      var k :| 0 <= k < |signals| && OnlyUndecided(signals, k) && !Undecided(signals[k]);
      DecidedAt(signals, k);
      forall i | 0 <= i < |signals| && OnlyUndecided(signals, i) && !Undecided(signals[i])
        ensures Decision(signals) == Some(signals[i] == Response("allow"))
      {
        DecidedAt(signals, i);
      }
    }
  }

  function Responses(answers: seq<string>): seq<Signal> {
    seq(|answers|, i requires 0 <= i < |answers| => Response(answers[i]))
  }

  /** Any number of answers that are neither "allow" nor "abort" leaves the request undecided; then the next one counts. */
  lemma {:induction false} PausesDecideNothing(answers: seq<string>, signals: seq<Signal>)
    requires forall i :: 0 <= i < |answers| ==> answers[i] != "allow" && answers[i] != "abort"
    ensures Decision(Responses(answers) + signals) == Decision(signals)
    ensures Decision(Responses(answers)) == None
  {
    if answers == [] {
      assert Responses(answers) + signals == signals;
    } else {
      assert Responses(answers)[1..] == Responses(answers[1..]);
      assert (Responses(answers) + signals)[1..] == Responses(answers[1..]) + signals;
      PausesDecideNothing(answers[1..], signals);
    }
  }

  /** After any such answers "allow" allows; and "abort", the session's end and a timeout each deny. */
  lemma PausedThenDecided(answers: seq<string>, rest: seq<Signal>)
    requires forall i :: 0 <= i < |answers| ==> answers[i] != "allow" && answers[i] != "abort"
    ensures Decision(Responses(answers) + ([Response("allow")] + rest)) == Some(true)
    ensures Decision(Responses(answers) + ([Response("abort")] + rest)) == Some(false)
    ensures Decision(Responses(answers) + ([SessionClosed] + rest)) == Some(false)
    ensures Decision(Responses(answers) + ([TimedOut] + rest)) == Some(false)
  {
    PausesDecideNothing(answers, [Response("allow")] + rest);
    PausesDecideNothing(answers, [Response("abort")] + rest);
    PausesDecideNothing(answers, [SessionClosed] + rest);
    PausesDecideNothing(answers, [TimedOut] + rest);
  }
}

/** Several tool runs that wait for permission at once. Request ids are tool ids, so two runs of one tool share one. */
module PermissionRuns {
  import opened Common
  import Permission

  type Call = nat

  /** A channel is made, and read, by one waiting call; a pause makes that call's next one. */
  datatype Chan = Chan(call: Call, number: nat)

  datatype Wait = Wait(requestId: string, chan: Chan)

  datatype Outcome = Allowed | Aborted | Expired

  datatype State = State(registry: map<string, Chan>, waits: map<Call, Wait>, outcomes: map<Call, Outcome>)

  const START := State(map[], map[], map[])

  /** Expire stands for the minute without an answer and for the end of the session. */
  datatype Step = Ask(call: Call, toolId: string) | Answer(requestId: string, behavior: string) | Expire(call: Call)

  /** The call an answer reaches, if it finds one. */
  function Target(s: State, requestId: string): Option<Call> {
    if requestId in s.registry then
      var ch := s.registry[requestId];
      if ch.call in s.waits && s.waits[ch.call].chan == ch then Some(ch.call) else None
    else None
  }

  /** A call that ends deletes the entry under its request id, whoever made it. */
  function End(s: State, k: Call, o: Outcome): State
    requires k in s.waits
  {
    State(s.registry - {s.waits[k].requestId}, s.waits - {k}, s.outcomes[k := o])
  }

  function Pause(s: State, k: Call): State
    requires k in s.waits
  {
    var w := s.waits[k];
    var next := Chan(k, w.chan.number + 1);
    s.(registry := s.registry[w.requestId := next], waits := s.waits[k := w.(chan := next)])
  }

  /** An id that is in use, or was, is not a new call. */
  predicate Fresh(s: State, k: Call) {
    k !in s.waits && k !in s.outcomes
  }

  function Next(s: State, step: Step): State {
    match step
    case Ask(k, toolId) =>
      var r := Permission.RequestId(toolId);
      if !Fresh(s, k) then s
      else s.(registry := s.registry[r := Chan(k, 0)], waits := s.waits[k := Wait(r, Chan(k, 0))])
    case Answer(r, behavior) =>
      var k := Target(s, r);
      if k.None? then s
      else if behavior == "allow" then End(s, k.value, Allowed)
      else if behavior == "abort" then End(s, k.value, Aborted)
      else if behavior == "deny" then Pause(s, k.value)
      else s
    case Expire(k) => if k in s.waits then End(s, k, Expired) else s
  }

  /** Every entry names a channel that the call it belongs to waits on, under that id. */
  ghost predicate Inv(s: State) {
    && (forall r <- s.registry ::
          s.registry[r].call in s.waits && s.waits[s.registry[r].call] == Wait(r, s.registry[r]))
    && (forall k <- s.waits :: s.waits[k].chan.call == k && k !in s.outcomes)
  }

  lemma {:induction false} RunKeeps(s: State, steps: seq<Step>)
    requires Inv(s)
    ensures Inv(Fold(Next, s, steps))
  {
    if steps == [] {
    } else {
      RunKeeps(s, steps[..|steps| - 1]);
    }
  }

  // ---- Which call an answer reaches ----

  predicate AsksUnder(s: State, step: Step, r: string) {
    step.Ask? && Fresh(s, step.call) && Permission.RequestId(step.toolId) == r
  }

  /** A step that ends a call waiting under this id, not necessarily the one that registered last. */
  predicate EndsUnder(s: State, step: Step, r: string) {
    match step
    case Ask(_, _) => false
    case Answer(q, behavior) => q == r && Target(s, r).Some? && (behavior == "allow" || behavior == "abort")
    case Expire(k) => k in s.waits && s.waits[k].requestId == r
  }

  /** Call k asked under r, and since then no call has asked under r and none waiting under r has ended. */
  ghost predicate AskedLast(steps: seq<Step>, r: string, k: Call) {
    steps != [] &&
    var init, last := steps[..|steps| - 1], steps[|steps| - 1];
    var s := Fold(Next, START, init);
    || (AsksUnder(s, last, r) && last.call == k)
    || (AskedLast(init, r, k) && !AsksUnder(s, last, r) && !EndsUnder(s, last, r))
  }

  lemma StepOfTarget(s: State, step: Step, r: string, k: Call)
    requires Inv(s)
    ensures Target(Next(s, step), r) == Some(k) <==>
            || (AsksUnder(s, step, r) && step.call == k)
            || (Target(s, r) == Some(k) && !AsksUnder(s, step, r) && !EndsUnder(s, step, r))
  {
  }

  /** In every run an answer reaches exactly the call that was the last to ask under its request id, and only while no call
      waiting under that id has ended since: pauses do not matter. */
  lemma {:induction false} AnswerReaches(steps: seq<Step>, r: string, k: Call)
    ensures Target(Fold(Next, START, steps), r) == Some(k) <==> AskedLast(steps, r, k)
  {
    if steps == [] {
    } else {
      var init := steps[..|steps| - 1];
      AnswerReaches(init, r, k);
      RunKeeps(START, init);
      StepOfTarget(Fold(Next, START, init), steps[|steps| - 1], r, k);
    }
  }

  // ---- Overlapping waits ----

  /** The call waits where no answer can reach it. */
  predicate Shadowed(s: State, k: Call) {
    k in s.waits && Target(s, s.waits[k].requestId) != Some(k)
  }

  lemma StaysShadowed(s: State, step: Step, k: Call)
    requires Inv(s) && Shadowed(s, k)
    ensures Shadowed(Next(s, step), k) || (k in Next(s, step).outcomes && Next(s, step).outcomes[k] == Expired)
  {
  }

  lemma OutcomesStay(s: State, step: Step, k: Call)
    requires Inv(s) && k in s.outcomes
    ensures k in Next(s, step).outcomes && Next(s, step).outcomes[k] == s.outcomes[k]
  {
  }

  /** Once out of reach, a call is never answered again: it waits, or it has run out. */
  lemma {:induction false} ShadowedForever(s: State, steps: seq<Step>, k: Call)
    requires Inv(s) && Shadowed(s, k)
    ensures var s' := Fold(Next, s, steps);
            Shadowed(s', k) || (k in s'.outcomes && s'.outcomes[k] == Expired)
  {
    if steps == [] {
    } else {
      var init, last := steps[..|steps| - 1], steps[|steps| - 1];
      ShadowedForever(s, init, k);
      RunKeeps(s, init);
      if Shadowed(Fold(Next, s, init), k) {
        StaysShadowed(Fold(Next, s, init), last, k);
      } else {
        OutcomesStay(Fold(Next, s, init), last, k);
      }
    }
  }

  /** Two runs of one tool: when a second call asks under the id of one that waits, the first can only run out; and when
      either ends, the user can no longer reach the other. */
  lemma SecondAskShadows(s: State, first: Call, second: Call, toolId: string, steps: seq<Step>)
    requires Inv(s) && Fresh(s, second)
    requires first in s.waits && s.waits[first].requestId == Permission.RequestId(toolId)
    ensures var s' := Fold(Next, Next(s, Ask(second, toolId)), steps);
            Shadowed(s', first) || (first in s'.outcomes && s'.outcomes[first] == Expired)
    ensures Shadowed(Next(Next(s, Ask(second, toolId)), Expire(first)), second)
  {
    ShadowedForever(Next(s, Ask(second, toolId)), steps, first);
  }

  /** The shortest such run: the first call can no longer be answered, and once it runs out neither can the second. */
  lemma SecondAskExample(toolId: string)
    ensures Shadowed(Fold(Next, START, [Ask(1, toolId), Ask(2, toolId)]), 1)
    ensures Shadowed(Next(Fold(Next, START, [Ask(1, toolId), Ask(2, toolId)]), Expire(1)), 2)
  {
    FoldTwo(Next, START, Ask(1, toolId), Ask(2, toolId));
    SecondAskShadows(Next(START, Ask(1, toolId)), 1, 2, toolId, []);
  }

  ghost predicate AllReachable(s: State) {
    forall k <- s.waits :: Target(s, s.waits[k].requestId) == Some(k)
  }

  /** Every waiting call can be answered now and after each of the steps. */
  ghost predicate AlwaysReachable(s: State, steps: seq<Step>)
    decreases |steps|
  {
    AllReachable(s) && (steps == [] || AlwaysReachable(Next(s, steps[0]), steps[1..]))
  }

  ghost predicate Overlaps(s: State, step: Step) {
    step.Ask? && Fresh(s, step.call) && exists k <- s.waits :: s.waits[k].requestId == Permission.RequestId(step.toolId)
  }

  /** No call asks under an id while another one waits under it. */
  ghost predicate NoOverlap(s: State, steps: seq<Step>)
    decreases |steps|
  {
    steps == [] || (!Overlaps(s, steps[0]) && NoOverlap(Next(s, steps[0]), steps[1..]))
  }

  lemma StepReachable(s: State, step: Step)
    requires Inv(s) && AllReachable(s)
    ensures Inv(Next(s, step))
    ensures AllReachable(Next(s, step)) <==> !Overlaps(s, step)
  {
    if Overlaps(s, step) {
      var k :| k in s.waits && s.waits[k].requestId == Permission.RequestId(step.toolId);
      assert k in Next(s, step).waits && Target(Next(s, step), Permission.RequestId(step.toolId)) != Some(k);
    }
  }

  /** In a run every waiting call can be answered at all times if and only if no two calls wait under one id. */
  lemma {:induction false} ReachableUnlessOverlap(s: State, steps: seq<Step>)
    requires Inv(s) && AllReachable(s)
    ensures AlwaysReachable(s, steps) <==> NoOverlap(s, steps)
    decreases |steps|
  {
    if steps == [] {
    } else {
      StepReachable(s, steps[0]);
      if !Overlaps(s, steps[0]) {
        ReachableUnlessOverlap(Next(s, steps[0]), steps[1..]);
      }
    }
  }

  // ---- Each call decides as it would alone ----

  /** What a step of the run is for one waiting call. */
  function SignalFor(s: State, step: Step, k: Call): seq<Permission.Signal> {
    match step
    case Ask(_, _) => []
    case Answer(r, behavior) => if Target(s, r) == Some(k) then [Permission.Response(behavior)] else []
    case Expire(j) => if j == k && k in s.waits then [Permission.TimedOut] else []
  }

  ghost function SignalsFor(steps: seq<Step>, k: Call): seq<Permission.Signal> {
    if steps == [] then []
    else
      var init := steps[..|steps| - 1];
      SignalsFor(init, k) + SignalFor(Fold(Next, START, init), steps[|steps| - 1], k)
  }

  /** Where a call is, by the decision of its signals. */
  ghost predicate Settled(s: State, k: Call, signals: seq<Permission.Signal>) {
    && (k in s.waits ==> Permission.Decision(signals) == None)
    && (k in s.outcomes ==> Permission.Decision(signals) == Some(s.outcomes[k] == Allowed))
    && (k !in s.waits && k !in s.outcomes ==> signals == [])
  }

  lemma {:induction false} DecisionSnoc(signals: seq<Permission.Signal>, last: Permission.Signal)
    ensures Permission.Decision(signals + [last]) ==
            if Permission.Decision(signals).Some? then Permission.Decision(signals) else Permission.Decision([last])
  {
    if signals == [] {
      assert [] + [last] == [last];
    } else {
      assert (signals + [last])[1..] == signals[1..] + [last];
      if !Permission.Decisive(signals[0]) {
        DecisionSnoc(signals[1..], last);
      }
    }
  }

  lemma SettledStep(s: State, step: Step, k: Call, signals: seq<Permission.Signal>)
    requires Inv(s) && Settled(s, k, signals)
    ensures Settled(Next(s, step), k, signals + SignalFor(s, step, k))
  {
    var more := SignalFor(s, step, k);
    if more == [] {
      assert signals + [] == signals;
    } else {
      DecisionSnoc(signals, more[0]);
      Permission.FirstDecisive(more);
    }
  }

  /** In every run of overlapping calls, each one waits, is allowed, or is denied, exactly as the signals that reached it
      decide. */
  lemma {:induction false} EachCallDecides(steps: seq<Step>, k: Call)
    ensures Settled(Fold(Next, START, steps), k, SignalsFor(steps, k))
  {
    if steps == [] {
    } else {
      var init := steps[..|steps| - 1];
      EachCallDecides(init, k);
      RunKeeps(START, init);
      SettledStep(Fold(Next, START, init), steps[|steps| - 1], k, SignalsFor(init, k));
    }
  }
}
