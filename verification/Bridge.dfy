/** The agent's end of the tunnel: introduction after a (re)connect, forwarded requests, and the session tokens that are
    bound again after every reconnect. */
module Bridge {
  import opened Common
  import opened Wire
  import RW = ResponseWriter

  type Token = string
  type Rid = string

  datatype Outgoing = Register | SessionBind(session: Token) | Response(rid: Rid, m: Msg)

  function Binds(tokens: seq<Token>): seq<Outgoing> {
    seq(|tokens|, i requires 0 <= i < |tokens| => SessionBind(tokens[i]))
  }

  /** What a bridge says first on a new connection. */
  function Introduction(tokens: seq<Token>): seq<Outgoing> {
    [Register] + Binds(tokens)
  }

  function Responses(rid: Rid, ms: seq<Msg>): seq<Outgoing> {
    seq(|ms|, i requires 0 <= i < |ms| => Response(rid, ms[i]))
  }

  /** What is left of some messages when those with these numbers are lost. */
  function Kept(ms: seq<Msg>, lost: set<nat>): seq<Msg> {
    if ms == [] then []
    else
      var n: nat := |ms| - 1;
      Kept(ms[..n], lost) + if n in lost then [] else [ms[n]]
  }

  lemma KeptSnoc(ms: seq<Msg>, m: Msg, lost: set<nat>)
    ensures Kept(ms + [m], lost) == Kept(ms, lost) + if |ms| in lost then [] else [m]
  {
    assert (ms + [m])[..|ms|] == ms;
  }

  /** The relay can receive any selection of a response's messages, but nothing else. */
  lemma {:induction false} KeptIsSelection(ms: seq<Msg>, lost: set<nat>)
    ensures Subsequence(Kept(ms, lost), ms)
  {
    if ms == [] {
    } else {
      var init, m := ms[..|ms| - 1], ms[|ms| - 1];
      KeptIsSelection(init, lost);
      assert ms == init + [m];
      KeptSnoc(init, m, lost);
      if |init| in lost {
        assert Kept(init, lost) + [] == Kept(init, lost);
        SubsequenceSkip(Kept(init, lost), init, m);
      } else {
        SubsequenceKeep(Kept(init, lost), init, m);
      }
    }
  }

  /** The session token found in the body of a pairing reply, if any; JSON decoding is not modelled. */
  type TokenReader = seq<byte> -> Option<Token>

  /** The session a handled request binds, if it binds one. */
  function Bound(path: string, calls: seq<RW.Call>, reader: TokenReader): Option<Token> {
    var s := RW.Finalize(RW.AfterCalls(calls));
    if path == "/api/pair" && s.statusCode == 200 && reader(s.body).GetOr("") != "" then reader(s.body) else None
  }

  /** What goes out for one request: its messages, and the session it binds. */
  function Answer(rid: Rid, ms: seq<Msg>, bound: Option<Token>): seq<Outgoing> {
    Responses(rid, ms) + if bound.Some? then [SessionBind(bound.value)] else []
  }

  class RelayBridge {
    var activeReqs: set<Rid>
    var sessionTokens: seq<Token>
    var written: seq<Outgoing>  // messages written to the current connection, in order

    constructor ()
      ensures activeReqs == {} && sessionTokens == [] && written == []
    {
      activeReqs, sessionTokens, written := {}, [], [];
    }

    /** A fresh connection: register, then bind every known session again. Write number `budget` is the first that
        fails; after a failed write nothing more is sent. */
    method Introduce(budget: nat) returns (ok: bool)
      modifies this`written
      ensures ok <==> |Introduction(sessionTokens)| <= budget
      ensures ok ==> written == Introduction(sessionTokens)
      ensures written <= Introduction(sessionTokens)
    {
      written := [];
      if budget == 0 {
        return false;
      }
      written := [Register];
      var tokens := sessionTokens;
      for i := 0 to |tokens|
        invariant i < budget && written == Introduction(tokens[..i])
      {
        assert Introduction(tokens[..i]) <= Introduction(tokens);
        if i + 1 == budget {
          return false;
        }
        assert tokens[..i + 1] == tokens[..i] + [tokens[i]];
        assert Binds(tokens[..i + 1]) == Binds(tokens[..i]) + [SessionBind(tokens[i])];
        written := written + [SessionBind(tokens[i])];
      }
      assert tokens[..|tokens|] == tokens;
      ok := true;
    }

    /** A forwarded request: the handler's calls become messages under the request's id, of which some may be lost: write
        errors are ignored, and message number i is written to a dead connection if i is in `lost`. A successful pairing
        also binds its session, and remembers it if that message could be written; a token of fewer than sixteen characters
        then ends the whole agent, in a log line. */
    method HandleRequest(rid: Rid, path: string, wellFormed: bool, calls: seq<RW.Call>, lost: set<nat>, reader: TokenReader,
                         bindOk: bool) returns (crashed: bool)
      modifies this
      ensures activeReqs == old(activeReqs) - {rid}
      ensures !wellFormed ==>
                && written == old(written) + Responses(rid, Kept([Err(400, "bad request")], lost))
                && sessionTokens == old(sessionTokens) && !crashed
      ensures wellFormed ==>
                var b := if bindOk then Bound(path, calls, reader) else None;
                && written == old(written) + Answer(rid, Kept(RW.Output(calls), lost), b)
                && sessionTokens == old(sessionTokens) + (if b.Some? then [b.value] else [])
                && (crashed <==> b.Some? && |b.value| < 16)
    {
      activeReqs := activeReqs + {rid};
      if !wellFormed {
        Send(rid, [Err(400, "bad request")], lost);
        activeReqs := activeReqs - {rid};
        return false;
      }
      var w := new RW.RelayResponseWriter();
      Serve(w, calls);
      w.Finish();
      Send(rid, w.sent, lost);
      crashed := false;
      if path == "/api/pair" && w.statusCode == 200 {
        crashed := BindSession(reader(w.body), bindOk);
      }
      activeReqs := activeReqs - {rid};
    }

    /** Writes messages one by one and goes on after a failed write. */
    method Send(rid: Rid, ms: seq<Msg>, lost: set<nat>)
      modifies this`written
      ensures written == old(written) + Responses(rid, Kept(ms, lost))
    {
      for i := 0 to |ms|
        invariant written == old(written) + Responses(rid, Kept(ms[..i], lost))
      {
        KeptSnoc(ms[..i], ms[i], lost);
        assert ms[..i + 1] == ms[..i] + [ms[i]];
        if i !in lost {
          written := written + [Response(rid, ms[i])];
        }
      }
      assert ms[..|ms|] == ms;
    }

    /** The agent's HTTP handler, acting on the writer. */
    method Serve(w: RW.RelayResponseWriter, calls: seq<RW.Call>)
      modifies w
      ensures w.Now() == Fold(RW.Apply, old(w.Now()), calls)
    {
      ghost var start := w.Now();
      for i := 0 to |calls|
        invariant w.Now() == Fold(RW.Apply, start, calls[..i])
      {
        FoldSnoc(RW.Apply, start, calls[..i], calls[i]);
        assert calls[..i + 1] == calls[..i] + [calls[i]];
        match calls[i] {
          case WriteHeader(code) => w.WriteHeader(code);
          case Write(data) => var _ := w.Write(data);
          case Flush => w.Flush();
        }
      }
      assert calls[..|calls|] == calls;
    }

    method BindSession(found: Option<Token>, bindOk: bool) returns (crashed: bool)
      modifies this`written, this`sessionTokens
      ensures var bind := found.GetOr("") != "" && bindOk;
              && written == (if bind then old(written) + [SessionBind(found.value)] else old(written))
              && sessionTokens == old(sessionTokens) + (if bind then [found.value] else [])
              && (crashed <==> bind && |found.value| < 16)
    {
      if found.None? || found.value == "" || !bindOk {
        return false;
      }
      written := written + [SessionBind(found.value)];
      sessionTokens := sessionTokens + [found.value];
      // the log line cuts sixteen characters off the token
      crashed := |found.value| < 16;
    }

    /** The relay withdraws a request. */
    method Cancel(rid: Rid) returns (cancelled: bool)
      modifies this`activeReqs
      ensures cancelled <==> rid in old(activeReqs)
      ensures activeReqs == old(activeReqs) - {rid}
    {
      cancelled := rid in activeReqs;
      activeReqs := activeReqs - {rid};
    }
  }

  /** A handler that does not flush binds a session exactly when it answers a pairing with a status of 200 that it set or
      caused by writing, and a token is in the bytes it wrote; then it binds that token. */
  lemma PairingBindsItsReply(path: string, calls: seq<RW.Call>, reader: TokenReader)
    requires !RW.Streamed(calls)
    ensures Bound(path, calls, reader) ==
            if path == "/api/pair" && RW.Settled(calls) == 200 && (exists i :: 0 <= i < |calls| && RW.Settles(calls[i]))
               && reader(RW.Written(calls)).Some? && reader(RW.Written(calls)).value != ""
            then reader(RW.Written(calls)) else None
  {
    RW.BodyKept(calls);
    RW.CallsDescribed(calls);
  }
}

/** After a reconnect the relay knows every session of the bridge again. */
module Recovery {
  import opened Common
  import opened Hub
  import opened HubRuns
  import Bridge

  /** The relay's step for a message the bridge wrote on connection c. */
  function StepFor(c: Conn, visibility: string, m: Bridge.Outgoing): Step {
    match m
    case Register => ReRegister(c, visibility)
    case SessionBind(s) => BindMessage(c, s)
    case Response(rid, r) => Reply(c, rid, r)
  }

  /** Steps of others may come in any number and order, except that nobody takes the new connection away, no other peer
      uses this peer's token or sessions, and tokens have their full length. `older` are the peer's earlier connections. */
  predicate Harmless(step: Step, c: Conn, p: Peer, token: Token, sessions: set<Token>, older: set<Conn>) {
    match step
    case Connect(d, q, t) => q != p && t != token
    case Break(d) => d != c
    case Disconnect(d) => d != c
    case RemovePeer(q) => q != p
    case BindMessage(d, s) => if d == c then |s| >= 16 else d in older || s !in sessions
    case _ => true
  }

  ghost predicate Recovered(w: World, c: Conn, p: Peer, token: Token, bound: set<Token>) {
    && IsOpen(w, c) && w.links[c].peer == p && w.links[c].token == token
    && p in w.hub.agents && w.hub.agents[p].conn == c
    && (forall d <- w.links :: w.links[d].token == token ==> w.links[d].peer == p)
    && token in w.hub.byPairToken && w.hub.byPairToken[token] == p
    && forall s <- bound :: s in w.hub.bySession && w.hub.bySession[s] == p
  }

  ghost predicate Earlier(w: World, older: set<Conn>, p: Peer) {
    forall d <- older :: d in w.links && w.links[d].peer == p
  }

  lemma StillEarlier(w: World, step: Step, older: set<Conn>, p: Peer)
    requires Earlier(w, older, p)
    ensures Earlier(Next(w, step), older, p)
  {
  }

  lemma ConnectionIsRegistered(w: World, c: Conn, p: Peer, token: Token)
    requires LinksSound(w.hub, w.links) && c !in w.links && p != "" && token != ""
    requires forall d <- w.links :: w.links[d].token == token ==> w.links[d].peer == p
    ensures Recovered(Next(w, Connect(c, p, token)), c, p, token, {})
  {
  }

  lemma RegisteringKeepsRecovered(w: World, q: Peer, t: Token, d: Conn, v: string, c: Conn, p: Peer, token: Token,
                                  bound: set<Token>)
    requires Recovered(w, c, p, token, bound) && d in w.links && w.links[d].peer == q && w.links[d].token == t
    requires q == p ==> d == c
    requires q != p ==> t != token && (q in w.hub.agents ==> w.hub.agents[q].conn != c)
    requires c !in w.hub.hungUp
    ensures Recovered(Registering(w, q, t, d, v), c, p, token, bound)
  {
  }

  lemma RemovingKeepsRecovered(w: World, q: Peer, c: Conn, p: Peer, token: Token, bound: set<Token>)
    requires Recovered(w, c, p, token, bound) && LinksSound(w.hub, w.links) && q != p
    ensures Recovered(Removing(w, q), c, p, token, bound)
  {
  }

  lemma DepartureKeepsRecovered(w: World, d: Conn, c: Conn, p: Peer, token: Token, bound: set<Token>)
    requires Recovered(w, c, p, token, bound) && LinksSound(w.hub, w.links) && d in w.links && d != c
    ensures Recovered(Departing(w, d), c, p, token, bound)
  {
    if w.links[d].peer != p {
      RemovingKeepsRecovered(w, w.links[d].peer, c, p, token, bound);
    }
  }

  lemma BindingKeepsRecovered(w: World, d: Conn, s: Token, c: Conn, p: Peer, token: Token, sessions: set<Token>,
                              bound: set<Token>)
    requires Recovered(w, c, p, token, bound) && bound <= sessions && IsOpen(w, d) && (d != c ==> s !in sessions)
    ensures Recovered(w.(hub := Bind(w.hub, s, w.links[d].peer)), c, p, token,
                      bound + if d == c && s in sessions then {s} else {})
  {
  }

  /** What a harmless step adds to the sessions known to be bound. */
  function Adds(step: Step, c: Conn, sessions: set<Token>): set<Token> {
    if step.BindMessage? && step.conn == c && step.session in sessions then {step.session} else {}
  }

  lemma BindMessageKeepsRecovered(w: World, d: Conn, s: Token, c: Conn, p: Peer, token: Token, sessions: set<Token>,
                                  bound: set<Token>)
    requires Inv(w) && Recovered(w, c, p, token, bound) && bound <= sessions
    requires if d == c then |s| >= 16 else s !in sessions || !IsOpen(w, d)
    ensures Recovered(Next(w, BindMessage(d, s)), c, p, token, bound + Adds(BindMessage(d, s), c, sessions))
  {
    if IsOpen(w, d) && s != "" {
      BindingKeepsRecovered(w, d, s, c, p, token, sessions, bound);
      if |s| < 16 {
        BindingKeeps(w, d, s);
        assert bound + {} == bound;
        DepartureKeepsRecovered(w.(hub := Bind(w.hub, s, w.links[d].peer)), d, c, p, token, bound);
      }
    }
  }

  lemma RegisteringStepKeepsRecovered(w: World, step: Step, c: Conn, p: Peer, token: Token, bound: set<Token>)
    requires Inv(w) && Recovered(w, c, p, token, bound)
    requires step.ReRegister? || (step.Connect? && step.peer != p && step.token != token)
    ensures Recovered(Next(w, step), c, p, token, bound)
  {
    match step {
      case Connect(d, q, t) =>
        if d !in w.links {
          var w1 := w.(links := w.links[d := Link(q, t, true)]);
          RegisteringKeepsRecovered(w1, q, t, d, "", c, p, token, bound);
        }
      case ReRegister(d, v) =>
        if IsOpen(w, d) {
          RegisteringKeepsRecovered(w, w.links[d].peer, w.links[d].token, d, if v == "" then "private" else v,
                                    c, p, token, bound);
        }
    }
  }

  lemma StepKeepsRecovered(w: World, step: Step, c: Conn, p: Peer, token: Token, sessions: set<Token>, older: set<Conn>,
                           bound: set<Token>)
    requires Inv(w) && Recovered(w, c, p, token, bound) && bound <= sessions
    requires Earlier(w, older, p) && Harmless(step, c, p, token, sessions, older)
    ensures Recovered(Next(w, step), c, p, token, bound + Adds(step, c, sessions))
  {
    if step.BindMessage? {
      assert step.conn in older && step.conn != c ==> !IsOpen(w, step.conn);
      BindMessageKeepsRecovered(w, step.conn, step.session, c, p, token, sessions, bound);
    } else {
      assert bound + Adds(step, c, sessions) == bound;
      if step.Connect? || step.ReRegister? {
        RegisteringStepKeepsRecovered(w, step, c, p, token, bound);
      } else if step.Disconnect? {
        if step.conn in w.links {
          DepartureKeepsRecovered(w, step.conn, c, p, token, bound);
        }
      } else if step.RemovePeer? {
        RemovingKeepsRecovered(w, step.peer, c, p, token, bound);
      }
    }
  }

  /** The sessions bound by the messages of connection c among some steps. */
  ghost function BoundBy(steps: seq<Step>, c: Conn, sessions: set<Token>): set<Token> {
    set s | s in sessions && BindMessage(c, s) in steps
  }

  lemma BoundBySnoc(init: seq<Step>, last: Step, c: Conn, sessions: set<Token>)
    ensures BoundBy(init + [last], c, sessions) == BoundBy(init, c, sessions) + Adds(last, c, sessions)
  {
  }

  lemma {:induction false} StepsKeepRecovered(w: World, steps: seq<Step>, c: Conn, p: Peer, token: Token,
                                              sessions: set<Token>, older: set<Conn>)
    requires Inv(w) && Recovered(w, c, p, token, {}) && Earlier(w, older, p)
    requires forall i :: 0 <= i < |steps| ==> Harmless(steps[i], c, p, token, sessions, older)
    ensures Earlier(Run(w, steps), older, p)
    ensures Recovered(Run(w, steps), c, p, token, BoundBy(steps, c, sessions))
  {
    if steps == [] {
      assert BoundBy(steps, c, sessions) == {};
    } else {
      var init, last := steps[..|steps| - 1], steps[|steps| - 1];
      StepsKeepRecovered(w, init, c, p, token, sessions, older);
      RunKeeps(w, init);
      StillEarlier(Run(w, init), last, older, p);
      StepKeepsRecovered(Run(w, init), last, c, p, token, sessions, older, BoundBy(init, c, sessions));
      BoundBySnoc(init, last, c, sessions);
      assert steps == init + [last];
    }
  }

  lemma RunFirst(w: World, step: Step, steps: seq<Step>)
    ensures Run(w, [step] + steps) == Run(Next(w, step), steps)
  {
    FoldAppend(Next, w, [step], steps);
    FoldSnoc(Next, w, [], step);
    assert [] + [step] == [step];
  }

  lemma RecoveredLookups(w: World, c: Conn, p: Peer, token: Token, bound: set<Token>)
    requires Recovered(w, c, p, token, bound)
    ensures p in w.hub.agents && w.hub.agents[p].conn == c
    ensures Find(w.hub, w.hub.byPairToken, token) == Some(w.hub.agents[p])
    ensures forall s <- bound :: Find(w.hub, w.hub.bySession, s) == Some(w.hub.agents[p])
  {
  }

  lemma IntroductionIsHandled(tokens: seq<Token>, steps: seq<Step>, c: Conn, visibility: string)
    requires forall m <- Bridge.Introduction(tokens) :: StepFor(c, visibility, m) in steps
    ensures forall t <- tokens :: BindMessage(c, t) in steps
  {
    forall t | t in tokens
      ensures BindMessage(c, t) in steps
    {
      var i :| 0 <= i < |tokens| && tokens[i] == t;
      assert Bridge.Introduction(tokens)[i + 1] == Bridge.SessionBind(t);
      assert StepFor(c, visibility, Bridge.SessionBind(t)) in steps;
    }
  }

  function Connections(w: World, p: Peer): set<Conn> {
    set d | d in w.links && w.links[d].peer == p
  }

  /** The bridge of peer p connects again as c and introduces itself; the relay handles those messages among any number
      of harmless steps, including the old connection's disconnect at any point. Then every session the bridge knew, and
      its pair token, lead to p's new connection. */
  lemma ReconnectRecovers(w: World, steps: seq<Step>, c: Conn, p: Peer, token: Token, tokens: seq<Token>, visibility: string)
    requires Inv(w) && c !in w.links && p != "" && token != ""
    requires forall d <- w.links :: w.links[d].token == token ==> w.links[d].peer == p
    requires forall i :: 0 <= i < |steps| ==> Harmless(steps[i], c, p, token, (set t | t in tokens), Connections(w, p))
    requires forall m <- Bridge.Introduction(tokens) :: StepFor(c, visibility, m) in steps
    ensures var h := Run(w, [Connect(c, p, token)] + steps).hub;
            && p in h.agents && h.agents[p].conn == c
            && Find(h, h.byPairToken, token) == Some(h.agents[p])
            && forall t <- tokens :: Find(h, h.bySession, t) == Some(h.agents[p])
  {
    var sessions := set t | t in tokens;
    var w1 := Next(w, Connect(c, p, token));
    ConnectionIsRegistered(w, c, p, token);
    NextKeeps(w, Connect(c, p, token));
    StillEarlier(w, Connect(c, p, token), Connections(w, p), p);
    StepsKeepRecovered(w1, steps, c, p, token, sessions, Connections(w, p));
    IntroductionIsHandled(tokens, steps, c, visibility);
    RunFirst(w, Connect(c, p, token), steps);
    RecoveredLookups(Run(w1, steps), c, p, token, BoundBy(steps, c, sessions));
  }
}

/** The bridge's messages as steps of the relay: every answer reaches its own request. */
module Tunnel {
  import opened Common
  import opened Wire
  import opened Hub
  import opened HubRuns
  import opened HubGuarantees
  import RW = ResponseWriter
  import Bridge
  import Recovery

  /** The relay handles the bridge's messages one by one. */
  function StepsFor(c: Conn, visibility: string, out: seq<Bridge.Outgoing>): seq<Step> {
    seq(|out|, i requires 0 <= i < |out| => Recovery.StepFor(c, visibility, out[i]))
  }

  lemma OneMoreMessage(w: World, c: Conn, visibility: string, out: seq<Bridge.Outgoing>, m: Bridge.Outgoing)
    ensures Run(w, StepsFor(c, visibility, out + [m])) ==
            Next(Run(w, StepsFor(c, visibility, out)), Recovery.StepFor(c, visibility, m))
  {
    assert StepsFor(c, visibility, out + [m]) == StepsFor(c, visibility, out) + [Recovery.StepFor(c, visibility, m)];
    FoldSnoc(Next, w, StepsFor(c, visibility, out), Recovery.StepFor(c, visibility, m));
  }

  /** Some messages were sent under one request's id, and nothing else happened to any request, link or index. */
  predicate Received(w: World, w': World, rid: Rid, ms: seq<Msg>) {
    && w'.links == w.links && w'.hub.agents == w.hub.agents
    && w'.hub.byPairToken == w.hub.byPairToken && w'.hub.bySession == w.hub.bySession
    && w'.requests.Keys == w.requests.Keys
    && (forall r <- w.requests :: r != rid ==> w'.requests[r] == w.requests[r])
    && (rid in w.requests ==> w'.requests[rid].sent == w.requests[rid].sent + ms)
  }

  lemma OneReply(w: World, w': World, c: Conn, rid: Rid, ms: seq<Msg>, m: Msg)
    requires Received(w, w', rid, ms) && IsOpen(w, c)
    ensures Received(w, Next(w', Reply(c, rid, m)), rid, ms + [m])
  {
    if rid in w.requests {
      AppendAppend(w.requests[rid].sent, ms, [m]);
    }
  }

  lemma {:induction false} ResponsesReach(w: World, c: Conn, visibility: string, rid: Rid, ms: seq<Msg>)
    requires IsOpen(w, c)
    ensures Received(w, Run(w, StepsFor(c, visibility, Bridge.Responses(rid, ms))), rid, ms)
  {
    if ms == [] {
      if rid in w.requests {
        assert w.requests[rid].sent + [] == w.requests[rid].sent;
      }
    } else {
      var init, m := ms[..|ms| - 1], ms[|ms| - 1];
      ResponsesReach(w, c, visibility, rid, init);
      assert Bridge.Responses(rid, ms) == Bridge.Responses(rid, init) + [Bridge.Response(rid, m)];
      OneMoreMessage(w, c, visibility, Bridge.Responses(rid, init), Bridge.Response(rid, m));
      OneReply(w, Run(w, StepsFor(c, visibility, Bridge.Responses(rid, init))), c, rid, init, m);
      assert init + [m] == ms;
    }
  }

  /** The session behind a pairing's answer. */
  lemma BindReaches(w: World, c: Conn, t: Token)
    requires IsOpen(w, c) && |t| >= 16
    ensures var w' := Next(w, BindMessage(c, t));
            && w'.links == w.links && w'.requests == w.requests && w'.hub.agents == w.hub.agents
            && w'.hub.bySession == w.hub.bySession[t := w.links[c].peer]
  {
  }

  lemma AnswerReaches(w: World, c: Conn, rid: Rid, visibility: string, ms: seq<Msg>, bound: Option<Token>)
    requires IsOpen(w, c) && rid in w.requests && (bound.Some? ==> |bound.value| >= 16)
    ensures var after := Run(w, StepsFor(c, visibility, Bridge.Answer(rid, ms, bound)));
            && after.requests.Keys == w.requests.Keys
            && after.requests[rid].sent == w.requests[rid].sent + ms
            && (forall r <- w.requests :: r != rid ==> after.requests[r] == w.requests[r])
            && after.hub.bySession ==
               if bound.Some? then w.hub.bySession[bound.value := w.links[c].peer] else w.hub.bySession
  {
    var responses := Bridge.Responses(rid, ms);
    ResponsesReach(w, c, visibility, rid, ms);
    if bound.Some? {
      OneMoreMessage(w, c, visibility, responses, Bridge.SessionBind(bound.value));
      BindReaches(Run(w, StepsFor(c, visibility, responses)), c, bound.value);
    } else {
      assert Bridge.Answer(rid, ms, bound) == responses;
    }
  }

  lemma Asked(w: World, rid: Rid, chan: ChanId, p: Peer)
    requires rid !in w.requests && chan !in w.hub.channels
    ensures var asked := Next(w, Forward(rid, chan, p));
            && asked.links == w.links && rid in asked.requests && asked.requests[rid].sent == []
            && (forall r <- w.requests :: r in asked.requests && asked.requests[r] == w.requests[r])
            && asked.hub.bySession == w.hub.bySession
  {
  }

  /** A forwarded request, handled by the bridge and answered over its open connection: what the relay is sent under the
      request's id is exactly what the writer sent, less what was lost on the way; no other request sees anything; and a
      pairing's session leads to the bridge's agent. */
  lemma AnswerReachesItsRequest(w: World, c: Conn, rid: Rid, chan: ChanId, visibility: string, calls: seq<RW.Call>,
                                lost: set<nat>, bound: Option<Token>)
    requires IsOpen(w, c) && rid !in w.requests && chan !in w.hub.channels
    requires bound.Some? ==> |bound.value| >= 16
    ensures var asked := Next(w, Forward(rid, chan, w.links[c].peer));
            var ms := Bridge.Kept(RW.Output(calls), lost);
            var after := Run(asked, StepsFor(c, visibility, Bridge.Answer(rid, ms, bound)));
            && rid in after.requests && after.requests[rid].sent == ms
            && Subsequence(ms, RW.Output(calls))
            && (forall r <- w.requests :: r in after.requests && after.requests[r] == w.requests[r])
            && after.hub.bySession ==
               if bound.Some? then w.hub.bySession[bound.value := w.links[c].peer] else w.hub.bySession
  {
    var ms := Bridge.Kept(RW.Output(calls), lost);
    Bridge.KeptIsSelection(RW.Output(calls), lost);
    Asked(w, rid, chan, w.links[c].peer);
    AnswerReaches(Next(w, Forward(rid, chan, w.links[c].peer)), c, rid, visibility, ms, bound);
    assert [] + ms == ms;
  }

  /** A malformed request is answered under its own id, too. */
  lemma RefusalReachesItsRequest(w: World, c: Conn, rid: Rid, visibility: string)
    requires IsOpen(w, c) && rid in w.requests
    ensures var after := Run(w, StepsFor(c, visibility, Bridge.Responses(rid, [Err(400, "bad request")])));
            rid in after.requests && after.requests[rid].sent == w.requests[rid].sent + [Err(400, "bad request")]
  {
    ResponsesReach(w, c, visibility, rid, [Err(400, "bad request")]);
  }

  lemma RegisterReaches(w: World, c: Conn, visibility: string)
    requires LinksSound(w.hub, w.links) && IsOpen(w, c)
    ensures var w' := Next(w, ReRegister(c, visibility));
            var p := w.links[c].peer;
            && IsOpen(w', c) && w'.links[c] == w.links[c] && p in w'.hub.agents
            && w'.hub.agents[p] == AgentConn(p, w.links[c].token, c, if visibility == "" then "private" else visibility)
  {
  }

  /** After the registration message: every bind leaves the agent as registered. */
  lemma {:induction false} BindsReach(w: World, c: Conn, visibility: string, tokens: seq<Token>)
    requires IsOpen(w, c) && forall t <- tokens :: |t| >= 16
    ensures var after := Run(w, StepsFor(c, visibility, Bridge.Binds(tokens)));
            && after.links == w.links && after.hub.agents == w.hub.agents
            && forall t <- tokens :: t in after.hub.bySession && after.hub.bySession[t] == w.links[c].peer
  {
    if tokens == [] {
    } else {
      var init, t := tokens[..|tokens| - 1], tokens[|tokens| - 1];
      BindsReach(w, c, visibility, init);
      assert Bridge.Binds(tokens) == Bridge.Binds(init) + [Bridge.SessionBind(t)];
      OneMoreMessage(w, c, visibility, Bridge.Binds(init), Bridge.SessionBind(t));
      BindReaches(Run(w, StepsFor(c, visibility, Bridge.Binds(init))), c, t);
      assert tokens == init + [t];
    }
  }

  /** A bridge's whole introduction over its open connection: the agent is registered with the visibility it asks for, and
      every known session leads to it. */
  lemma IntroductionReaches(w: World, c: Conn, visibility: string, tokens: seq<Token>)
    requires Inv(w) && IsOpen(w, c) && forall t <- tokens :: |t| >= 16
    ensures var after := Run(w, StepsFor(c, visibility, Bridge.Introduction(tokens)));
            var p := w.links[c].peer;
            && p in after.hub.agents
            && after.hub.agents[p] == AgentConn(p, w.links[c].token, c, if visibility == "" then "private" else visibility)
            && forall t <- tokens :: t in after.hub.bySession && after.hub.bySession[t] == p
  {
    RegisterReaches(w, c, visibility);
    BindsReach(Next(w, ReRegister(c, visibility)), c, visibility, tokens);
    assert StepsFor(c, visibility, Bridge.Introduction(tokens)) ==
           [ReRegister(c, visibility)] + StepsFor(c, visibility, Bridge.Binds(tokens));
    Recovery.RunFirst(w, ReRegister(c, visibility), StepsFor(c, visibility, Bridge.Binds(tokens)));
  }
}
