/** What the relay guarantees over whole runs, from the invariant of HubRuns. */
module HubGuarantees {
  import opened Common
  import opened Wire
  import opened Hub
  import opened HubRuns

  lemma Reachable(run: seq<Step>)
    ensures Inv(Run(START, run))
  {
    RunKeeps(START, run);
  }

  // ---- Index agreement ----

  /** In every reachable state the indexes agree with the registered agents. */
  lemma IndexAgreement(run: seq<Step>)
    ensures var h := Run(START, run).hub;
            && (forall t <- h.byPairToken :: Find(h, h.byPairToken, t).Some?
                                          && Find(h, h.byPairToken, t).value.pairToken == t)
            && (forall t, u :: t in h.byPairToken && u in h.byPairToken && h.byPairToken[t] == h.byPairToken[u] ==> t == u)
            && (forall s <- h.bySession :: Find(h, h.bySession, s).Some?)
  {
    Reachable(run);
  }

  // ---- Whom a lookup finds ----

  /** A phone looks agents up by pair token or by session token. */
  datatype Key = ByPair(token: Token) | BySession(token: Token)

  function Entry(w: World, key: Key): Option<Peer> {
    var index := if key.ByPair? then w.hub.byPairToken else w.hub.bySession;
    if key.token in index then Some(index[key.token]) else None
  }

  function Lookup(w: World, key: Key): Option<AgentConn> {
    Find(w.hub, if key.ByPair? then w.hub.byPairToken else w.hub.bySession, key.token)
  }

  /** The pair token a step registers, and for whom. */
  function Registers(w: World, step: Step): Option<(Token, Peer)> {
    match step
    case Connect(c, p, token) => if c in w.links || p == "" || token == "" then None else Some((token, p))
    case ReRegister(c, _) => if IsOpen(w, c) then Some((w.links[c].token, w.links[c].peer)) else None
    case _ => None
  }

  /** Whom a step enters under a key. */
  function Sets(w: World, step: Step, key: Key): Option<Peer> {
    match key
    case ByPair(t) =>
      var r := Registers(w, step);
      if r.Some? && r.value.0 == t then Some(r.value.1) else None
    case BySession(s) =>
      if step.BindMessage? && step.session == s && s != "" && IsOpen(w, step.conn) then Some(w.links[step.conn].peer)
      else None
  }

  /** The peer a step removes from the hub, with its last connection. */
  function Taken(w: World, step: Step): Option<Peer> {
    match step
    case RemovePeer(p) => if p in w.hub.agents then Some(p) else None
    case Disconnect(c) =>
      if c in w.links && w.links[c].peer in w.hub.agents && w.hub.agents[w.links[c].peer].conn == c then
        Some(w.links[c].peer)
      else None
    case BindMessage(c, session) =>
      if IsOpen(w, c) && session != "" && |session| < 16 then Some(w.links[c].peer) else None
    case _ => None
  }

  predicate Removes(w: World, step: Step) {
    Taken(w, step).Some?
  }

  /** A step after which the key cannot lead to this peer: the peer is removed, or registers with another pair token. */
  predicate Clears(w: World, step: Step, key: Key, p: Peer) {
    || Taken(w, step) == Some(p)
    || (key.ByPair? && var r := Registers(w, step); r.Some? && r.value.1 == p && r.value.0 != key.token)
  }

  lemma RemovingEntry(w: World, q: Peer, key: Key, p: Peer)
    requires Inv(w)
    ensures Entry(Removing(w, q), key) == Some(p) <==> Entry(w, key) == Some(p) && p != q
  {
  }

  lemma DepartingEntry(w: World, c: Conn, key: Key, p: Peer)
    requires Inv(w) && c in w.links
    ensures Entry(Departing(w, c), key) == Some(p) <==> Entry(w, key) == Some(p) && Taken(w, Disconnect(c)) != Some(p)
  {
    RemovingEntry(w, w.links[c].peer, key, p);
  }

  lemma BindingEntry(w: World, c: Conn, s: Token, key: Key, p: Peer)
    requires Inv(w)
    ensures var step := BindMessage(c, s);
            Entry(Next(w, step), key) == Some(p) <==>
            Taken(w, step) != Some(p)
            && (Sets(w, step, key) == Some(p) || (Sets(w, step, key) == None && Entry(w, key) == Some(p)))
  {
    if IsOpen(w, c) && s != "" {
      BindingKeeps(w, c, s);
      DepartingEntry(w.(hub := Bind(w.hub, s, w.links[c].peer)), c, key, p);
    }
  }

  lemma RegisteringEntry(w: World, step: Step, key: Key, p: Peer)
    requires step.Connect? || step.ReRegister?
    ensures Entry(Next(w, step), key) == Some(p) <==>
            !Clears(w, step, key, p)
            && (Sets(w, step, key) == Some(p) || (Sets(w, step, key) == None && Entry(w, key) == Some(p)))
  {
  }

  lemma OtherEntry(w: World, step: Step, key: Key)
    requires !step.Connect? && !step.ReRegister? && !step.BindMessage? && !step.Disconnect? && !step.RemovePeer?
    ensures Entry(Next(w, step), key) == Entry(w, key)
  {
  }

  lemma StepOfEntry(w: World, step: Step, key: Key, p: Peer)
    requires Inv(w)
    ensures Entry(Next(w, step), key) == Some(p) <==>
            !Clears(w, step, key, p)
            && (Sets(w, step, key) == Some(p) || (Sets(w, step, key) == None && Entry(w, key) == Some(p)))
  {
    if step.BindMessage? {
      BindingEntry(w, step.conn, step.session, key, p);
    } else if step.Disconnect? {
      if step.conn in w.links {
        DepartingEntry(w, step.conn, key, p);
      }
    } else if step.RemovePeer? {
      RemovingEntry(w, step.peer, key, p);
    } else if step.Connect? || step.ReRegister? {
      RegisteringEntry(w, step, key, p);
    } else {
      OtherEntry(w, step, key);
    }
  }

  /** Step k enters the peer under the key, and nothing since has replaced or removed it. */
  ghost predicate EnteredLast(run: seq<Step>, key: Key, p: Peer, k: nat)
    requires k < |run|
  {
    && Sets(Run(START, run[..k]), run[k], key) == Some(p) && !Clears(Run(START, run[..k]), run[k], key, p)
    && forall j :: k < j < |run| ==>
         Sets(Run(START, run[..j]), run[j], key) == None && !Clears(Run(START, run[..j]), run[j], key, p)
  }

  ghost predicate Leads(run: seq<Step>, key: Key, p: Peer) {
    exists k :: 0 <= k < |run| && EnteredLast(run, key, p, k)
  }

  lemma LeadsSnoc(init: seq<Step>, last: Step, key: Key, p: Peer)
    ensures Leads(init + [last], key, p) <==>
            && !Clears(Run(START, init), last, key, p)
            && (Sets(Run(START, init), last, key) == Some(p)
                || (Sets(Run(START, init), last, key) == None && Leads(init, key, p)))
  {
    var run := init + [last];
    assert run[|init|] == last && run[..|init|] == init;
    assert forall j :: 0 <= j < |init| ==> run[j] == init[j] && run[..j] == init[..j];
    if k :| 0 <= k < |init| && EnteredLast(init, key, p, k) {
      if Sets(Run(START, init), last, key) == None && !Clears(Run(START, init), last, key, p) {
        assert EnteredLast(run, key, p, k);
      }
    }
    if k :| 0 <= k < |run| && EnteredLast(run, key, p, k) {
      if k < |init| {
        assert EnteredLast(init, key, p, k);
      }
    }
    if Sets(Run(START, init), last, key) == Some(p) && !Clears(Run(START, init), last, key, p) {
      assert EnteredLast(run, key, p, |init|);
    }
  }

  lemma EntryAfter(init: seq<Step>, last: Step, key: Key, p: Peer)
    requires Entry(Run(START, init), key) == Some(p) <==> Leads(init, key, p)
    ensures Entry(Run(START, init + [last]), key) == Some(p) <==> Leads(init + [last], key, p)
  {
    Reachable(init);
    StepOfEntry(Run(START, init), last, key, p);
    LeadsSnoc(init, last, key, p);
    FoldSnoc(Next, START, init, last);
  }

  lemma {:induction false} EntriesAreHistory(run: seq<Step>, key: Key, p: Peer)
    ensures Entry(Run(START, run), key) == Some(p) <==> Leads(run, key, p)
  {
    if run == [] {
    } else {
      var init, last := run[..|run| - 1], run[|run| - 1];
      EntriesAreHistory(init, key, p);
      EntryAfter(init, last, key, p);
      assert run == init + [last];
    }
  }

  /** In every reachable state a token finds exactly the agent that was the last to be entered under it and has not been
      removed since, nor, for a pair token, registered under another one. What is found is that agent's current
      connection. */
  lemma LookupFindsLast(run: seq<Step>, key: Key, p: Peer)
    ensures var w := Run(START, run);
            && ((Lookup(w, key).Some? && Lookup(w, key).value.peer == p) <==> Leads(run, key, p))
            && (Lookup(w, key).Some? ==>
                  var a := Lookup(w, key).value; a.peer in w.hub.agents && w.hub.agents[a.peer] == a)
  {
    Reachable(run);
    EntriesAreHistory(run, key, p);
  }

  // ---- What is registered ----

  /** The agent that a step registers: a connection at first as private as its records say, a registration message with the
      visibility it asks for, or "private". */
  function RegisteredAgent(w: World, step: Step): Option<AgentConn> {
    match step
    case Connect(c, p, token) =>
      if c in w.links || p == "" || token == "" then None else Some(AgentConn(p, token, c, ""))
    case ReRegister(c, visibility) =>
      if IsOpen(w, c) then
        Some(AgentConn(w.links[c].peer, w.links[c].token, c, if visibility == "" then "private" else visibility))
      else None
    case _ => None
  }

  /** The last registration of a peer in a run, unless it has been removed since. */
  ghost function LastRegistered(run: seq<Step>, p: Peer): Option<AgentConn> {
    if run == [] then None
    else
      var init, last := run[..|run| - 1], run[|run| - 1];
      var a := RegisteredAgent(Run(START, init), last);
      if a.Some? && a.value.peer == p then a
      else if Taken(Run(START, init), last) == Some(p) then None
      else LastRegistered(init, p)
  }

  function AgentOf(w: World, p: Peer): Option<AgentConn> {
    if p in w.hub.agents then Some(w.hub.agents[p]) else None
  }

  lemma DepartingAgent(w: World, c: Conn, p: Peer)
    requires Inv(w) && c in w.links
    ensures AgentOf(Departing(w, c), p) == if Taken(w, Disconnect(c)) == Some(p) then None else AgentOf(w, p)
  {
  }

  lemma BindingAgent(w: World, c: Conn, s: Token, p: Peer)
    requires Inv(w)
    ensures AgentOf(Next(w, BindMessage(c, s)), p) == if Taken(w, BindMessage(c, s)) == Some(p) then None else AgentOf(w, p)
  {
    if IsOpen(w, c) && s != "" {
      BindingKeeps(w, c, s);
      DepartingAgent(w.(hub := Bind(w.hub, s, w.links[c].peer)), c, p);
    }
  }

  lemma OtherAgent(w: World, step: Step)
    requires !step.Connect? && !step.ReRegister? && !step.BindMessage? && !step.Disconnect? && !step.RemovePeer?
    ensures Next(w, step).hub.agents == w.hub.agents
  {
  }

  lemma StepOfAgent(w: World, step: Step, p: Peer)
    requires Inv(w)
    ensures AgentOf(Next(w, step), p) ==
            if RegisteredAgent(w, step).Some? && RegisteredAgent(w, step).value.peer == p then RegisteredAgent(w, step)
            else if Taken(w, step) == Some(p) then None
            else AgentOf(w, p)
  {
    if step.BindMessage? {
      BindingAgent(w, step.conn, step.session, p);
    } else if step.Disconnect? {
      if step.conn in w.links {
        DepartingAgent(w, step.conn, p);
      }
    } else if !step.Connect? && !step.ReRegister? && !step.RemovePeer? {
      OtherAgent(w, step);
    }
  }

  /** In every run a peer is registered exactly as by its last registration, if it has not been removed since: with that
      pair token, connection and visibility. */
  lemma {:induction false} AgentsAreHistory(run: seq<Step>, p: Peer)
    ensures AgentOf(Run(START, run), p) == LastRegistered(run, p)
  {
    if run == [] {
    } else {
      var init := run[..|run| - 1];
      AgentsAreHistory(init, p);
      Reachable(init);
      StepOfAgent(Run(START, init), run[|run| - 1], p);
    }
  }

  // ---- Disconnects and binds ----

  /** A disconnect of a connection that has been replaced changes nothing at all. */
  lemma StaleDisconnect(run: seq<Step>, c: Conn)
    requires var w := Run(START, run);
             c in w.links && !(w.links[c].peer in w.hub.agents && w.hub.agents[w.links[c].peer].conn == c)
    ensures Next(Run(START, run), Disconnect(c)) == Run(START, run)
  {
    Reachable(run);
  }

  /** The runs' disconnects and removals are the hub's: a reader's cleanup leaves the hub as UnregisterAgent does. */
  lemma DisconnectUnregisters(w: World, c: Conn, p: Peer)
    requires c in w.links
    ensures Next(w, Disconnect(c)).hub == Unregister(w.hub, w.links[c].peer, c)
    ensures Next(w, RemovePeer(p)).hub == Remove(w.hub, p)
  {
  }

  /** Binding keeps every session pointing at a registered agent exactly when the binding peer is registered: the guard
      is that the message came over a socket that is still open. */
  lemma BindingNeedsRegistration(h: HubState, session: Token, p: Peer)
    requires forall s <- h.bySession :: h.bySession[s] in h.agents
    ensures var h' := Bind(h, session, p);
            (forall s <- h'.bySession :: h'.bySession[s] in h'.agents) <==> p in h.agents
  {
    assert session in Bind(h, session, p).bySession;
  }

  // ---- Removal and replacement ----

  lemma PendingOrGone(w: World, rid: Rid)
    requires Inv(w) && rid in w.requests
    ensures w.requests[rid].exit == None <==> rid in w.hub.pending
    ensures w.requests[rid].chan in w.hub.channels
    ensures rid in w.hub.pending ==> w.hub.pending[rid] == w.requests[rid].chan
    ensures w.hub.channels[w.requests[rid].chan].IsClosed() <==> w.requests[rid].exit == Some(AgentRemoved)
  {
    assert RequestSound(w.hub, rid, w.requests[rid]);
  }

  /** When an agent's registered connection disconnects, every pending request ends, whichever agent it was forwarded to,
      and its channel is closed; all other agents stay. */
  lemma RemovalFailsEveryRequest(run: seq<Step>, c: Conn, rid: Rid)
    requires c in Run(START, run).links && Removes(Run(START, run), Disconnect(c))
    requires rid in Run(START, run).hub.pending
    ensures var w := Run(START, run);
            var w' := Next(w, Disconnect(c));
            && w'.hub.pending == map[]
            && rid in w'.requests && w'.requests[rid].exit == Some(AgentRemoved)
            && w'.requests[rid].chan in w'.hub.channels && w'.hub.channels[w'.requests[rid].chan].closes == 1
            && w'.hub.agents == w.hub.agents - {w.links[c].peer}
  {
    var w := Run(START, run);
    Reachable(run);
    PendingOrGone(w, rid);
    assert w.hub.pending[rid] in w.hub.pending.Values;
  }

  ghost predicate Follows(q: Request, q': Request, cause: Option<Exit>) {
    && q'.chan == q.chan && q'.agent == q.agent
    && q.sent <= q'.sent && q.got <= q'.got
    && q'.exit == if q.exit == None then cause else q.exit
  }

  lemma RemovalOfRequest(w: World, p: Peer, rid: Rid)
    requires rid in w.requests && (w.requests[rid].exit == None <==> rid in w.hub.pending)
    ensures rid in Removing(w, p).requests
    ensures Follows(w.requests[rid], Removing(w, p).requests[rid],
                    if p in w.hub.agents then Some(AgentRemoved) else None)
  {
  }

  lemma DepartureOfRequest(w: World, c: Conn, rid: Rid)
    requires c in w.links && rid in w.requests && (w.requests[rid].exit == None <==> rid in w.hub.pending)
    ensures rid in Departing(w, c).requests
    ensures Follows(w.requests[rid], Departing(w, c).requests[rid],
                    if Removes(w, Disconnect(c)) then Some(AgentRemoved) else None)
  {
    RemovalOfRequest(w, w.links[c].peer, rid);
  }

  /** So whenever two agents are connected, a request to one of them is failed by the other's disconnect, although the
      agent it was sent to stays registered. */
  lemma AnotherAgentsDisconnect(w: World, c: Conn, a: Peer, rid: Rid, chan: ChanId)
    requires Inv(w) && IsOpen(w, c) && a in w.hub.agents && a != w.links[c].peer
    requires rid !in w.requests && chan !in w.hub.channels
    ensures var asked := Next(w, Forward(rid, chan, a));
            var after := Next(asked, Disconnect(c));
            && rid in asked.hub.pending
            && rid in after.requests && after.requests[rid].agent == a && after.requests[rid].exit == Some(AgentRemoved)
            && a in after.hub.agents
  {
    ForwardKeeps(w, rid, chan, a);
    var asked := Next(w, Forward(rid, chan, a));
    DepartureOfRequest(asked, c, rid);
  }

  /** Two agents that have just connected. */
  lemma TwoAgents(c: Conn, p: Peer, t: Token, d: Conn, q: Peer, u: Token)
    requires c != d && p != q && t != u && p != "" && q != "" && t != "" && u != ""
    ensures var w := Run(START, [Connect(c, p, t), Connect(d, q, u)]);
            && Inv(w) && IsOpen(w, c) && IsOpen(w, d) && w.links[c].peer == p && w.links[d].peer == q
            && w.hub.agents.Keys == {p, q} && w.hub.agents[p].conn == c && w.hub.agents[q].conn == d
            && w.requests == map[] && w.hub.channels == map[] && w.hub.bySession == map[]
  {
    FoldTwo(Next, START, Connect(c, p, t), Connect(d, q, u));
    Reachable([Connect(c, p, t), Connect(d, q, u)]);
  }

  /** The shortest run of that kind. */
  lemma AnotherAgentsDisconnectExample(c: Conn, p: Peer, t: Token, d: Conn, q: Peer, u: Token, rid: Rid, chan: ChanId)
    requires c != d && p != q && t != u && p != "" && q != "" && t != "" && u != ""
    ensures var w := Run(START, [Connect(c, p, t), Connect(d, q, u)] + [Forward(rid, chan, p), Disconnect(d)]);
            && rid in w.requests && w.requests[rid].agent == p && w.requests[rid].exit == Some(AgentRemoved)
            && p in w.hub.agents
  {
    var w := Run(START, [Connect(c, p, t), Connect(d, q, u)]);
    TwoAgents(c, p, t, d, q, u);
    FoldAppend(Next, START, [Connect(c, p, t), Connect(d, q, u)], [Forward(rid, chan, p), Disconnect(d)]);
    FoldTwo(Next, w, Forward(rid, chan, p), Disconnect(d));
    AnotherAgentsDisconnect(w, d, p, rid, chan);
  }

  /** Replacing a connection leaves the requests in flight exactly as they were. */
  lemma ReplacementKeepsRequests(w: World, c: Conn, p: Peer, token: Token)
    requires Inv(w) && p in w.hub.agents && c !in w.links && p != "" && token != ""
    ensures var w' := Next(w, Connect(c, p, token));
            && w'.hub.agents[p].conn == c && !w'.links[w.hub.agents[p].conn].open
            && w'.requests == w.requests && w'.hub.pending == w.hub.pending && w'.hub.channels == w.hub.channels
  {
  }

  // ---- The life of a request ----

  /** Why a pending request leaves, if it does. */
  function Cause(w: World, step: Step, rid: Rid): Option<Exit> {
    if Removes(w, step) then Some(AgentRemoved)
    else
      match step
      case Reply(c, r, m) => if r == rid && IsOpen(w, c) && Terminal(m) then Some(Finished) else None
      case WriteFailed(r) => if r == rid then Some(Unreachable) else None
      case TimeOut(r) => if r == rid then Some(GaveUp) else None
      case _ => None
  }

  lemma BindingOfRequest(w: World, c: Conn, session: Token, rid: Rid)
    requires rid in w.requests && (w.requests[rid].exit == None <==> rid in w.hub.pending)
    ensures rid in Next(w, BindMessage(c, session)).requests
    ensures Follows(w.requests[rid], Next(w, BindMessage(c, session)).requests[rid],
                    if (IsOpen(w, c) && session != "" && |session| < 16)
                       && Removes(w, Disconnect(c)) then Some(AgentRemoved) else None)
  {
    if IsOpen(w, c) && session != "" && |session| < 16 {
      DepartureOfRequest(w.(hub := Bind(w.hub, session, w.links[c].peer)), c, rid);
    }
  }

  lemma ReplyOfRequest(w: World, c: Conn, r: Rid, m: Msg, rid: Rid)
    requires rid in w.requests && (w.requests[rid].exit == None <==> rid in w.hub.pending)
    ensures rid in Next(w, Reply(c, r, m)).requests
    ensures Follows(w.requests[rid], Next(w, Reply(c, r, m)).requests[rid], Cause(w, Reply(c, r, m), rid))
  {
  }

  lemma OtherStepOfRequest(w: World, step: Step, rid: Rid)
    requires rid in w.requests && (w.requests[rid].exit == None <==> rid in w.hub.pending)
    requires !step.BindMessage? && !step.Disconnect? && !step.RemovePeer? && !step.Reply?
    ensures rid in Next(w, step).requests
    ensures Follows(w.requests[rid], Next(w, step).requests[rid], Cause(w, step, rid))
  {
  }

  /** One step of one request: its channel and target never change, histories only grow, an exit is final, and a pending
      request leaves exactly for its cause. */
  lemma StepOfRequest(w: World, step: Step, rid: Rid)
    requires Inv(w) && rid in w.requests
    ensures rid in Next(w, step).requests
    ensures Follows(w.requests[rid], Next(w, step).requests[rid], Cause(w, step, rid))
  {
    PendingOrGone(w, rid);
    if step.BindMessage? {
      BindingOfRequest(w, step.conn, step.session, rid);
    } else if step.Disconnect? {
      if step.conn in w.links {
        DepartureOfRequest(w, step.conn, rid);
      }
    } else if step.RemovePeer? {
      RemovalOfRequest(w, step.peer, rid);
    } else if step.Reply? {
      ReplyOfRequest(w, step.conn, step.rid, step.m, rid);
    } else {
      OtherStepOfRequest(w, step, rid);
    }
  }

  lemma {:induction false} LifeOfRequest(w: World, steps: seq<Step>, rid: Rid)
    requires Inv(w) && rid in w.requests
    ensures var w' := Run(w, steps);
            && rid in w'.requests && w'.requests[rid].chan == w.requests[rid].chan
            && w.requests[rid].sent <= w'.requests[rid].sent && w.requests[rid].got <= w'.requests[rid].got
            && (w.requests[rid].exit.Some? ==> w'.requests[rid].exit == w.requests[rid].exit)
  {
    if steps == [] {
    } else {
      var init := steps[..|steps| - 1];
      LifeOfRequest(w, init, rid);
      RunKeeps(w, init);
      StepOfRequest(Run(w, init), steps[|steps| - 1], rid);
    }
  }

  /** A request that has left the pending map never returns, and keeps its one reason for leaving. */
  lemma NeverReturns(run: seq<Step>, more: seq<Step>, rid: Rid)
    requires rid in Run(START, run).requests && rid !in Run(START, run).hub.pending
    ensures rid !in Run(START, run + more).hub.pending
    ensures rid in Run(START, run + more).requests
    ensures Run(START, run).requests[rid].exit.Some?
    ensures Run(START, run + more).requests[rid].exit == Run(START, run).requests[rid].exit
  {
    Reachable(run);
    PendingOrGone(Run(START, run), rid);
    FoldAppend(Next, START, run, more);
    LifeOfRequest(Run(START, run), more, rid);
    Reachable(run + more);
    PendingOrGone(Run(START, run + more), rid);
  }

  lemma StaysKnown(run: seq<Step>, more: seq<Step>, rid: Rid)
    requires rid in Run(START, run).requests
    ensures rid in Run(START, run + more).requests
  {
    Reachable(run);
    LifeOfRequest(Run(START, run), more, rid);
    FoldAppend(Next, START, run, more);
  }

  lemma Entered(run: seq<Step>, rid: Rid, chan: ChanId, p: Peer)
    requires Next(Run(START, run), Forward(rid, chan, p)) != Run(START, run)
    ensures rid in Run(START, run + [Forward(rid, chan, p)]).requests
  {
    FoldSnoc(Next, START, run, Forward(rid, chan, p));
  }

  /** An id enters the pending map at most once in a run: a second attempt has no effect. */
  lemma EntersOnce(run: seq<Step>, more: seq<Step>, rid: Rid, chan: ChanId, chan': ChanId, p: Peer, p': Peer)
    requires Next(Run(START, run), Forward(rid, chan, p)) != Run(START, run)
    ensures var later := Run(START, run + [Forward(rid, chan, p)] + more);
            Next(later, Forward(rid, chan', p')) == later
  {
    Entered(run, rid, chan, p);
    StaysKnown(run + [Forward(rid, chan, p)], more, rid);
  }

  /** Pending requests wait on open channels, each on its own; a channel is closed at most once, and if and only if its
      request was ended by the removal of an agent. */
  lemma ChannelDiscipline(run: seq<Step>)
    ensures var w := Run(START, run);
            && (forall r <- w.hub.pending :: w.hub.pending[r] in w.hub.channels
                                        && !w.hub.channels[w.hub.pending[r]].IsClosed())
            && (forall r, q :: r in w.hub.pending && q in w.hub.pending && r != q ==> w.hub.pending[r] != w.hub.pending[q])
            && (forall c <- w.hub.channels :: w.hub.channels[c].closes <= 1)
            && (forall r <- w.requests :: w.requests[r].chan in w.hub.channels
                  && (w.hub.channels[w.requests[r].chan].closes == 1 <==> w.requests[r].exit == Some(AgentRemoved)))
  {
    Reachable(run);
    var w := Run(START, run);
    forall r | r in w.requests
      ensures w.requests[r].chan in w.hub.channels
      ensures w.hub.channels[w.requests[r].chan].closes == 1 <==> w.requests[r].exit == Some(AgentRemoved)
    {
      PendingOrGone(w, r);
    }
  }

  // ---- Lookup and send as separate steps ----

  /** Some step of the run takes an agent away while the request is pending. */
  ghost predicate RemovedDuring(w: World, steps: seq<Step>, rid: Rid) {
    steps != [] &&
    var init, last := steps[..|steps| - 1], steps[|steps| - 1];
    RemovedDuring(w, init, rid) || (rid in Run(w, init).hub.pending && Removes(Run(w, init), last))
  }

  lemma EndedStep(w: World, step: Step, rid: Rid)
    requires Inv(w) && rid in w.requests
    ensures rid in Next(w, step).requests
    ensures Next(w, step).requests[rid].exit == Some(AgentRemoved) <==>
            w.requests[rid].exit == Some(AgentRemoved) || (rid in w.hub.pending && Removes(w, step))
  {
    PendingOrGone(w, rid);
    StepOfRequest(w, step, rid);
  }

  lemma {:induction false} EndedByRemoval(run: seq<Step>, steps: seq<Step>, rid: Rid)
    requires rid in Run(START, run).hub.pending
    ensures var w := Run(START, run);
            && rid in Run(w, steps).requests
            && (Run(w, steps).requests[rid].exit == Some(AgentRemoved) <==> RemovedDuring(w, steps, rid))
  {
    var w := Run(START, run);
    Reachable(run);
    if steps == [] {
      PendingOrGone(w, rid);
    } else {
      var init := steps[..|steps| - 1];
      EndedByRemoval(run, init, rid);
      RunKeeps(w, init);
      EndedStep(Run(w, init), steps[|steps| - 1], rid);
    }
  }

  /** The code looks a channel up under the lock and sends after releasing it. The channel it holds is closed by the time
      of the send, and the send panics, exactly when an agent was removed while the request was still pending. */
  lemma SendAfterLookup(run: seq<Step>, between: seq<Step>, rid: Rid)
    requires rid in Run(START, run).hub.pending
    ensures var held := Run(START, run).hub.pending[rid];
            var later := Run(START, run + between);
            && held in later.hub.channels
            && (later.hub.channels[held].IsClosed() <==> RemovedDuring(Run(START, run), between, rid))
  {
    var w := Run(START, run);
    Reachable(run);
    PendingOrGone(w, rid);
    EndedByRemoval(run, between, rid);
    LifeOfRequest(w, between, rid);
    FoldAppend(Next, START, run, between);
    Reachable(run + between);
    PendingOrGone(Run(w, between), rid);
  }

  /** The shortest run of that kind: another agent's disconnect between the lookup and the send. */
  lemma SendAfterLookupExample(c: Conn, p: Peer, t: Token, d: Conn, q: Peer, u: Token, rid: Rid, chan: ChanId)
    requires c != d && p != q && t != u && p != "" && q != "" && t != "" && u != ""
    ensures var run := [Connect(c, p, t), Connect(d, q, u)] + [Forward(rid, chan, p)];
            && rid in Run(START, run).hub.pending && Run(START, run).hub.pending[rid] == chan
            && chan in Run(START, run + [Disconnect(d)]).hub.channels
            && Run(START, run + [Disconnect(d)]).hub.channels[chan].IsClosed()
  {
    var two := [Connect(c, p, t), Connect(d, q, u)];
    TwoAgents(c, p, t, d, q, u);
    FoldSnoc(Next, START, two, Forward(rid, chan, p));
    FoldSnoc(Next, START, two + [Forward(rid, chan, p)], Disconnect(d));
  }

  // ---- Delivery ----

  lemma {:induction false} OneTerminal(ms: seq<Msg>)
    ensures forall i :: 0 <= i < |Through(ms)| - 1 ==> !Terminal(Through(ms)[i])
  {
    if ms == [] {
    } else {
      OneTerminal(ms[..|ms| - 1]);
    }
  }

  lemma {:induction false} TerminalLast(a: seq<Msg>, b: seq<Msg>)
    requires Subsequence(a, b)
    requires forall i :: 0 <= i < |b| - 1 ==> !Terminal(b[i])
    ensures forall i :: 0 <= i < |a| - 1 ==> !Terminal(a[i])
  {
    if a == [] {
    } else {
      if a[|a| - 1] == b[|b| - 1] && Subsequence(a[..|a| - 1], b[..|b| - 1]) {
        SubsequenceMembers(a[..|a| - 1], b[..|b| - 1]);
        forall i | 0 <= i < |a| - 1
          ensures !Terminal(a[i])
        {
          assert a[..|a| - 1][i] in a[..|a| - 1];
        }
      } else {
        TerminalLast(a, b[..|b| - 1]);
      }
    }
  }

  /** For every run and request: at most 64 messages are queued; what was read is an in-order selection of what was sent
      up to the first terminal message; nothing was read after a terminal one; and if no send met a full queue it is a
      prefix, complete once the request has finished and its queue is drained. */
  lemma Delivery(run: seq<Step>, rid: Rid)
    requires rid in Run(START, run).requests
    ensures var w := Run(START, run);
            var q := w.requests[rid];
            && q.chan in w.hub.channels
            && |w.hub.channels[q.chan].queue| <= 64
            && Subsequence(q.got, Through(q.sent))
            && (forall i :: 0 <= i < |q.got| - 1 ==> !Terminal(q.got[i]))
            && (q.got != [] ==> q.sent != [] && q.got[0] == q.sent[0])
            && (!q.dropped ==> q.got <= Through(q.sent))
            && (!q.dropped && q.exit == Some(Finished) && w.hub.channels[q.chan].queue == [] ==> q.got == Through(q.sent))
  {
    Reachable(run);
    var w := Run(START, run);
    var q := w.requests[rid];
    assert RequestSound(w.hub, rid, q);
    var queue := w.hub.channels[q.chan].queue;
    SubsequencePrefix(q.got, queue, Through(q.sent));
    OneTerminal(q.sent);
    TerminalLast(q.got, Through(q.sent));
    if queue == [] {
      assert q.got + queue == q.got;
    }
  }
}
