/** Whole runs of the relay: agent connections, phone requests and the hub, in any order. Each step is one
    lock-protected section of the relay; a step whose conditions do not hold changes nothing. */
module HubRuns {
  import opened Common
  import opened Wire
  import opened Hub

  /** An agent's socket; the relay reads messages from it only while it is open. */
  datatype Link = Link(peer: Peer, token: Token, open: bool)

  /** Why a request left the pending map. */
  datatype Exit = Finished | Unreachable | GaveUp | AgentRemoved

  /** The history of one phone request. */
  datatype Request = Request(
    chan: ChanId,
    agent: Peer,            // whom it was forwarded to
    exit: Option<Exit>,     // None while it is pending
    sent: seq<Msg>,         // what agents sent back under its id
    got: seq<Msg>,          // what its handler has read
    dropped: bool)          // whether a send met a full queue

  datatype World = World(hub: HubState, links: map<Conn, Link>, requests: map<Rid, Request>)

  const START := World(EMPTY, map[], map[])

  datatype Step =
    | Connect(conn: Conn, peer: Peer, token: Token)
    | ReRegister(conn: Conn, visibility: string)
    | BindMessage(conn: Conn, session: Token)
    | Reply(conn: Conn, rid: Rid, m: Msg)
    | Break(conn: Conn)                // the socket fails; its reader has not noticed yet
    | Disconnect(conn: Conn)           // the reader's deferred cleanup
    | RemovePeer(peer: Peer)
    | Forward(rid: Rid, chan: ChanId, agent: Peer)
    | WriteFailed(rid: Rid)
    | TimeOut(rid: Rid)
    | Read(rid: Rid)

  predicate IsOpen(w: World, c: Conn) {
    c in w.links && w.links[c].open
  }

  function HangUp(links: map<Conn, Link>, closed: set<Conn>): map<Conn, Link> {
    map c | c in links :: if c in closed then links[c].(open := false) else links[c]
  }

  /** The requests that leave the pending map get their reason. */
  function Leave(requests: map<Rid, Request>, rids: set<Rid>, why: Exit): map<Rid, Request> {
    map r | r in requests :: if r in rids then requests[r].(exit := Some(why)) else requests[r]
  }

  function Registering(w: World, p: Peer, token: Token, c: Conn, visibility: string): World {
    var h := Register(w.hub, p, token, c, visibility);
    World(h, HangUp(w.links, h.hungUp), w.requests)
  }

  function Removing(w: World, p: Peer): World {
    if p !in w.hub.agents then w
    else
      var h := Remove(w.hub, p);
      World(h, HangUp(w.links, h.hungUp), Leave(w.requests, w.hub.pending.Keys, AgentRemoved))
  }

  function Departing(w: World, c: Conn): World
    requires c in w.links
  {
    var p := w.links[c].peer;
    var w' := if p in w.hub.agents && w.hub.agents[p].conn == c then Removing(w, p) else w;
    w'.(links := HangUp(w'.links, {c}))
  }

  /** The history of a request after one more message was sent under its id. */
  function Record(h: HubState, rid: Rid, q: Request, m: Msg): Request {
    if rid !in h.pending then q.(sent := q.sent + [m])
    else
      var full := q.chan in h.channels && |h.channels[q.chan].queue| >= CAPACITY;
      q.(sent := q.sent + [m], dropped := q.dropped || full, exit := if Terminal(m) then Some(Finished) else q.exit)
  }

  function Replying(w: World, rid: Rid, m: Msg): World {
    if rid !in w.requests then w
    else
      w.(hub := Dispatch(w.hub, rid, m), requests := w.requests[rid := Record(w.hub, rid, w.requests[rid], m)])
  }

  function GivingUp(w: World, rid: Rid, why: Exit): World {
    if rid !in w.hub.pending || rid !in w.requests then w
    else w.(hub := Forget(w.hub, rid), requests := w.requests[rid := w.requests[rid].(exit := Some(why))])
  }

  function Reading(w: World, rid: Rid): World {
    if rid in w.requests && w.requests[rid].chan in w.hub.channels
       && w.hub.channels[w.requests[rid].chan].queue != []
    then
      var q := w.requests[rid];
      World(Take(w.hub, q.chan), w.links,
            w.requests[rid := q.(got := q.got + [w.hub.channels[q.chan].queue[0]])])
    else w
  }

  function Next(w: World, step: Step): World {
    match step
    case Connect(c, p, token) =>
      if c in w.links || p == "" || token == "" then w
      else Registering(w.(links := w.links[c := Link(p, token, true)]), p, token, c, "")
    case ReRegister(c, visibility) =>
      if !IsOpen(w, c) then w
      else Registering(w, w.links[c].peer, w.links[c].token, c, if visibility == "" then "private" else visibility)
    case BindMessage(c, session) =>
      if !IsOpen(w, c) || session == "" then w
      else
        var w' := w.(hub := Bind(w.hub, session, w.links[c].peer));
        // the log line cuts sixteen characters off the token: a shorter one ends the reader
        if |session| < 16 then Departing(w', c) else w'
    case Reply(c, rid, m) => if IsOpen(w, c) then Replying(w, rid, m) else w
    case Break(c) => w.(links := HangUp(w.links, {c}))
    case Disconnect(c) => if c in w.links then Departing(w, c) else w
    case RemovePeer(p) => Removing(w, p)
    case Forward(rid, chan, agent) =>
      if rid in w.requests || chan in w.hub.channels then w
      else World(Enter(w.hub, rid, chan), w.links, w.requests[rid := Request(chan, agent, None, [], [], false)])
    case WriteFailed(rid) => GivingUp(w, rid, Unreachable)
    case TimeOut(rid) => GivingUp(w, rid, GaveUp)
    case Read(rid) => Reading(w, rid)
  }

  function Run(w: World, steps: seq<Step>): World {
    Fold(Next, w, steps)
  }

  // ---- The invariant ----

  predicate HasTerminal(ms: seq<Msg>) {
    exists i :: 0 <= i < |ms| && Terminal(ms[i])
  }

  /** A list of messages up to and including its first terminal one. */
  function Through(ms: seq<Msg>): seq<Msg> {
    if ms == [] then []
    else if HasTerminal(ms[..|ms| - 1]) then Through(ms[..|ms| - 1])
    else ms
  }

  /** What has reached the handler or waits in the queue, compared with what was sent. */
  ghost predicate Delivered(q: Request, queue: seq<Msg>) {
    var accepted := q.got + queue;
    && Subsequence(accepted, Through(q.sent))
    && (q.exit == None ==> !HasTerminal(q.sent))
    && (q.exit == Some(Finished) ==> HasTerminal(q.sent))
    && (!q.dropped ==> accepted <= Through(q.sent))
    && (!q.dropped && (q.exit == None || q.exit == Some(Finished)) ==> accepted == Through(q.sent))
    && (q.exit == None && accepted == [] ==> q.sent == [])
    && (accepted != [] ==> q.sent != [] && accepted[0] == q.sent[0])
  }

  ghost predicate RequestSound(h: HubState, rid: Rid, q: Request) {
    && q.chan in h.channels
    && (q.exit == None <==> rid in h.pending)
    && (rid in h.pending ==> h.pending[rid] == q.chan)
    && (h.channels[q.chan].IsClosed() <==> q.exit == Some(AgentRemoved))
    && Delivered(q, h.channels[q.chan].queue)
  }

  ghost predicate RequestsSound(h: HubState, requests: map<Rid, Request>) {
    && (forall r <- h.pending :: r in requests)
    && (forall r <- requests :: RequestSound(h, r, requests[r]))
    && (forall r, q :: r in requests && q in requests && r != q ==> requests[r].chan != requests[q].chan)
  }

  /** Open sockets are exactly registered ones, and every session names a registered agent. */
  ghost predicate LinksSound(h: HubState, links: map<Conn, Link>) {
    && (forall c <- links :: links[c].open ==> links[c].peer in h.agents && h.agents[links[c].peer].conn == c)
    && (forall p <- h.agents :: h.agents[p].conn in links && links[h.agents[p].conn].peer == p
                             && links[h.agents[p].conn].token == h.agents[p].pairToken)
    && (forall c <- h.hungUp :: c in links && !links[c].open)
    && (forall s <- h.bySession :: h.bySession[s] in h.agents)
  }

  ghost predicate Inv(w: World) {
    Sound(w.hub) && LinksSound(w.hub, w.links) && RequestsSound(w.hub, w.requests)
  }

  // ---- Every step keeps it ----

  lemma RegisterKeepsSound(h: HubState, p: Peer, token: Token, c: Conn, visibility: string)
    requires Sound(h)
    ensures Sound(Register(h, p, token, c, visibility))
  {
  }

  lemma RemoveKeepsSound(h: HubState, p: Peer)
    requires Sound(h)
    ensures Sound(Remove(h, p))
  {
    if p in h.agents {
      forall c | c in h.channels && c in h.pending.Values
        ensures h.channels[c].closes == 0
      {
        var r :| r in h.pending && h.pending[r] == c;
      }
    }
  }

  /** A request whose own channel and pending entry are untouched stays sound. */
  lemma Untouched(h: HubState, h': HubState, r: Rid, q: Request)
    requires RequestSound(h, r, q)
    requires q.chan in h'.channels && h'.channels[q.chan] == h.channels[q.chan]
    requires r in h'.pending <==> r in h.pending
    requires r in h'.pending ==> h'.pending[r] == h.pending[r]
    ensures RequestSound(h', r, q)
  {
  }

  lemma SameChannels(requests: map<Rid, Request>, rid: Rid, q: Request)
    requires forall r, s :: r in requests && s in requests && r != s ==> requests[r].chan != requests[s].chan
    requires rid in requests && q.chan == requests[rid].chan
    ensures var rs := requests[rid := q];
            forall r, s :: r in rs && s in rs && r != s ==> rs[r].chan != rs[s].chan
  {
  }

  /** When only one request's record, pending entry and channel change, soundness of that one is enough. */
  lemma OneChanges(h: HubState, h': HubState, requests: map<Rid, Request>, rid: Rid, q: Request)
    requires RequestsSound(h, requests) && rid in requests && q.chan == requests[rid].chan
    requires RequestSound(h', rid, q)
    requires h'.channels.Keys == h.channels.Keys
    requires forall c <- h.channels :: c != q.chan ==> h'.channels[c] == h.channels[c]
    requires h'.pending.Keys <= h.pending.Keys
    requires forall r <- h.pending :: r != rid ==> r in h'.pending && h'.pending[r] == h.pending[r]
    ensures RequestsSound(h', requests[rid := q])
  {
    forall r | r in requests && r != rid
      ensures RequestSound(h', r, requests[r])
    {
      assert RequestSound(h, r, requests[r]);
      Untouched(h, h', r, requests[r]);
    }
    SameChannels(requests, rid, q);
  }

  lemma RegisteringKeeps(w: World, p: Peer, token: Token, c: Conn, visibility: string)
    requires Sound(w.hub) && RequestsSound(w.hub, w.requests)
    requires c in w.links && w.links[c] == Link(p, token, true)
    requires LinksSound(w.hub, w.links - {c}) || LinksSound(w.hub, w.links)
    ensures Inv(Registering(w, p, token, c, visibility))
  {
    RegisterKeepsSound(w.hub, p, token, c, visibility);
    var w' := Registering(w, p, token, c, visibility);
    forall r | r in w.requests
      ensures RequestSound(w'.hub, r, w'.requests[r])
    {
      Untouched(w.hub, w'.hub, r, w.requests[r]);
    }
    forall d | d in w'.links && w'.links[d].open
      ensures w'.links[d].peer in w'.hub.agents && w'.hub.agents[w'.links[d].peer].conn == d
    {
      if d != c {
        assert w.links[d].open && (w.links - {c})[d] == w.links[d];
        assert w.links[d].peer in w.hub.agents && w.hub.agents[w.links[d].peer].conn == d;
      }
    }
  }

  lemma RemovingKeeps(w: World, p: Peer)
    requires Inv(w)
    ensures Inv(Removing(w, p))
  {
    RemoveKeepsSound(w.hub, p);
    var w' := Removing(w, p);
    if p in w.hub.agents {
      forall r | r in w.requests
        ensures RequestSound(w'.hub, r, w'.requests[r])
      {
        var q := w.requests[r];
        assert RequestSound(w.hub, r, q);
        assert q.chan in w.hub.pending.Values <==> r in w.hub.pending by {
          if q.chan in w.hub.pending.Values {
            var s :| s in w.hub.pending && w.hub.pending[s] == q.chan;
            assert RequestSound(w.hub, s, w.requests[s]);
          }
        }
      }
    }
  }

  lemma BreakKeeps(w: World, c: Conn)
    requires Inv(w)
    ensures Inv(w.(links := HangUp(w.links, {c})))
  {
  }

  lemma DepartingKeeps(w: World, c: Conn)
    requires Inv(w) && c in w.links
    ensures Inv(Departing(w, c))
  {
    RemovingKeeps(w, w.links[c].peer);
    BreakKeeps(w, c);
    BreakKeeps(Removing(w, w.links[c].peer), c);
  }

  lemma BindingKeeps(w: World, c: Conn, session: Token)
    requires Inv(w) && IsOpen(w, c)
    ensures Inv(w.(hub := Bind(w.hub, session, w.links[c].peer)))
  {
    var w' := w.(hub := Bind(w.hub, session, w.links[c].peer));
    forall r | r in w.requests
      ensures RequestSound(w'.hub, r, w'.requests[r])
    {
      Untouched(w.hub, w'.hub, r, w.requests[r]);
    }
  }

  lemma ThroughSnoc(ms: seq<Msg>, m: Msg)
    ensures Through(ms + [m]) == if HasTerminal(ms) then Through(ms) else ms + [m]
    ensures HasTerminal(ms + [m]) <==> HasTerminal(ms) || Terminal(m)
    ensures !HasTerminal(ms) ==> Through(ms) == ms
  {
    assert (ms + [m])[..|ms|] == ms;
    assert (ms + [m])[|ms|] == m;
    if HasTerminal(ms) {
      var i :| 0 <= i < |ms| && Terminal(ms[i]);
      assert Terminal((ms + [m])[i]);
    }
    if ms != [] && HasTerminal(ms[..|ms| - 1]) {
      var i :| 0 <= i < |ms| - 1 && Terminal(ms[..|ms| - 1][i]);
      assert Terminal(ms[i]);
    }
  }

  /** A message that is accepted. */
  lemma DeliveredAccept(q: Request, queue: seq<Msg>, m: Msg)
    requires Delivered(q, queue) && q.exit == None
    ensures Delivered(q.(sent := q.sent + [m], exit := if Terminal(m) then Some(Finished) else None), queue + [m])
  {
    ThroughSnoc(q.sent, m);
    SubsequenceKeep(q.got + queue, q.sent, m);
    assert q.got + (queue + [m]) == (q.got + queue) + [m];
  }

  /** A message that meets a full queue. */
  lemma DeliveredDrop(q: Request, queue: seq<Msg>, m: Msg)
    requires Delivered(q, queue) && q.exit == None && queue != []
    ensures Delivered(q.(sent := q.sent + [m], dropped := true, exit := if Terminal(m) then Some(Finished) else None),
                      queue)
  {
    ThroughSnoc(q.sent, m);
    SubsequenceSkip(q.got + queue, q.sent, m);
  }

  /** A message for a request that has left. */
  lemma DeliveredLate(q: Request, queue: seq<Msg>, m: Msg)
    requires Delivered(q, queue) && q.exit.Some?
    ensures Delivered(q.(sent := q.sent + [m]), queue)
  {
    ThroughSnoc(q.sent, m);
    if !HasTerminal(q.sent) {
      SubsequenceSkip(q.got + queue, q.sent, m);
    }
  }

  lemma DispatchKeepsSound(h: HubState, rid: Rid, m: Msg)
    requires Sound(h)
    ensures Sound(Dispatch(h, rid, m))
  {
  }

  lemma AcceptKeeps(h: HubState, rid: Rid, q: Request, m: Msg)
    requires RequestSound(h, rid, q) && rid in h.pending && |h.channels[q.chan].queue| < CAPACITY
    ensures RequestSound(Dispatch(h, rid, m), rid, Record(h, rid, q, m))
  {
    DeliveredAccept(q, h.channels[q.chan].queue, m);
  }

  lemma DropKeeps(h: HubState, rid: Rid, q: Request, m: Msg)
    requires RequestSound(h, rid, q) && rid in h.pending && |h.channels[q.chan].queue| >= CAPACITY
    ensures RequestSound(Dispatch(h, rid, m), rid, Record(h, rid, q, m))
  {
    DeliveredDrop(q, h.channels[q.chan].queue, m);
  }

  /** The request a message is for. */
  lemma RecordKeeps(h: HubState, rid: Rid, q: Request, m: Msg)
    requires RequestSound(h, rid, q)
    ensures RequestSound(Dispatch(h, rid, m), rid, Record(h, rid, q, m))
  {
    if rid !in h.pending {
      DeliveredLate(q, h.channels[q.chan].queue, m);
    } else if |h.channels[q.chan].queue| < CAPACITY {
      AcceptKeeps(h, rid, q, m);
    } else {
      DropKeeps(h, rid, q, m);
    }
  }

  /** A reply touches the channel and the pending entry of its own request only. */
  lemma DispatchTouches(h: HubState, rid: Rid, q: Request, m: Msg)
    requires RequestSound(h, rid, q)
    ensures var h' := Dispatch(h, rid, m);
            && h'.agents == h.agents && h'.byPairToken == h.byPairToken && h'.bySession == h.bySession
            && h'.hungUp == h.hungUp && h'.channels.Keys == h.channels.Keys && h'.pending.Keys <= h.pending.Keys
            && (forall c <- h.channels :: c != q.chan ==> h'.channels[c] == h.channels[c])
            && (forall r <- h.pending :: r != rid ==> r in h'.pending && h'.pending[r] == h.pending[r])
  {
  }

  lemma ReplyingKeeps(w: World, rid: Rid, m: Msg)
    requires Inv(w)
    ensures Inv(Replying(w, rid, m))
  {
    if rid in w.requests {
      DispatchKeepsSound(w.hub, rid, m);
      assert RequestSound(w.hub, rid, w.requests[rid]);
      RecordKeeps(w.hub, rid, w.requests[rid], m);
      DispatchTouches(w.hub, rid, w.requests[rid], m);
      OneChanges(w.hub, Dispatch(w.hub, rid, m), w.requests, rid, Record(w.hub, rid, w.requests[rid], m));
    }
  }

  lemma ForgetKeepsSound(h: HubState, rid: Rid)
    requires Sound(h)
    ensures Sound(Forget(h, rid))
  {
  }

  lemma GivingUpOne(h: HubState, rid: Rid, q: Request, why: Exit)
    requires RequestSound(h, rid, q) && rid in h.pending && why in {Unreachable, GaveUp}
    ensures RequestSound(Forget(h, rid), rid, q.(exit := Some(why)))
  {
  }

  lemma GivingUpKeeps(w: World, rid: Rid, why: Exit)
    requires Inv(w) && why in {Unreachable, GaveUp}
    ensures Inv(GivingUp(w, rid, why))
  {
    var w' := GivingUp(w, rid, why);
    if rid in w.hub.pending {
      ForgetKeepsSound(w.hub, rid);
      var q := w.requests[rid];
      GivingUpOne(w.hub, rid, q, why);
      OneChanges(w.hub, w'.hub, w.requests, rid, q.(exit := Some(why)));
    }
  }

  lemma TakingOne(w: World, rid: Rid)
    requires Inv(w) && Reading(w, rid) != w
    ensures var w' := Reading(w, rid); RequestSound(w'.hub, rid, w'.requests[rid])
  {
    var q := w.requests[rid];
    assert RequestSound(w.hub, rid, q);
    var queue := w.hub.channels[q.chan].queue;
    assert q.got + [queue[0]] + queue[1..] == q.got + queue;
  }

  lemma TakeKeepsSound(h: HubState, c: ChanId)
    requires Sound(h)
    ensures Sound(Take(h, c))
  {
  }

  lemma ReadingKeeps(w: World, rid: Rid)
    requires Inv(w)
    ensures Inv(Reading(w, rid))
  {
    var w' := Reading(w, rid);
    if w' != w {
      TakeKeepsSound(w.hub, w.requests[rid].chan);
      TakingOne(w, rid);
      OneChanges(w.hub, w'.hub, w.requests, rid, w'.requests[rid]);
    }
  }

  lemma EnterKeepsSound(h: HubState, rid: Rid, chan: ChanId)
    requires Sound(h) && rid !in h.pending && chan !in h.channels
    ensures Sound(Enter(h, rid, chan))
  {
  }

  lemma EnteringOne(h: HubState, rid: Rid, chan: ChanId, agent: Peer)
    ensures RequestSound(Enter(h, rid, chan), rid, Request(chan, agent, None, [], [], false))
  {
    assert [] + Channel([], 0).queue == [];
  }

  lemma EnteringOthers(h: HubState, requests: map<Rid, Request>, rid: Rid, chan: ChanId)
    requires RequestsSound(h, requests) && rid !in requests && chan !in h.channels
    ensures forall r <- requests :: RequestSound(Enter(h, rid, chan), r, requests[r]) && requests[r].chan != chan
  {
    forall r | r in requests
      ensures RequestSound(Enter(h, rid, chan), r, requests[r]) && requests[r].chan != chan
    {
      assert RequestSound(h, r, requests[r]);
      Untouched(h, Enter(h, rid, chan), r, requests[r]);
    }
  }

  lemma OneMoreRequest(h: HubState, requests: map<Rid, Request>, rid: Rid, q: Request)
    requires rid !in requests && RequestSound(h, rid, q)
    requires forall r <- h.pending :: r in requests || r == rid
    requires forall r <- requests :: RequestSound(h, r, requests[r]) && requests[r].chan != q.chan
    requires forall r, s :: r in requests && s in requests && r != s ==> requests[r].chan != requests[s].chan
    ensures RequestsSound(h, requests[rid := q])
  {
  }

  lemma ForwardKeeps(w: World, rid: Rid, chan: ChanId, agent: Peer)
    requires Inv(w) && rid !in w.requests && chan !in w.hub.channels
    ensures Inv(Next(w, Forward(rid, chan, agent)))
  {
    var w' := Next(w, Forward(rid, chan, agent));
    assert rid !in w.hub.pending;
    EnterKeepsSound(w.hub, rid, chan);
    EnteringOne(w.hub, rid, chan, agent);
    EnteringOthers(w.hub, w.requests, rid, chan);
    OneMoreRequest(w'.hub, w.requests, rid, Request(chan, agent, None, [], [], false));
  }

  lemma ConnectKeeps(w: World, c: Conn, p: Peer, token: Token)
    requires Inv(w) && c !in w.links
    ensures Inv(Registering(w.(links := w.links[c := Link(p, token, true)]), p, token, c, ""))
  {
    var w' := w.(links := w.links[c := Link(p, token, true)]);
    assert w'.links - {c} == w.links;
    RegisteringKeeps(w', p, token, c, "");
  }

  lemma BindMessageKeeps(w: World, c: Conn, session: Token)
    requires Inv(w)
    ensures Inv(Next(w, BindMessage(c, session)))
  {
    if IsOpen(w, c) && session != "" {
      BindingKeeps(w, c, session);
      DepartingKeeps(w.(hub := Bind(w.hub, session, w.links[c].peer)), c);
    }
  }

  lemma NextKeeps(w: World, step: Step)
    requires Inv(w)
    ensures Inv(Next(w, step))
  {
    match step {
      case Connect(c, p, token) =>
        if c !in w.links {
          ConnectKeeps(w, c, p, token);
        }
      case ReRegister(c, visibility) =>
        if IsOpen(w, c) {
          var l := w.links[c];
          RegisteringKeeps(w, l.peer, l.token, c, if visibility == "" then "private" else visibility);
        }
      case BindMessage(c, session) => BindMessageKeeps(w, c, session);
      case Reply(c, rid, m) => ReplyingKeeps(w, rid, m);
      case Break(c) => BreakKeeps(w, c);
      case Disconnect(c) =>
        if c in w.links {
          DepartingKeeps(w, c);
        }
      case RemovePeer(p) => RemovingKeeps(w, p);
      case Forward(rid, chan, agent) =>
        if rid !in w.requests && chan !in w.hub.channels {
          ForwardKeeps(w, rid, chan, agent);
        }
      case WriteFailed(rid) => GivingUpKeeps(w, rid, Unreachable);
      case TimeOut(rid) => GivingUpKeeps(w, rid, GaveUp);
      case Read(rid) => ReadingKeeps(w, rid);
    }
  }

  /** The invariant holds throughout every run. */
  lemma {:induction false} RunKeeps(w: World, steps: seq<Step>)
    requires Inv(w)
    ensures Inv(Run(w, steps))
  {
    if steps == [] {
    } else {
      RunKeeps(w, steps[..|steps| - 1]);
      NextKeeps(Run(w, steps[..|steps| - 1]), steps[|steps| - 1]);
    }
  }
}
