/** The relay's hub: four linked maps under one lock, and the channels that carry replies to waiting handlers. */
module Hub {
  import opened Common
  import opened Wire

  type Peer = string
  type Token = string
  type Rid = string
  type Conn = nat
  type ChanId = nat

  datatype AgentConn = AgentConn(peer: Peer, pairToken: Token, conn: Conn, visibility: string)

  const CAPACITY := 64

  /** A buffered channel; `closes` counts how often it was closed. */
  datatype Channel = Channel(queue: seq<Msg>, closes: nat) {
    predicate IsClosed() {
      closes > 0
    }
  }

  datatype HubState = HubState(
    agents: map<Peer, AgentConn>,
    byPairToken: map<Token, Peer>,
    bySession: map<Token, Peer>,
    pending: map<Rid, ChanId>,
    channels: map<ChanId, Channel>,
    hungUp: set<Conn>)  // connections the hub has closed

  const EMPTY := HubState(map[], map[], map[], map[], map[], {})

  // ---- Index integrity ----

  /** Pair tokens name registered agents that carry them, pending requests wait on open channels of their own, and no
      queue exceeds its capacity. */
  ghost predicate Sound(h: HubState) {
    && (forall p <- h.agents :: h.agents[p].peer == p)
    && (forall t <- h.byPairToken :: h.byPairToken[t] in h.agents && h.agents[h.byPairToken[t]].pairToken == t)
    && (forall r <- h.pending :: h.pending[r] in h.channels && !h.channels[h.pending[r]].IsClosed())
    && (forall r, q :: r in h.pending && q in h.pending && r != q ==> h.pending[r] != h.pending[q])
    && (forall c <- h.channels :: |h.channels[c].queue| <= CAPACITY && h.channels[c].closes <= 1)
  }

  // ---- What each operation does to the whole state ----

  function Without<K, V(==)>(m: map<K, V>, v: V): map<K, V> {
    map k | k in m && m[k] != v :: m[k]
  }

  function Register(h: HubState, p: Peer, token: Token, conn: Conn, visibility: string): HubState {
    h.(agents := h.agents[p := AgentConn(p, token, conn, visibility)],
       byPairToken := Without(h.byPairToken, p)[token := p],
       hungUp := h.hungUp + if p in h.agents && h.agents[p].conn != conn then {h.agents[p].conn} else {})
  }

  function CloseAll(channels: map<ChanId, Channel>, which: set<ChanId>): map<ChanId, Channel> {
    map c | c in channels :: if c in which then channels[c].(closes := channels[c].closes + 1) else channels[c]
  }

  /** The channels some of the requests wait on. */
  ghost function Waiting(pending: map<Rid, ChanId>, rids: set<Rid>): set<ChanId> {
    set r | r in rids && r in pending :: pending[r]
  }

  /** Requests that wait on channels of their own add one channel at a time. */
  lemma WaitingOneMore(pending: map<Rid, ChanId>, left: set<Rid>, r: Rid)
    requires r in left && left <= pending.Keys
    requires forall q, q' :: q in pending && q' in pending && q != q' ==> pending[q] != pending[q']
    ensures pending[r] !in Waiting(pending, pending.Keys - left)
    ensures Waiting(pending, pending.Keys - (left - {r})) == Waiting(pending, pending.Keys - left) + {pending[r]}
  {
    assert pending.Keys - (left - {r}) == (pending.Keys - left) + {r};
  }

  lemma CloseNone(channels: map<ChanId, Channel>)
    ensures CloseAll(channels, {}) == channels
  {
  }

  lemma CloseOneMore(channels: map<ChanId, Channel>, closed: set<ChanId>, c: ChanId)
    requires c in channels && c !in closed && channels[c].closes == 0
    ensures CloseAll(channels, closed)[c := CloseAll(channels, closed)[c].(closes := 1)]
         == CloseAll(channels, closed + {c})
  {
  }

  /** Removing an agent forgets its tokens and sessions, and fails every pending request of every agent. */
  function Remove(h: HubState, p: Peer): HubState {
    if p !in h.agents then h
    else HubState(h.agents - {p}, Without(h.byPairToken, p), Without(h.bySession, p), map[],
                  CloseAll(h.channels, h.pending.Values), h.hungUp + {h.agents[p].conn})
  }

  /** Nothing in the hub leads to the peer any more. */
  ghost predicate Forgotten(h: HubState, p: Peer) {
    && p !in h.agents
    && (forall t <- h.byPairToken :: h.byPairToken[t] != p)
    && (forall s <- h.bySession :: h.bySession[s] != p)
  }

  lemma RemoveForgets(h: HubState, p: Peer)
    requires Sound(h) && p in h.agents
    ensures var h' := Remove(h, p);
            && Forgotten(h', p)
            && (forall r <- h.pending :: h.pending[r] in h'.channels && h'.channels[h.pending[r]].closes == 1)
            && (forall c <- h.channels :: c !in h.pending.Values ==> c in h'.channels && h'.channels[c] == h.channels[c])
  {
    assert forall r <- h.pending :: h.pending[r] in h.pending.Values;
  }

  /** Only the connection that is still registered may remove its agent. */
  function Unregister(h: HubState, p: Peer, conn: Conn): HubState {
    if p in h.agents && h.agents[p].conn == conn then Remove(h, p) else h
  }

  function Bind(h: HubState, session: Token, p: Peer): HubState {
    h.(bySession := h.bySession[session := p])
  }

  /** Lookup by pair token or by session: a stale index entry finds nobody. */
  function Find(h: HubState, index: map<Token, Peer>, token: Token): Option<AgentConn> {
    if token in index && index[token] in h.agents then Some(h.agents[index[token]]) else None
  }

  function Enter(h: HubState, rid: Rid, chan: ChanId): HubState {
    h.(pending := h.pending[rid := chan], channels := h.channels[chan := Channel([], 0)])
  }

  function Forget(h: HubState, rid: Rid): HubState {
    h.(pending := h.pending - {rid})
  }

  function Offer(c: Channel, m: Msg): Channel {
    if |c.queue| < CAPACITY then c.(queue := c.queue + [m]) else c
  }

  /** A reply goes to the channel of its request, is dropped when that is full, and a terminal one ends the request. */
  function Dispatch(h: HubState, rid: Rid, m: Msg): HubState {
    if rid !in h.pending || h.pending[rid] !in h.channels then h
    else
      var c := h.pending[rid];
      var h' := h.(channels := h.channels[c := Offer(h.channels[c], m)]);
      if Terminal(m) then Forget(h', rid) else h'
  }

  /** The waiting handler takes the next message. */
  function Take(h: HubState, c: ChanId): HubState {
    if c in h.channels && h.channels[c].queue != [] then
      h.(channels := h.channels[c := h.channels[c].(queue := h.channels[c].queue[1..])])
    else h
  }

  // ---- The hub itself ----

  class RelayHub {
    var agents: map<Peer, AgentConn>
    var byPairToken: map<Token, Peer>
    var bySession: map<Token, Peer>
    var pending: map<Rid, ChanId>
    var channels: map<ChanId, Channel>
    var hungUp: set<Conn>

    constructor ()
      ensures Now() == EMPTY && Sound(Now())
    {
      agents, byPairToken, bySession, pending, channels, hungUp := map[], map[], map[], map[], map[], {};
    }

    ghost function Now(): HubState
      reads this
    {
      HubState(agents, byPairToken, bySession, pending, channels, hungUp)
    }

    method RegisterAgent(p: Peer, token: Token, conn: Conn, visibility: string) returns (ac: AgentConn)
      requires Sound(Now())
      modifies this
      ensures Now() == Register(old(Now()), p, token, conn, visibility)
      ensures Sound(Now()) && agents == old(agents)[p := ac] && ac == AgentConn(p, token, conn, visibility)
      ensures forall t :: t in byPairToken && byPairToken[t] == p <==> t == token
      ensures forall t :: t in byPairToken && byPairToken[t] != p <==>
                          t != token && t in old(byPairToken) && old(byPairToken)[t] != p
      ensures forall d :: d in hungUp <==>
                          d in old(hungUp) || (p in old(agents) && d == old(agents)[p].conn && d != conn)
    {
      if p in agents && agents[p].conn != conn {
        hungUp := hungUp + {agents[p].conn};
      }
      DropTokens(p);
      ac := AgentConn(p, token, conn, visibility);
      agents := agents[p := ac];
      byPairToken := byPairToken[token := p];
    }

    /** Deletes the peer's pair tokens while walking over the map. */
    method DropTokens(p: Peer)
      modifies this`byPairToken
      ensures byPairToken == Without(old(byPairToken), p)
    {
      var left := byPairToken.Keys;
      while left != {}
        invariant left <= old(byPairToken).Keys
        invariant byPairToken == map t | t in old(byPairToken) && (t in left || old(byPairToken)[t] != p) ::
                                   old(byPairToken)[t]
        decreases left
      {
        var t :| t in left;
        if byPairToken[t] == p {
          byPairToken := byPairToken - {t};
        }
        left := left - {t};
      }
    }

    method DropSessions(p: Peer)
      modifies this`bySession
      ensures bySession == Without(old(bySession), p)
    {
      var left := bySession.Keys;
      while left != {}
        invariant left <= old(bySession).Keys
        invariant bySession == map t | t in old(bySession) && (t in left || old(bySession)[t] != p) ::
                                 old(bySession)[t]
        decreases left
      {
        var t :| t in left;
        if bySession[t] == p {
          bySession := bySession - {t};
        }
        left := left - {t};
      }
    }

    /** Closing a channel a second time would crash the relay. */
    method CloseChannel(c: ChanId)
      requires c in channels && !channels[c].IsClosed()
      modifies this`channels
      ensures channels == old(channels)[c := old(channels)[c].(closes := 1)]
    {
      channels := channels[c := channels[c].(closes := channels[c].closes + 1)];
    }

    method FailAllPending()
      requires Sound(Now())
      modifies this`channels, this`pending
      ensures pending == map[] && channels == CloseAll(old(channels), old(pending).Values)
    {
      ghost var all := pending;
      var left := pending.Keys;
      CloseNone(channels);
      assert Waiting(all, {}) == {};
      while left != {}
        invariant left <= all.Keys
        invariant pending == map r | r in left :: all[r]
        invariant channels == CloseAll(old(channels), Waiting(all, all.Keys - left))
        decreases left
      {
        var r :| r in left;
        WaitingOneMore(all, left, r);
        CloseOneMore(old(channels), Waiting(all, all.Keys - left), all[r]);
        CloseChannel(pending[r]);
        pending := pending - {r};
        left := left - {r};
      }
      assert Waiting(all, all.Keys) == all.Values;
    }

    method UnregisterAgent(p: Peer, conn: Conn)
      requires Sound(Now())
      modifies this
      ensures Now() == Unregister(old(Now()), p, conn) && Sound(Now())
      ensures !(p in old(agents) && old(agents)[p].conn == conn) ==> Now() == old(Now())
      ensures p in old(agents) && old(agents)[p].conn == conn ==>
                && agents == old(agents) - {p} && Forgotten(Now(), p) && pending == map[]
                && hungUp == old(hungUp) + {conn}
                && (forall t <- old(byPairToken) :: old(byPairToken)[t] != p ==> t in byPairToken)
                && (forall t <- old(bySession) :: old(bySession)[t] != p ==> t in bySession)
    {
      if p in agents && agents[p].conn == conn {
        UnregisterAgentByPeer(p);
      }
    }

    method UnregisterAgentByPeer(p: Peer)
      requires Sound(Now())
      modifies this
      ensures Now() == Remove(old(Now()), p) && Sound(Now())
      ensures p !in old(agents) ==> Now() == old(Now())
      ensures p in old(agents) ==>
                && agents == old(agents) - {p} && Forgotten(Now(), p) && pending == map[]
                && hungUp == old(hungUp) + {old(agents)[p].conn}
                && (forall r <- old(pending) :: old(pending)[r] in channels && channels[old(pending)[r]].closes == 1)
                && (forall c <- old(channels) :: c !in old(pending).Values ==>
                      c in channels && channels[c] == old(channels)[c])
    {
      if p !in agents {
        return;
      }
      RemoveForgets(Now(), p);
      hungUp := hungUp + {agents[p].conn};
      FailAllPending();
      agents := agents - {p};
      DropTokens(p);
      DropSessions(p);
    }

    method BindSession(session: Token, p: Peer)
      requires Sound(Now())
      modifies this
      ensures Now() == Bind(old(Now()), session, p) && Sound(Now())
      ensures bySession == old(bySession)[session := p] && agents == old(agents) && pending == old(pending)
    {
      bySession := bySession[session := p];
    }

    method FindAgentByPairToken(token: Token) returns (ac: Option<AgentConn>)
      ensures ac == Find(Now(), byPairToken, token)
      ensures Sound(Now()) ==> (ac.Some? <==> token in byPairToken)
      ensures Sound(Now()) && ac.Some? ==> ac.value.pairToken == token && agents[ac.value.peer] == ac.value
    {
      if token !in byPairToken {
        return None;
      }
      ac := if byPairToken[token] in agents then Some(agents[byPairToken[token]]) else None;
    }

    method FindAgentBySessionToken(token: Token) returns (ac: Option<AgentConn>)
      ensures ac == Find(Now(), bySession, token)
      ensures Sound(Now()) && ac.Some? ==> bySession[token] == ac.value.peer && agents[ac.value.peer] == ac.value
    {
      if token !in bySession {
        return None;
      }
      ac := if bySession[token] in agents then Some(agents[bySession[token]]) else None;
    }

    /** One step: nobody closes the channel between the lookup and the send. */
    method DispatchResponse(rid: Rid, m: Msg)
      requires Sound(Now())
      modifies this
      ensures Now() == Dispatch(old(Now()), rid, m) && Sound(Now())
      ensures rid !in old(pending) ==> Now() == old(Now())
      ensures rid in old(pending) ==>
                var c := old(pending)[rid];
                var was := old(channels)[c].queue;
                && c in channels
                && channels[c].queue == (if |was| < 64 then was + [m] else was)
                && (rid in pending <==> !(m.Res? || m.ResEnd? || m.Err?))
    {
      if rid !in pending {
        return;
      }
      var c := pending[rid];
      assert !channels[c].IsClosed();
      if |channels[c].queue| < CAPACITY {
        channels := channels[c := channels[c].(queue := channels[c].queue + [m])];
      }
      if Terminal(m) {
        pending := pending - {rid};
      }
    }

    /** The request id and the channel are fresh; `written` tells whether the agent could be reached. */
    method ForwardToAgent(rid: Rid, chan: ChanId, written: bool) returns (ch: Option<ChanId>)
      requires Sound(Now()) && rid !in pending && chan !in channels
      modifies this
      ensures Now() == (var h := Enter(old(Now()), rid, chan); if written then h else Forget(h, rid))
      ensures Sound(Now()) && ch == if written then Some(chan) else None
      ensures pending == if written then old(pending)[rid := chan] else old(pending)
      ensures channels == old(channels)[chan := Channel([], 0)] && agents == old(agents)
    {
      channels := channels[chan := Channel([], 0)];
      pending := pending[rid := chan];
      if !written {
        pending := pending - {rid};
        return None;
      }
      ch := Some(chan);
    }

    method ForgetRequest(rid: Rid)
      requires Sound(Now())
      modifies this
      ensures Now() == Forget(old(Now()), rid) && Sound(Now())
      ensures pending == old(pending) - {rid} && channels == old(channels) && agents == old(agents)
    {
      pending := pending - {rid};
    }

    /** A receive that does not block: the next message, or the news that the channel is closed and drained. */
    method Receive(c: ChanId) returns (m: Option<Msg>, closed: bool)
      requires Sound(Now()) && c in channels
      modifies this
      ensures Now() == Take(old(Now()), c) && Sound(Now())
      ensures m == if old(channels)[c].queue != [] then Some(old(channels)[c].queue[0]) else None
      ensures closed <==> m.None? && channels[c].IsClosed()
    {
      if channels[c].queue == [] {
        return None, channels[c].IsClosed();
      }
      m, closed := Some(channels[c].queue[0]), false;
      channels := channels[c := channels[c].(queue := channels[c].queue[1..])];
    }
  }
}
