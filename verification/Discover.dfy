/** Discovery: which agents a phone is shown, and what happens when it asks to connect to one. */
module Discover {
  import opened Common
  import opened Ownership
  import Hub
  import Runs = HubRuns
  import Guarantees = HubGuarantees

  datatype Request = Request(fromDevice: string, fromOwner: User, toPeer: Peer, toOwner: User, status: string)

  datatype Listing = Listing(peer: Peer, owner: User, claimed: bool, visibility: string, isOwn: bool, canRequest: bool)

  datatype Outcome =
    | Crash                          // the requester has no agent: a nil pointer is followed
    | Offline
    | Conflict(owner: User)
    | Approved(pairToken: string)
    | Private
    | Pending(id: string)

  /** The user behind a session: the owner of its agent, else the recorded owner of the session. */
  function CurrentOwner(h: Hub.HubState, r: Records, session: Token): User {
    var agent := Hub.Find(h, h.bySession, session);
    var owner := if agent.Some? then OwnerOf(r, agent.value.peer) else "";
    if owner == "" && session in r.sessions then r.sessions[session] else owner
  }

  /** The visibility of a connected agent, else the persisted one, else private. */
  function VisibilityOf(r: Records, a: Hub.AgentConn): string {
    if a.visibility != "" then a.visibility
    else if a.peer in r.visibility then r.visibility[a.peer]
    else "private"
  }

  function Describe(r: Records, me: User, a: Hub.AgentConn): Option<Listing> {
    var claimed := a.peer in r.owners;
    var owner := OwnerOf(r, a.peer);
    var isOwn := claimed && owner == me;
    var visibility := VisibilityOf(r, a);
    if !isOwn && visibility != "public" then None
    else Some(Listing(a.peer, owner, claimed, visibility, isOwn, claimed && !isOwn && visibility == "public"))
  }

  function DeviceName(header: string): string {
    if header == "" then "Unknown Device" else header
  }

  function ClaimUser(owner: User, device: string): User {
    if owner == "" then device else owner
  }

  function Connect(h: Hub.HubState, r: Records, session: Token, target: Peer, deviceHeader: string, freshId: string,
                   saved: bool): Outcome {
    var me := CurrentOwner(h, r, session);
    if h.agents != map[] && Hub.Find(h, h.bySession, session).None? then Crash
    else if target !in h.agents then Offline
    else if target !in r.owners then
      if saved then Approved(h.agents[target].pairToken) else Conflict("")
    else if r.owners[target] == me && me != "" then Approved(h.agents[target].pairToken)
    else
      var a := h.agents[target];
      var vis := if a.visibility != "" then a.visibility
                 else if target in r.visibility then r.visibility[target] else "private";
      if vis == "public" then Pending(freshId) else Private
  }

  class DiscoverHandlers {
    var requests: map<string, Request>

    constructor ()
      ensures requests == map[]
    {
      requests := map[];
    }

    /** The agents a session is shown, one by one in the map's order. */
    method HandleDiscoverAgents(h: Hub.HubState, r: Records, session: Token) returns (shown: seq<Listing>)
      ensures forall l <- shown :: exists p <- h.agents :: Describe(r, CurrentOwner(h, r, session), h.agents[p]) == Some(l)
      ensures forall p <- h.agents :: Describe(r, CurrentOwner(h, r, session), h.agents[p]).Some? ==>
                Describe(r, CurrentOwner(h, r, session), h.agents[p]).value in shown
      ensures Hub.Sound(h) ==> forall i, j :: 0 <= i < j < |shown| ==> shown[i].peer != shown[j].peer
    {
      var me := CurrentOwner(h, r, session);
      shown := [];
      var left := h.agents.Keys;
      while left != {}
        invariant left <= h.agents.Keys
        invariant forall l <- shown :: exists p <- h.agents :: Describe(r, me, h.agents[p]) == Some(l)
        invariant forall p <- h.agents :: p !in left && Describe(r, me, h.agents[p]).Some? ==>
                    Describe(r, me, h.agents[p]).value in shown
        invariant Hub.Sound(h) ==> forall l <- shown :: l.peer in h.agents && l.peer !in left
        invariant Hub.Sound(h) ==> forall i, j :: 0 <= i < j < |shown| ==> shown[i].peer != shown[j].peer
        decreases left
      {
        var p :| p in left;
        var l := Describe(r, me, h.agents[p]);
        if l.Some? {
          shown := shown + [l.value];
        }
        left := left - {p};
      }
    }

    /** Asking to connect to an agent, all in one state of the hub and the records. */
    method HandleDiscoverConnect(h: Hub.HubState, om: OwnershipManager, session: Token, target: Peer,
                                 deviceHeader: string, freshId: string, saved: bool) returns (o: Outcome)
      requires freshId !in requests
      modifies this, om
      ensures o == Connect(h, old(om.Now()), session, target, deviceHeader, freshId, saved)
      ensures o.Pending? ==>
                requests == old(requests)[freshId := Request(DeviceName(deviceHeader),
                                                             CurrentOwner(h, old(om.Now()), session), target,
                                                             OwnerOf(old(om.Now()), target), "pending")]
      ensures !o.Pending? ==> requests == old(requests)
      ensures om.Now() ==
              if o.Approved? || o.Conflict? then
                if target in old(om.owners) then old(om.Now())
                else AfterClaim(old(om.Now()), target,
                                ClaimUser(CurrentOwner(h, old(om.Now()), session), DeviceName(deviceHeader)))
              else old(om.Now())
    {
      var agent := Hub.Find(h, h.bySession, session);
      var fromOwner := "";
      if agent.Some? && agent.value.peer in om.owners {
        fromOwner := om.owners[agent.value.peer];
      }
      if fromOwner == "" && session in om.sessions {
        fromOwner := om.sessions[session];
      }
      if h.agents != map[] && agent.None? {
        return Crash;
      }
      var fromDevice := "Unknown Device";
      if deviceHeader != "" {
        fromDevice := deviceHeader;
      }
      if target !in h.agents {
        return Offline;
      }
      var targetAC := h.agents[target];
      if target !in om.owners {
        var claimUser := fromOwner;
        if claimUser == "" {
          claimUser := fromDevice;
        }
        var claimed := om.ClaimAgent(target, claimUser, saved);
        match claimed {
          case Claimed => return Approved(targetAC.pairToken);
          case AlreadyClaimed(owner) => return Conflict(owner);
          case SaveFailed => return Conflict("");
        }
      }
      if om.owners[target] == fromOwner && fromOwner != "" {
        return Approved(targetAC.pairToken);
      }
      var vis := targetAC.visibility;
      if vis == "" {
        vis := if target in om.visibility then om.visibility[target] else "private";
      }
      if vis != "public" {
        return Private;
      }
      requests := requests[freshId := Request(fromDevice, fromOwner, target, om.owners[target], "pending")];
      o := Pending(freshId);
    }
  }

  /** Whose requester it is: the owner of the agent its session is bound to, if that is online and owned by somebody with a
      name; else the owner recorded for the session, if any; else nobody. */
  lemma WhoAsks(h: Hub.HubState, r: Records, session: Token)
    requires Hub.Sound(h)
    ensures session in h.bySession && h.bySession[session] in h.agents && h.bySession[session] in r.owners
            && r.owners[h.bySession[session]] != "" ==>
              CurrentOwner(h, r, session) == r.owners[h.bySession[session]]
    ensures session !in h.bySession || h.bySession[session] !in h.agents || h.bySession[session] !in r.owners ==>
              CurrentOwner(h, r, session) == if session in r.sessions then r.sessions[session] else ""
  {
  }

  /** An agent is open to everybody if it says so itself, or if it says nothing and its records do. */
  predicate Public(r: Records, a: Hub.AgentConn) {
    a.visibility == "public" || (a.visibility == "" && a.peer in r.visibility && r.visibility[a.peer] == "public")
  }

  /** What the listing shows, and what it says. */
  lemma WhatIsListed(r: Records, me: User, a: Hub.AgentConn)
    ensures var l := Describe(r, me, a);
            var own := a.peer in r.owners && r.owners[a.peer] == me;
            && (l.Some? <==> own || Public(r, a))
            && (l.Some? ==>
                  && l.value.peer == a.peer && l.value.isOwn == own && (l.value.claimed <==> a.peer in r.owners)
                  && (a.peer in r.owners ==> l.value.owner == r.owners[a.peer])
                  && (l.value.canRequest <==> a.peer in r.owners && !own && Public(r, a)))
  {
  }

  /** What a connect request comes to, case by case. */
  lemma WhatConnectDoes(h: Hub.HubState, r: Records, session: Token, target: Peer, device: string, id: string, saved: bool)
    requires Hub.Sound(h) && Hub.Find(h, h.bySession, session).Some?
    ensures var me := CurrentOwner(h, r, session);
            var o := Connect(h, r, session, target, device, id, saved);
            && (o == Offline <==> target !in h.agents)
            && (target in h.agents ==>
                  var own := target in r.owners && r.owners[target] == me && me != "";
                  && (o.Approved? <==> own || (target !in r.owners && saved))
                  && (o.Approved? ==> o.pairToken == h.agents[target].pairToken)
                  && (o.Conflict? <==> target !in r.owners && !saved)
                  && (o == Pending(id) <==> target in r.owners && !own && Public(r, h.agents[target]))
                  && (o == Private <==> target in r.owners && !own && !Public(r, h.agents[target])))
  {
  }

  /** The promise of the listing, over every run of the ownership records: for a requester whose session is bound to an
      online agent, an agent is listed as open to requests if and only if connecting to it in the same state creates a
      pending request; one listed as the requester's own is approved at once; and one that is not listed stays private,
      unless nobody owns it. */
  lemma ListingIsHonest(h: Hub.HubState, steps: seq<Step>, session: Token, target: Peer, device: string, id: string,
                        saved: bool)
    requires Hub.Sound(h) && Hub.Find(h, h.bySession, session).Some? && target in h.agents
    ensures var r := Fold(Next, START, steps).records;
            var l := Describe(r, CurrentOwner(h, r, session), h.agents[target]);
            var o := Connect(h, r, session, target, device, id, saved);
            && (l.Some? && l.value.canRequest <==> o == Pending(id))
            && (l.Some? && l.value.isOwn ==> o == Approved(h.agents[target].pairToken))
            && (l.None? ==> o == Private || target !in r.owners)
  {
    TokensAreUsedOnce(steps);
  }

  /** Exactly one family of states breaks it: an owner recorded as empty, seen by a requester without an owner. Then the
      agent is listed as the requester's own, but connecting still creates a request. */
  lemma EmptyOwnersWouldBreakIt(h: Hub.HubState, r: Records, session: Token, target: Peer, device: string, id: string,
                                saved: bool)
    requires Hub.Sound(h) && Hub.Find(h, h.bySession, session).Some? && target in h.agents
    ensures var me := CurrentOwner(h, r, session);
            var l := Describe(r, me, h.agents[target]);
            ((l.Some? && l.value.canRequest) != Connect(h, r, session, target, device, id, saved).Pending?) <==>
            target in r.owners && r.owners[target] == "" && me == "" && VisibilityOf(r, h.agents[target]) == "public"
  {
  }

  /** A requester without an agent crashes the handler whenever any agent is online. */
  lemma UnboundRequesterCrashes(h: Hub.HubState, r: Records, session: Token, target: Peer, device: string, id: string,
                                saved: bool)
    ensures Connect(h, r, session, target, device, id, saved) == Crash <==>
            h.agents != map[] && Hub.Find(h, h.bySession, session).None?
  {
  }

  /** So in every reachable state a phone that asks after its own agent has disconnected crashes the handler, whatever it
      asks for, if another agent is online. */
  lemma CrashAfterDisconnect(run: seq<Runs.Step>, c: Hub.Conn, session: Token, q: Peer, r: Records, target: Peer,
                             device: string, id: string, saved: bool)
    requires var w := Runs.Run(Runs.START, run);
             && c in w.links && Guarantees.Taken(w, Runs.Disconnect(c)) == Some(w.links[c].peer)
             && session in w.hub.bySession && w.hub.bySession[session] == w.links[c].peer
             && q in w.hub.agents && q != w.links[c].peer
    ensures Connect(Runs.Next(Runs.Run(Runs.START, run), Runs.Disconnect(c)).hub, r, session, target, device, id, saved)
            == Crash
  {
    var h := Runs.Next(Runs.Run(Runs.START, run), Runs.Disconnect(c)).hub;
    assert q in h.agents && session !in h.bySession;
  }

  /** The shortest run of that kind: p's phone asks after p has gone, while q is online. */
  lemma CrashExample(c: Hub.Conn, p: Peer, t: Token, d: Hub.Conn, q: Peer, u: Token, session: Token, r: Records,
                     target: Peer, device: string, id: string, saved: bool)
    requires c != d && p != q && t != u && p != "" && q != "" && t != "" && u != "" && |session| >= 16
    ensures var run := [Runs.Connect(c, p, t), Runs.Connect(d, q, u)] + [Runs.BindMessage(c, session), Runs.Disconnect(c)];
            Connect(Runs.Run(Runs.START, run).hub, r, session, target, device, id, saved) == Crash
  {
    var both := [Runs.Connect(c, p, t), Runs.Connect(d, q, u)];
    Guarantees.TwoAgents(c, p, t, d, q, u);
    FoldSnoc(Runs.Next, Runs.START, both, Runs.BindMessage(c, session));
    CrashAfterDisconnect(both + [Runs.BindMessage(c, session)], c, session, q, r, target, device, id, saved);
    FoldSnoc(Runs.Next, Runs.START, both + [Runs.BindMessage(c, session)], Runs.Disconnect(c));
    assert both + [Runs.BindMessage(c, session)] + [Runs.Disconnect(c)]
        == both + [Runs.BindMessage(c, session), Runs.Disconnect(c)];
  }

  /** After connecting to an unclaimed agent it belongs to the requester, or, if that has no owner, to the device by the name
      in its header, or to "Unknown Device"; asking again by an owner is then approved without another claim. */
  lemma ConnectingClaims(h: Hub.HubState, r: Records, session: Token, target: Peer, device: string, id: string)
    requires Hub.Find(h, h.bySession, session).Some? && target in h.agents && target !in r.owners
    ensures var me := CurrentOwner(h, r, session);
            var r' := AfterClaim(r, target, ClaimUser(me, DeviceName(device)));
            && target in r'.owners
            && r'.owners[target] == (if me != "" then me else if device != "" then device else "Unknown Device")
            && (me != "" && CurrentOwner(h, r', session) == me ==>
                  Connect(h, r', session, target, device, id, true) == Approved(h.agents[target].pairToken))
  {
  }
}

/** What a crashed discovery handler leaves behind: it dies holding the hub's read lock, and nothing ever releases that. The
    HTTP server catches the panic, so the relay itself goes on. */
module HubLock {
  import opened Common
  import opened Hub
  import opened HubRuns
  import Wire
  import Discover
  import Ownership

  /** Once a writer waits for the lock, later readers wait behind it. */
  datatype Lock = Free | ReadHeld | WriterWaits

  datatype Relay = Relay(world: World, lock: Lock)

  datatype Event =
    | OnHub(step: Step)
    | DiscoverConnect(records: Ownership.Records, session: Token, target: Peer, device: string, id: string, saved: bool)

  datatype Need = NoLock | ReadLock | WriteLock | ReadThenWrite

  /** The locks each step takes; a terminal reply looks its channel up, sends, and then takes the request out. */
  function Needs(step: Step): Need {
    match step
    case Break(_) => NoLock
    case Read(_) => NoLock
    case Reply(_, _, m) => if Wire.Terminal(m) then ReadThenWrite else ReadLock
    case _ => WriteLock
  }

  /** A terminal reply that gets no further than its send. */
  function SendOnly(w: World, rid: Rid, m: Wire.Msg): World {
    var w' := Replying(w, rid, m);
    if rid !in w.requests then w
    else
      w'.(hub := w'.hub.(pending := w.hub.pending),
          requests := w'.requests[rid := w'.requests[rid].(exit := w.requests[rid].exit)])
  }

  function Next(r: Relay, e: Event): Relay {
    match e
    case DiscoverConnect(records, session, target, device, id, saved) =>
      if r.lock != WriterWaits
         && Discover.Connect(r.world.hub, records, session, target, device, id, saved) == Discover.Crash
      then r.(lock := ReadHeld)
      else r
    case OnHub(step) =>
      if r.lock == Free then r.(world := HubRuns.Next(r.world, step))
      else
        match Needs(step)
        case NoLock => r.(world := HubRuns.Next(r.world, step))
        case ReadLock => if r.lock == ReadHeld then r.(world := HubRuns.Next(r.world, step)) else r
        case WriteLock => r.(lock := WriterWaits)
        case ReadThenWrite =>
          if r.lock == ReadHeld && IsOpen(r.world, step.conn) then Relay(SendOnly(r.world, step.rid, step.m), WriterWaits)
          else r
  }

  /** Same agents, tokens, sessions and pending requests. */
  predicate SameMaps(h: HubState, h': HubState) {
    h'.agents == h.agents && h'.byPairToken == h.byPairToken && h'.bySession == h.bySession && h'.pending == h.pending
  }

  lemma SendOnlyKeepsMaps(w: World, rid: Rid, m: Wire.Msg)
    ensures SameMaps(w.hub, SendOnly(w, rid, m).hub) && SendOnly(w, rid, m).requests.Keys == w.requests.Keys
  {
  }

  lemma UnlockedStepKeepsMaps(w: World, step: Step)
    requires Needs(step) == NoLock || Needs(step) == ReadLock
    ensures SameMaps(w.hub, HubRuns.Next(w, step).hub) && HubRuns.Next(w, step).requests.Keys == w.requests.Keys
  {
  }

  lemma StepIsStuck(r: Relay, e: Event)
    requires r.lock != Free
    ensures Next(r, e).lock != Free && SameMaps(r.world.hub, Next(r, e).world.hub)
    ensures Next(r, e).world.requests.Keys == r.world.requests.Keys
    ensures r.lock == WriterWaits ==> Next(r, e).lock == WriterWaits
  {
    if e.OnHub? {
      if Needs(e.step) == ReadThenWrite {
        SendOnlyKeepsMaps(r.world, e.step.rid, e.step.m);
      } else if Needs(e.step) != WriteLock {
        UnlockedStepKeepsMaps(r.world, e.step);
      }
    }
  }

  lemma {:induction false} Stuck(r: Relay, events: seq<Event>)
    requires r.lock != Free
    ensures var r' := Fold(Next, r, events);
            && r'.lock != Free && SameMaps(r.world.hub, r'.world.hub)
            && r'.world.requests.Keys == r.world.requests.Keys
            && (r.lock == WriterWaits ==> r'.lock == WriterWaits)
  {
    if events == [] {
    } else {
      Stuck(r, events[..|events| - 1]);
      StepIsStuck(Fold(Next, r, events[..|events| - 1]), events[|events| - 1]);
    }
  }

  /** After one crash the hub never changes again, whatever happens: no agent registers or leaves, no session is bound, no
      request enters or leaves the pending map. */
  lemma CrashFreezesHub(before: seq<Event>, ask: Event, after: seq<Event>)
    requires ask.DiscoverConnect?
    requires var r := Fold(Next, Relay(START, Free), before);
             && r.lock == Free
             && Discover.Connect(r.world.hub, ask.records, ask.session, ask.target, ask.device, ask.id, ask.saved)
                == Discover.Crash
    ensures var r := Fold(Next, Relay(START, Free), before);
            var r' := Fold(Next, Relay(START, Free), before + [ask] + after);
            SameMaps(r.world.hub, r'.world.hub) && r'.world.requests.Keys == r.world.requests.Keys
  {
    FoldSnoc(Next, Relay(START, Free), before, ask);
    FoldAppend(Next, Relay(START, Free), before + [ask], after);
    Stuck(Fold(Next, Relay(START, Free), before + [ask]), after);
  }
}
