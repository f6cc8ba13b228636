/** Who owns which agent: claims from the dashboard and from discovery, one-time deploy tokens, and session owners. */
module Ownership {
  import opened Common

  type Peer = string
  type User = string
  type Token = string

  datatype Records = Records(
    owners: map<Peer, User>,
    deployTokens: map<Token, User>,
    sessions: map<Token, User>,
    visibility: map<Peer, string>)

  const NO_RECORDS := Records(map[], map[], map[], map[])

  datatype ClaimResult = Claimed | AlreadyClaimed(owner: User) | SaveFailed

  function OwnerOf(r: Records, p: Peer): User {
    if p in r.owners then r.owners[p] else ""
  }

  /** A user name that is empty is never recorded: the check for a repeated claim takes it for one. */
  function AfterClaim(r: Records, p: Peer, u: User): Records {
    if (p in r.owners && r.owners[p] != u) || OwnerOf(r, p) == u then r
    else r.(owners := r.owners[p := u])
  }

  function AfterUnclaim(r: Records, p: Peer, u: User, isAdmin: bool): Records {
    if p !in r.owners || (!isAdmin && r.owners[p] != u) then r else r.(owners := r.owners - {p})
  }

  function AfterDeploy(r: Records, token: Token, p: Peer): Records {
    if token !in r.deployTokens then r
    else r.(deployTokens := r.deployTokens - {token}, owners := r.owners[p := r.deployTokens[token]])
  }

  class OwnershipManager {
    var owners: map<Peer, User>
    var deployTokens: map<Token, User>
    var sessions: map<Token, User>
    var visibility: map<Peer, string>

    constructor ()
      ensures Now() == NO_RECORDS
    {
      owners, deployTokens, sessions, visibility := map[], map[], map[], map[];
    }

    ghost function Now(): Records
      reads this
    {
      Records(owners, deployTokens, sessions, visibility)
    }

    /** `saved` tells whether the file could be written; the claim stands in memory either way. */
    method ClaimAgent(p: Peer, u: User, saved: bool) returns (r: ClaimResult)
      modifies this
      ensures Now() == AfterClaim(old(Now()), p, u)
      ensures owners == if p in old(owners) || u == "" then old(owners) else old(owners)[p := u]
      ensures r.AlreadyClaimed? <==> p in old(owners) && old(owners)[p] != u
      ensures r.AlreadyClaimed? ==> r.owner == old(owners)[p]
      ensures r == SaveFailed <==> !saved && Now() != old(Now())
    {
      if p in owners && owners[p] != u {
        return AlreadyClaimed(owners[p]);
      }
      if (if p in owners then owners[p] else "") == u {
        return Claimed;
      }
      owners := owners[p := u];
      r := if saved then Claimed else SaveFailed;
    }

    method UnclaimAgent(p: Peer, u: User, isAdmin: bool, saved: bool) returns (ok: bool)
      modifies this
      ensures Now() == AfterUnclaim(old(Now()), p, u, isAdmin)
      ensures owners ==
              if p in old(owners) && (isAdmin || old(owners)[p] == u) then old(owners) - {p} else old(owners)
      ensures ok <==> p in old(owners) && (isAdmin || old(owners)[p] == u) && saved
    {
      if p !in owners {
        return false;
      }
      if !isAdmin && owners[p] != u {
        return false;
      }
      owners := owners - {p};
      ok := saved;
    }

    method CreateDeployToken(u: User, unused: Token)
      modifies this
      ensures Now() == old(Now()).(deployTokens := old(deployTokens)[unused := u])
    {
      deployTokens := deployTokens[unused := u];
    }

    method ClaimByDeployToken(token: Token, p: Peer) returns (user: Option<User>)
      modifies this
      ensures Now() == AfterDeploy(old(Now()), token, p)
      ensures token in old(deployTokens) ==>
                owners == old(owners)[p := old(deployTokens)[token]] && deployTokens == old(deployTokens) - {token}
      ensures token !in old(deployTokens) ==> owners == old(owners) && deployTokens == old(deployTokens)
      ensures user == if token in old(deployTokens) then Some(old(deployTokens)[token]) else None
    {
      if token !in deployTokens {
        return None;
      }
      user := Some(deployTokens[token]);
      deployTokens := deployTokens - {token};
      owners := owners[p := user.value];
    }

    method RecordSession(session: Token, u: User)
      modifies this
      ensures Now() == old(Now()).(sessions := old(sessions)[session := u])
    {
      sessions := sessions[session := u];
    }

    method SetAgentVisibility(p: Peer, v: string) returns (ok: bool)
      modifies this
      ensures ok <==> v == "public" || v == "private"
      ensures Now() == if ok then old(Now()).(visibility := old(visibility)[p := v]) else old(Now())
    {
      if v != "public" && v != "private" {
        return false;
      }
      visibility := visibility[p := v];
      ok := true;
    }
  }

  // ---- Runs ----

  datatype Step =
    | Claim(peer: Peer, user: User)
    | Unclaim(peer: Peer, user: User, isAdmin: bool)
    | CreateToken(token: Token, user: User)
    | Deploy(token: Token, peer: Peer)
    | RecordSession(session: Token, user: User)
    | SetVisibility(peer: Peer, v: string)

  /** The records together with every token ever created and every claim made with one. */
  datatype History = History(records: Records, created: set<Token>, deployed: seq<(Token, Peer)>)

  const START := History(NO_RECORDS, {}, [])

  /** Tokens are random, so a created token is a new one; a step that says otherwise does not happen. Nor does one for a
      user without a name: accounts are refused an empty one when they are created. */
  function Next(h: History, step: Step): History {
    match step
    case Claim(p, u) => h.(records := AfterClaim(h.records, p, u))
    case Unclaim(p, u, isAdmin) => h.(records := AfterUnclaim(h.records, p, u, isAdmin))
    case CreateToken(t, u) =>
      if t in h.created || u == "" then h
      else h.(records := h.records.(deployTokens := h.records.deployTokens[t := u]), created := h.created + {t})
    case Deploy(t, p) =>
      if t !in h.records.deployTokens then h
      else h.(records := AfterDeploy(h.records, t, p), deployed := h.deployed + [(t, p)])
    case RecordSession(s, u) => h.(records := h.records.(sessions := h.records.sessions[s := u]))
    case SetVisibility(p, v) =>
      if v != "public" && v != "private" then h
      else h.(records := h.records.(visibility := h.records.visibility[p := v]))
  }

  ghost predicate Inv(h: History) {
    && h.records.deployTokens.Keys <= h.created
    && (forall t <- h.records.deployTokens :: h.records.deployTokens[t] != "")
    && (forall p <- h.records.owners :: h.records.owners[p] != "")
    && (forall i :: 0 <= i < |h.deployed| ==> h.deployed[i].0 in h.created && h.deployed[i].0 !in h.records.deployTokens)
    && (forall i, j :: 0 <= i < j < |h.deployed| ==> h.deployed[i].0 != h.deployed[j].0)
  }

  lemma NextKeeps(h: History, step: Step)
    requires Inv(h)
    ensures Inv(Next(h, step))
  {
  }

  lemma {:induction false} RunKeeps(h: History, steps: seq<Step>)
    requires Inv(h)
    ensures Inv(Fold(Next, h, steps))
  {
    if steps == [] {
    } else {
      RunKeeps(h, steps[..|steps| - 1]);
      NextKeeps(Fold(Next, h, steps[..|steps| - 1]), steps[|steps| - 1]);
    }
  }

  /** Over every run: each deploy token claims at most one agent, a used token is gone, and no recorded owner is empty. */
  lemma TokensAreUsedOnce(steps: seq<Step>)
    ensures var h := Fold(Next, START, steps);
            && (forall i, j :: 0 <= i < |h.deployed| && 0 <= j < |h.deployed| && h.deployed[i].0 == h.deployed[j].0
                  ==> i == j)
            && (forall i :: 0 <= i < |h.deployed| ==> h.deployed[i].0 !in h.records.deployTokens)
            && (forall p <- h.records.owners :: h.records.owners[p] != "")
  {
    RunKeeps(START, steps);
  }

  /** A step that takes the agent from its owner in a way that lets another one have it. */
  predicate Releases(before: Records, step: Step, p: Peer) {
    p in before.owners &&
    match step
    case Unclaim(q, u, isAdmin) => q == p && (isAdmin || u == before.owners[p])
    case Deploy(t, q) => q == p && t in before.deployTokens
    case _ => false
  }

  /** Some step of the run does so. */
  predicate ReleasedDuring(h: History, steps: seq<Step>, p: Peer) {
    steps != [] &&
    var init, last := steps[..|steps| - 1], steps[|steps| - 1];
    ReleasedDuring(h, init, p) || Releases(Fold(Next, h, init).records, last, p)
  }

  lemma StepKeepsOwner(h: History, step: Step, p: Peer)
    requires p in h.records.owners && !Releases(h.records, step, p)
    ensures var r := Next(h, step).records; p in r.owners && r.owners[p] == h.records.owners[p]
  {
  }

  /** An owned agent belongs to somebody else, or to nobody, only after an unclaim by its owner or an administrator, or
      after a claim with a deploy token. */
  lemma {:induction false} OwnerChanges(h: History, steps: seq<Step>, p: Peer)
    requires p in h.records.owners && !ReleasedDuring(h, steps, p)
    ensures var h' := Fold(Next, h, steps);
            p in h'.records.owners && h'.records.owners[p] == h.records.owners[p]
  {
    if steps == [] {
    } else {
      OwnerChanges(h, steps[..|steps| - 1], p);
      StepKeepsOwner(Fold(Next, h, steps[..|steps| - 1]), steps[|steps| - 1], p);
    }
  }

  /** In every reachable state an unclaim by the owner or an administrator frees the agent, and then anybody can claim it;
      an unclaim by anyone else changes nothing. */
  lemma UnclaimFrees(steps: seq<Step>, p: Peer, u: User, isAdmin: bool, v: User)
    requires p in Fold(Next, START, steps).records.owners && v != ""
    ensures var r := Fold(Next, START, steps).records;
            if isAdmin || r.owners[p] == u then
              && p !in Fold(Next, START, steps + [Unclaim(p, u, isAdmin)]).records.owners
              && Fold(Next, START, steps + [Unclaim(p, u, isAdmin)] + [Claim(p, v)]).records.owners == r.owners[p := v]
            else
              Fold(Next, START, steps + [Unclaim(p, u, isAdmin)]).records == r
  {
    FoldSnoc(Next, START, steps, Unclaim(p, u, isAdmin));
    FoldSnoc(Next, START, steps + [Unclaim(p, u, isAdmin)], Claim(p, v));
  }

  /** In every reachable state a deploy token moves an agent that belongs to another user, although a claim by the token's
      user would be refused. */
  lemma DeployTakesOver(steps: seq<Step>, token: Token, p: Peer)
    requires var r := Fold(Next, START, steps).records;
             token in r.deployTokens && p in r.owners && r.owners[p] != r.deployTokens[token]
    ensures var r := Fold(Next, START, steps).records;
            var u := r.deployTokens[token];
            && Fold(Next, START, steps + [Claim(p, u)]).records == r
            && Fold(Next, START, steps + [Deploy(token, p)]).records.owners == r.owners[p := u]
  {
    var u := Fold(Next, START, steps).records.deployTokens[token];
    FoldSnoc(Next, START, steps, Claim(p, u));
    FoldSnoc(Next, START, steps, Deploy(token, p));
  }

  /** The shortest run of that kind. */
  lemma DeployTakesOverExample(p: Peer, u: User, v: User, token: Token)
    requires u != v && u != "" && v != ""
    ensures Fold(Next, START, [Claim(p, u), CreateToken(token, v)]).records.owners == map[p := u]
    ensures Fold(Next, START, [Claim(p, u), CreateToken(token, v)] + [Deploy(token, p)]).records.owners == map[p := v]
  {
    FoldTwo(Next, START, Claim(p, u), CreateToken(token, v));
    DeployTakesOver([Claim(p, u), CreateToken(token, v)], token, p);
  }
}
