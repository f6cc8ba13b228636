/** ICE candidates of one peer: queued until the remote side is known, then flushed and sent directly. */
module IcePeer {
  import opened Common

  type Candidate = string

  /** `taken` are the queued candidates a running flush has taken and not yet sent; `produced` counts since the last
      reset of the connection. */
  datatype State = State(
    remote: string,
    remoteSet: bool,
    pending: seq<Candidate>,
    taken: seq<Candidate>,
    sent: seq<Candidate>,
    produced: seq<Candidate>)

  /** The lock-protected sections, one step each. */
  datatype Step =
    | Produce(c: Candidate)
    | NameRemote(peer: string)
    | SetRemote
    | Take
    | SendOne

  predicate Ready(s: State) {
    s.remote != "" && s.remoteSet
  }

  function Next(s: State, step: Step): State {
    match step
    case Produce(c) =>
      if Ready(s) then s.(sent := s.sent + [c], produced := s.produced + [c])
      else s.(pending := s.pending + [c], produced := s.produced + [c])
    case NameRemote(p) => s.(remote := p)
    case SetRemote => s.(remoteSet := true)
    case Take => s.(taken := s.taken + s.pending, pending := [])
    case SendOne => if s.taken == [] then s else s.(sent := s.sent + [s.taken[0]], taken := s.taken[1..])
  }

  /** Nothing is lost or duplicated: every candidate is sent, queued, or in a flush. */
  ghost predicate Conserved(s: State) {
    multiset(s.produced) == multiset(s.sent) + multiset(s.pending) + multiset(s.taken)
  }

  lemma NextConserves(s: State, step: Step)
    requires Conserved(s)
    ensures Conserved(Next(s, step))
  {
    match step {
      case SendOne =>
        if s.taken != [] {
          assert s.taken == [s.taken[0]] + s.taken[1..];
        }
      case _ =>
    }
  }

  lemma {:induction false} RunConserves(s: State, steps: seq<Step>)
    requires Conserved(s)
    ensures Conserved(Fold(Next, s, steps))
  {
    if steps == [] {
    } else {
      RunConserves(s, steps[..|steps| - 1]);
      NextConserves(Fold(Next, s, steps[..|steps| - 1]), steps[|steps| - 1]);
    }
  }

  predicate KeepsRemote(step: Step) {
    step.NameRemote? ==> step.peer != ""
  }

  /** Once the remote side is known and a flush has taken the queue, the queue stays empty; and when the flush is through,
      every candidate has been handed to the signaling send exactly once. */
  lemma {:induction false} FlushedStaysEmpty(s: State, steps: seq<Step>)
    requires Conserved(s) && Ready(s)
    requires forall i :: 0 <= i < |steps| ==> KeepsRemote(steps[i])
    ensures var s' := Fold(Next, s, [Take] + steps);
            && Ready(s') && s'.pending == []
            && (s'.taken == [] ==> multiset(s'.sent) == multiset(s'.produced))
  {
    if steps == [] {
      FoldSnoc(Next, s, [], Take);
      assert [Take] + steps == [] + [Take];
      NextConserves(s, Take);
    } else {
      var init, last := steps[..|steps| - 1], steps[|steps| - 1];
      FlushedStaysEmpty(s, init);
      assert [Take] + steps == [Take] + init + [last];
      FoldSnoc(Next, s, [Take] + init, last);
      RunConserves(s, [Take] + steps);
    }
  }

  /** The queue is empty now and after each of the steps. */
  predicate StaysEmpty(s: State, steps: seq<Step>)
    decreases |steps|
  {
    s.pending == [] && (steps == [] || StaysEmpty(Next(s, steps[0]), steps[1..]))
  }

  /** No candidate is produced while the remote peer has no name. */
  predicate AlwaysNamed(s: State, steps: seq<Step>)
    decreases |steps|
  {
    steps == [] || ((steps[0].Produce? ==> s.remote != "") && AlwaysNamed(Next(s, steps[0]), steps[1..]))
  }

  /** With the remote description set, in every run the queue stays empty after a flush has taken it if and only if no
      candidate is produced while the remote peer has no name. */
  lemma {:induction false} EmptyWhileNamed(s: State, steps: seq<Step>)
    requires s.remoteSet && s.pending == []
    ensures StaysEmpty(s, steps) <==> AlwaysNamed(s, steps)
    decreases |steps|
  {
    if steps == [] {
    } else if Next(s, steps[0]).pending == [] {
      EmptyWhileNamed(Next(s, steps[0]), steps[1..]);
    }
  }

  /** Some candidates and then the first n batches, in order. */
  function After(first: seq<Candidate>, batches: seq<seq<Candidate>>, n: nat): seq<Candidate>
    requires n <= |batches|
  {
    if n == 0 then first else After(first, batches, n - 1) + batches[n - 1]
  }

  /** What a flush with a named remote sends: before each queued candidate those produced meanwhile. */
  function Flushed(sent: seq<Candidate>, queue: seq<Candidate>, during: seq<seq<Candidate>>, n: nat): seq<Candidate>
    requires n <= |queue| && n <= |during|
  {
    if n == 0 then sent else Flushed(sent, queue, during, n - 1) + during[n - 1] + [queue[n - 1]]
  }

  class Peer {
    var remotePeerID: string
    var remoteDescription: bool
    var pendingCandidates: seq<Candidate>
    ghost var taken: seq<Candidate>
    var sent: seq<Candidate>
    ghost var produced: seq<Candidate>

    constructor ()
      ensures Now() == State("", false, [], [], [], [])
    {
      remotePeerID, remoteDescription, pendingCandidates, taken, sent, produced := "", false, [], [], [], [];
    }

    ghost function Now(): State
      reads this
    {
      State(remotePeerID, remoteDescription, pendingCandidates, taken, sent, produced)
    }

    /** A new connection object: no remote description, and the queue is emptied. */
    method ResetPC()
      modifies this
      ensures Now() == State(old(remotePeerID), false, [], [], [], [])
    {
      remoteDescription := false;
      pendingCandidates := [];
      taken, produced := [], [];
      sent := [];
    }

    method OnICECandidate(c: Candidate)
      modifies this
      ensures Now() == Next(old(Now()), Produce(c))
    {
      produced := produced + [c];
      if remotePeerID == "" || !remoteDescription {
        pendingCandidates := pendingCandidates + [c];
        return;
      }
      sent := sent + [c];
    }

    /** Candidates that the connection produces while a handler is between two sections. */
    method Meanwhile(cs: seq<Candidate>)
      requires Conserved(Now())
      modifies this
      ensures Conserved(Now()) && remotePeerID == old(remotePeerID) && remoteDescription == old(remoteDescription)
      ensures taken == old(taken) && produced == old(produced) + cs
      ensures Ready(old(Now())) ==> pendingCandidates == old(pendingCandidates) && sent == old(sent) + cs
      ensures !Ready(old(Now())) ==> pendingCandidates == old(pendingCandidates) + cs && sent == old(sent)
    {
      for i := 0 to |cs|
        invariant remotePeerID == old(remotePeerID) && remoteDescription == old(remoteDescription)
        invariant taken == old(taken) && produced == old(produced) + cs[..i]
        invariant Ready(old(Now())) ==> pendingCandidates == old(pendingCandidates) && sent == old(sent) + cs[..i]
        invariant !Ready(old(Now())) ==> pendingCandidates == old(pendingCandidates) + cs[..i] && sent == old(sent)
      {
        assert cs[..i + 1] == cs[..i] + [cs[i]];
        OnICECandidate(cs[i]);
      }
      assert cs[..|cs|] == cs;
    }

    method TakePending() returns (queue: seq<Candidate>)
      modifies this
      ensures Now() == Next(old(Now()), Take) && queue == old(pendingCandidates)
    {
      queue := pendingCandidates;
      taken := taken + pendingCandidates;
      pendingCandidates := [];
    }

    method SendTaken(c: Candidate)
      requires taken != [] && taken[0] == c
      modifies this
      ensures Now() == Next(old(Now()), SendOne)
    {
      sent := sent + [c];
      taken := taken[1..];
    }

    /** One round of a flush: candidates may be produced before the send. */
    method FlushOne(queue: seq<Candidate>, i: nat, cs: seq<Candidate>)
      requires Conserved(Now()) && remoteDescription && i < |queue| && taken == queue[i..]
      modifies this
      ensures Conserved(Now()) && remoteDescription && remotePeerID == old(remotePeerID)
      ensures taken == queue[i + 1..] && produced == old(produced) + cs
      ensures remotePeerID == "" ==> pendingCandidates == old(pendingCandidates) + cs
      ensures remotePeerID != "" ==> pendingCandidates == old(pendingCandidates)
      ensures sent == old(sent) + (if remotePeerID == "" then [] else cs) + [queue[i]]
    {
      Meanwhile(cs);
      NextConserves(Now(), SendOne);
      SendTaken(queue[i]);
    }

    /** The flush: takes the queue in one section, then sends candidate by candidate; `during[i]` are produced before the
        i-th send. Without a name for the remote peer those join the queue again. */
    method FlushPending(during: seq<seq<Candidate>>)
      requires Conserved(Now()) && remoteDescription && taken == [] && |during| == |pendingCandidates|
      modifies this
      ensures Conserved(Now()) && taken == [] && remotePeerID == old(remotePeerID) && remoteDescription
      ensures produced == After(old(produced), during, |during|)
      ensures pendingCandidates == if remotePeerID == "" then After([], during, |during|) else []
      ensures remotePeerID != "" ==> sent == Flushed(old(sent), old(pendingCandidates), during, |during|)
    {
      NextConserves(Now(), Step.Take);
      var queue := TakePending();
      for i := 0 to |queue|
        invariant Conserved(Now())
        invariant taken == queue[i..]
        invariant remotePeerID == old(remotePeerID) && remoteDescription
        invariant produced == After(old(produced), during, i)
        invariant remotePeerID == "" ==> pendingCandidates == After([], during, i)
        invariant remotePeerID != "" ==> pendingCandidates == [] && sent == Flushed(old(sent), queue, during, i)
      {
        FlushOne(queue, i, during[i]);
      }
    }

    /** An offer: a fresh connection, the remote side is named and set, the answer goes out, the queue is flushed. `early`
        are produced before the remote description is set, `late` before the flush. */
    method HandleOffer(from: string, sdp: string, resetOk: bool, setOk: bool, answerOk: bool, early: seq<Candidate>,
                       late: seq<Candidate>, during: seq<seq<Candidate>>)
      requires |during| == |early| + if from == "" then |late| else 0
      modifies this
      ensures sdp == "" || !resetOk ==> Now() == old(Now())
      ensures sdp != "" && resetOk ==> Conserved(Now()) && taken == [] && remotePeerID == from
      ensures sdp != "" && resetOk && setOk && answerOk ==>
                && produced == After(early + late, during, |during|)
                && pendingCandidates == if from == "" then After([], during, |during|) else []
      ensures sdp != "" && resetOk && !setOk ==> pendingCandidates == produced == early
      ensures sdp != "" && resetOk && setOk && !answerOk ==>
                produced == early + late && pendingCandidates == early + if from == "" then late else []
    {
      if sdp == "" || !resetOk {
        return;
      }
      ResetPC();
      remotePeerID := from;
      Meanwhile(early);
      assert [] + early == early;
      if !setOk {
        return;
      }
      remoteDescription := true;
      Meanwhile(late);
      assert early + [] == early;
      if !answerOk {
        return;
      }
      FlushPending(during);
    }

    /** An answer to an offer of our own. */
    method HandleAnswer(sdp: string, setOk: bool, late: seq<Candidate>, during: seq<seq<Candidate>>)
      requires Conserved(Now()) && taken == []
      requires |during| == |pendingCandidates| + if remotePeerID == "" then |late| else 0
      modifies this
      ensures Conserved(Now()) && taken == []
      ensures sdp == "" || !setOk ==> Now() == old(Now())
      ensures sdp != "" && setOk ==>
                && produced == After(old(produced) + late, during, |during|)
                && pendingCandidates == if remotePeerID == "" then After([], during, |during|) else []
    {
      if sdp == "" || !setOk {
        return;
      }
      remoteDescription := true;
      Meanwhile(late);
      FlushPending(during);
    }
  }
}
