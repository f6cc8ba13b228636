/** Exponential backoff: the waits of the agent bridge and of the peer's signaling dialer. */
module Backoff {
  import opened Common

  function Pow2(k: nat): nat {
    if k == 0 then 1 else 2 * Pow2(k - 1)
  }

  function Capped(k: nat, cap: nat): nat {
    if Pow2(k) < cap then Pow2(k) else cap
  }

  /** All waits together when the first k dials fail, waits capped at 60. */
  function TotalSleep(k: nat): nat {
    if k == 0 then 0 else TotalSleep(k - 1) + Capped(k - 1, 60)
  }

  lemma {:induction false} Pow2Grows(j: nat, k: nat)
    requires j <= k
    ensures Pow2(j) <= Pow2(k)
  {
    if j == k {
    } else {
      Pow2Grows(j, k - 1);
    }
  }

  /** Closed form: 2^k - 1 while no wait has hit the cap, and 60 more for every dial after the sixth. */
  lemma {:induction false} TotalSleepClosed(k: nat)
    ensures TotalSleep(k) == if k <= 6 then Pow2(k) - 1 else 63 + 60 * (k - 6)
  {
    if k == 0 {
    } else {
      TotalSleepClosed(k - 1);
      assert Pow2(5) == 32 && Pow2(6) == 64;
      if k <= 6 {
        Pow2Grows(k - 1, 5);
      } else {
        Pow2Grows(6, k - 1);
      }
    }
  }

  /** The number of failed dials before the first success, or |dials| when all fail. */
  function FirstSuccess(dials: seq<bool>): (f: nat)
    ensures f <= |dials| && (f < |dials| ==> dials[f]) && forall i :: 0 <= i < f ==> !dials[i]
  {
    if dials == [] || dials[0] then 0 else 1 + FirstSuccess(dials[1..])
  }

  lemma {:induction false} SleepGrows(j: nat, k: nat)
    requires j <= k
    ensures TotalSleep(j) <= TotalSleep(k)
  {
    if j == k {
    } else {
      SleepGrows(j, k - 1);
    }
  }

  /** The signaling dialer: at most maxAttempts dials, or as many as it takes when that is negative. `dials[i]` is the
      outcome of dial i; waits are in seconds. */
  method ConnectSignal(maxAttempts: int, dials: seq<bool>) returns (connected: bool, attempts: nat, slept: nat)
    requires if maxAttempts < 0 then FirstSuccess(dials) < |dials| else maxAttempts <= |dials|
    ensures connected <==> FirstSuccess(dials) < if maxAttempts < 0 then |dials| else maxAttempts
    ensures attempts == if connected then FirstSuccess(dials) + 1 else maxAttempts
    ensures slept == TotalSleep(if connected then attempts - 1 else attempts)
    ensures maxAttempts >= 0 ==>
              && attempts <= maxAttempts
              && slept <= if maxAttempts <= 6 then Pow2(maxAttempts) - 1 else 63 + 60 * (maxAttempts - 6)
  {
    var backoff := 1;
    attempts, slept := 0, 0;
    while maxAttempts < 0 || attempts < maxAttempts
      invariant attempts <= FirstSuccess(dials)
      invariant maxAttempts >= 0 ==> attempts <= maxAttempts
      invariant backoff == Capped(attempts, 60)
      invariant slept == TotalSleep(attempts)
      decreases |dials| - attempts
    {
      attempts := attempts + 1;
      if dials[attempts - 1] {
        SleepGrows(attempts - 1, if maxAttempts < 0 then attempts else maxAttempts);
        if maxAttempts >= 0 {
          TotalSleepClosed(maxAttempts);
        }
        return true, attempts, slept;
      }
      slept := slept + backoff;
      backoff := backoff * 2;
      if backoff > 60 {
        backoff := 60;
      }
    }
    TotalSleepClosed(maxAttempts);
    connected := false;
  }

  /** How many attempts have passed since the last dial that succeeded, counting from that one; from the first attempt
      when none has. */
  function Streak(dialled: seq<bool>): nat
    requires dialled != []
  {
    var last := |dialled| - 1;
    if dialled[last] || last == 0 then 0 else 1 + Streak(dialled[..last])
  }

  /** A successful dial starts over with one second; after a failed one the wait doubles, up to 30. */
  predicate Doubling(dialled: seq<bool>, waits: seq<nat>)
    requires |waits| <= |dialled|
  {
    && (forall i :: 0 <= i < |waits| && (i == 0 || dialled[i]) ==> waits[i] == 1)
    && forall i :: 0 < i < |waits| && !dialled[i] ==>
         waits[i] == if 2 * waits[i - 1] < 30 then 2 * waits[i - 1] else 30
  }

  /** So each wait is the capped power of two of the attempts since the last successful dial. */
  lemma {:induction false} DoublingIsPower(dialled: seq<bool>, waits: seq<nat>, i: nat)
    requires |waits| <= |dialled| && i < |waits| && Doubling(dialled, waits)
    ensures waits[i] == Capped(Streak(dialled[..i + 1]), 30)
  {
    if i == 0 || dialled[i] {
    } else {
      DoublingIsPower(dialled, waits, i - 1);
      assert dialled[..i + 1][..i] == dialled[..i];
    }
  }

  /** The bridge's reconnect loop: `dialled[i]` tells whether attempt i reached the relay (and lost it again later). */
  method Reconnect(dialled: seq<bool>) returns (waits: seq<nat>)
    ensures |waits| == |dialled| && Doubling(dialled, waits)
    ensures forall i :: 0 <= i < |waits| ==> waits[i] == Capped(Streak(dialled[..i + 1]), 30)
  {
    var delay := 1;
    waits := [];
    for i := 0 to |dialled|
      invariant |waits| == i && Doubling(dialled, waits)
      invariant delay == if i == 0 then 1 else if 2 * waits[i - 1] < 30 then 2 * waits[i - 1] else 30
    {
      if dialled[i] {
        delay := 1;
      }
      waits := waits + [delay];
      delay := delay * 2;
      if delay > 30 {
        delay := 30;
      }
    }
    forall i | 0 <= i < |waits|
      ensures waits[i] == Capped(Streak(dialled[..i + 1]), 30)
    {
      DoublingIsPower(dialled, waits, i);
    }
  }
}
