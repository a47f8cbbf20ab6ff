/** `Credits` and `CreditsScheduler`, utils/iterators.py: which ready inputs a round picks. */
module CreditScheduling {
  import opened Sets

  /** The priority and the credits of each input. */
  datatype State = State(priorities: seq<int>, credits: seq<int>)

  ghost predicate Valid(s: State) {
    |s.priorities| == |s.credits| && forall i :: 0 <= i < |s.credits| ==> InputValid(s, i)
  }

  predicate InputValid(s: State, i: nat)
    requires i < |s.credits| == |s.priorities|
  {
    1 <= s.priorities[i] && 0 <= s.credits[i] <= s.priorities[i]
  }

  /** The inputs that are ready in a round: at least one, each once. */
  predicate IsReady(s: State, ready: seq<nat>) {
    && ready != []
    && (forall k :: 0 <= k < |ready| ==> ready[k] < |s.credits|)
    && (forall j, k :: 0 <= j < k < |ready| ==> ready[j] != ready[k])
  }

  function Min(a: int, b: int): int {
    if a <= b then a else b
  }

  function Cost(s: State, i: nat): int
    requires i < |s.credits| == |s.priorities|
  {
    s.priorities[i] - s.credits[i]
  }

  /** The cost of the cheapest of the inputs. */
  function LeastCost(s: State, ready: seq<nat>): int
    requires |s.credits| == |s.priorities| && ready != []
    requires forall k :: 0 <= k < |ready| ==> ready[k] < |s.credits|
  {
    var n := |ready| - 1;
    if n == 0 then Cost(s, ready[0]) else Min(LeastCost(s, ready[..n]), Cost(s, ready[n]))
  }

  lemma {:induction false} Cheapest(s: State, ready: seq<nat>) returns (j: nat)
    requires |s.credits| == |s.priorities| && ready != []
    requires forall k :: 0 <= k < |ready| ==> ready[k] < |s.credits|
    ensures j in ready && j < |s.credits| && LeastCost(s, ready) == Cost(s, j)
    ensures forall i :: i in ready ==> Cost(s, j) <= Cost(s, i)
  {
    var n := |ready| - 1;
    j := ready[n];
    if n > 0 {
      var k := Cheapest(s, ready[..n]);
      if Cost(s, k) <= Cost(s, j) {
        j := k;
      }
    }
  }

  /** The credits of an input after `cost` more: never above its priority. */
  function Raised(s: State, cost: int, i: nat): int
    requires i < |s.credits| == |s.priorities|
  {
    Min(s.priorities[i], s.credits[i] + cost)
  }

  predicate Full(s: State, cost: int, i: nat)
    requires i < |s.credits| == |s.priorities|
  {
    Raised(s, cost, i) >= s.priorities[i]
  }

  /** The ready inputs that have full credits after `cost` more, in their order. */
  function Picked(s: State, cost: int, ready: seq<nat>): seq<nat>
    requires |s.credits| == |s.priorities|
    requires forall k :: 0 <= k < |ready| ==> ready[k] < |s.credits|
  {
    if ready == [] then []
    else
      var n := |ready| - 1;
      Picked(s, cost, ready[..n]) + if Full(s, cost, ready[n]) then [ready[n]] else []
  }

  lemma {:induction false} PickedAre(s: State, cost: int, ready: seq<nat>, i: nat)
    requires |s.credits| == |s.priorities|
    requires forall k :: 0 <= k < |ready| ==> ready[k] < |s.credits|
    ensures i in Picked(s, cost, ready) <==> i in ready && Full(s, cost, i)
  {
    if ready != [] {
      var n := |ready| - 1;
      PickedAre(s, cost, ready[..n], i);
      assert ready == ready[..n] + [ready[n]];
    }
  }

  /** The credits of an input after a round: one that is picked has none left. */
  function Left(s: State, ready: seq<nat>, cost: int, i: nat): int
    requires i < |s.credits| == |s.priorities|
  {
    if i in ready && Full(s, cost, i) then 0 else Raised(s, cost, i)
  }

  function Round(s: State, ready: seq<nat>): State
    requires Valid(s) && IsReady(s, ready)
  {
    s.(credits := seq(|s.credits|, i requires 0 <= i < |s.credits| => Left(s, ready, LeastCost(s, ready), i)))
  }

  predicate IsPicked(s: State, ready: seq<nat>, i: nat)
    requires Valid(s) && IsReady(s, ready) && i < |s.credits|
  {
    i in ready && Full(s, LeastCost(s, ready), i)
  }

  lemma LeastIsNat(s: State, ready: seq<nat>)
    requires Valid(s) && IsReady(s, ready)
    ensures 0 <= LeastCost(s, ready)
  {
    var j := Cheapest(s, ready);
    assert InputValid(s, j);
  }

  lemma LeftValid(s: State, ready: seq<nat>, cost: nat, i: nat)
    requires i < |s.credits| == |s.priorities| && InputValid(s, i)
    ensures 0 <= Left(s, ready, cost, i) <= s.priorities[i]
  {
  }

  lemma RoundValid(s: State, ready: seq<nat>)
    requires Valid(s) && IsReady(s, ready)
    ensures Valid(Round(s, ready)) && Round(s, ready).priorities == s.priorities
  {
    hide LeastCost, Left;
    var r, cost := Round(s, ready), LeastCost(s, ready);
    LeastIsNat(s, ready);
    forall i | 0 <= i < |r.credits|
      ensures InputValid(r, i)
    {
      assert InputValid(s, i);
      LeftValid(s, ready, cost, i);
    }
  }

  /** Of the ready inputs, a round picks exactly the cheapest ones, and so at least one. */
  lemma PicksTheCheapest(s: State, ready: seq<nat>, i: nat)
    requires Valid(s) && IsReady(s, ready) && i in ready
    ensures i in Picked(s, LeastCost(s, ready), ready) <==> forall j :: j in ready ==> Cost(s, i) <= Cost(s, j)
    ensures Picked(s, LeastCost(s, ready), ready) != []
  {
    var cost := LeastCost(s, ready);
    var j := Cheapest(s, ready);
    PickedAre(s, cost, ready, i);
    PickedAre(s, cost, ready, j);
    assert InputValid(s, i) && InputValid(s, j);
  }

  class Credits {
    const priority: int
    var credits: int

    constructor (priority: int)
      ensures this.priority == priority && credits == 0
    {
      this.priority, credits := priority, 0;
    }

    function GetCost(): int
      reads this
    {
      priority - credits
    }

    method Add(more: int)
      modifies this
      ensures credits == Min(priority, old(credits) + more)
    {
      credits := Min(priority, credits + more);
    }

    method Schedule() returns (scheduled: bool)
      modifies this
      ensures scheduled == (old(credits) >= priority)
      ensures credits == if scheduled then 0 else old(credits)
    {
      if credits >= priority {
        credits := 0;
        return true;
      }
      return false;
    }
  }

  class CreditsScheduler {
    const inputs: seq<Credits>

    ghost predicate Distinct() {
      forall i, j :: 0 <= i < j < |inputs| ==> inputs[i] != inputs[j]
    }

    /** The scheduler has the credits of the state. */
    ghost predicate Shows(s: State)
      reads inputs
    {
      && Distinct() && |inputs| == |s.credits| == |s.priorities|
      && forall i :: 0 <= i < |inputs| ==> inputs[i].priority == s.priorities[i] && inputs[i].credits == s.credits[i]
    }

    constructor (priorities: seq<int>)
      requires forall i :: 0 <= i < |priorities| ==> 1 <= priorities[i]
      ensures fresh(inputs) && Shows(State(priorities, seq(|priorities|, i => 0)))
      ensures Valid(State(priorities, seq(|priorities|, i => 0)))
    {
      var all: seq<Credits> := [];
      for k := 0 to |priorities|
        invariant |all| == k && fresh(all)
        invariant forall i :: 0 <= i < k ==> all[i].priority == priorities[i] && all[i].credits == 0
        invariant forall i, j :: 0 <= i < j < k ==> all[i] != all[j]
      {
        var c := new Credits(priorities[k]);
        all := all + [c];
      }
      inputs := all;
    }

    method GetLeastCost(ready: seq<nat>, ghost s: State) returns (cost: int)
      requires Shows(s) && Valid(s) && IsReady(s, ready)
      ensures cost == LeastCost(s, ready)
    {
      cost := inputs[ready[0]].GetCost();
      for k := 1 to |ready|
        invariant cost == LeastCost(s, ready[..k])
      {
        assert ready[..k + 1][..k] == ready[..k];
        cost := Min(cost, inputs[ready[k]].GetCost());
      }
      assert ready[..|ready|] == ready;
    }

    method AddAll(cost: int, ghost s: State)
      requires Shows(s) && Valid(s)
      modifies inputs
      ensures forall i :: 0 <= i < |inputs| ==> inputs[i].credits == Raised(s, cost, i)
    {
      for k := 0 to |inputs|
        invariant forall i :: 0 <= i < k ==> inputs[i].credits == Raised(s, cost, i)
        invariant forall i :: k <= i < |inputs| ==> inputs[i].credits == s.credits[i]
      {
        inputs[k].Add(cost);
      }
    }

    method PickReady(ready: seq<nat>, cost: int, ghost s: State) returns (picked: seq<nat>)
      requires Distinct() && Valid(s) && IsReady(s, ready) && |inputs| == |s.credits|
      requires forall i :: 0 <= i < |inputs| ==> inputs[i].priority == s.priorities[i]
      requires forall i :: 0 <= i < |inputs| ==> inputs[i].credits == Raised(s, cost, i)
      modifies inputs
      ensures picked == Picked(s, cost, ready)
      ensures forall i :: 0 <= i < |inputs| ==>
                inputs[i].credits == if i in ready && Full(s, cost, i) then 0 else Raised(s, cost, i)
    {
      picked := [];
      for k := 0 to |ready|
        invariant picked == Picked(s, cost, ready[..k])
        invariant forall i :: 0 <= i < |inputs| ==>
                    inputs[i].credits == if i in ready[..k] && Full(s, cost, i) then 0 else Raised(s, cost, i)
      {
        assert ready[..k + 1][..k] == ready[..k] && ready[k] !in ready[..k];
        var scheduled := inputs[ready[k]].Schedule();
        if scheduled {
          picked := picked + [ready[k]];
        }
      }
      assert ready[..|ready|] == ready;
    }

    /** A round: the credits are those of `Round`, and the inputs come out in their order. */
    method Schedule(ready: seq<nat>, ghost s: State) returns (picked: seq<nat>)
      requires Shows(s) && Valid(s) && IsReady(s, ready)
      modifies inputs
      ensures Shows(Round(s, ready)) && picked == Picked(s, LeastCost(s, ready), ready)
    {
      var cost := GetLeastCost(ready, s);
      if cost != 0 {
        AddAll(cost, s);
      } else {
        forall i | 0 <= i < |inputs|
          ensures Raised(s, 0, i) == s.credits[i]
        {
          assert InputValid(s, i);
        }
      }
      picked := PickReady(ready, cost, s);
    }
  }

  // ----- Runs -----

  /** Every round has a ready input. */
  predicate AllReady(s: State, rounds: seq<seq<nat>>) {
    forall k :: 0 <= k < |rounds| ==> IsReady(s, rounds[k])
  }

  /** The state after the rounds, the first one first. */
  function After(s: State, rounds: seq<seq<nat>>): (t: State)
    requires Valid(s) && AllReady(s, rounds)
    ensures Valid(t) && t.priorities == s.priorities
    decreases |rounds|
  {
    if rounds == [] then s
    else
      RoundValid(s, rounds[0]);
      After(Round(s, rounds[0]), rounds[1..])
  }

  /** How often an input is picked. */
  function Times(s: State, rounds: seq<seq<nat>>, i: nat): nat
    requires Valid(s) && AllReady(s, rounds) && i < |s.credits|
    decreases |rounds|
  {
    if rounds == [] then 0
    else
      RoundValid(s, rounds[0]);
      (if IsPicked(s, rounds[0], i) then 1 else 0) + Times(Round(s, rounds[0]), rounds[1..], i)
  }

  /** The cost that the rounds distribute. */
  function Distributed(s: State, rounds: seq<seq<nat>>): int
    requires Valid(s) && AllReady(s, rounds)
    decreases |rounds|
  {
    if rounds == [] then 0
    else
      RoundValid(s, rounds[0]);
      LeastCost(s, rounds[0]) + Distributed(Round(s, rounds[0]), rounds[1..])
  }

  // ----- Starvation freedom -----

  /** The other inputs that have full credits. */
  function OthersFull(s: State, i: nat): set<nat>
    requires |s.priorities| == |s.credits|
  {
    set j: nat | 0 <= j < |s.credits| && j != i && s.credits[j] >= s.priorities[j]
  }

  /** The longest an input that stays ready waits for its turn. */
  function Patience(s: State, i: nat): int
    requires Valid(s) && i < |s.credits|
  {
    if Cost(s, i) == 0 then 1 else (Cost(s, i) - 1) * (|s.credits| - 1) + |OthersFull(s, i)| + 1
  }

  function Below(n: nat): (s: set<nat>)
    ensures |s| == n && forall j: nat :: j in s <==> j < n
  {
    if n == 0 then {} else Below(n - 1) + {n - 1}
  }

  /** A round that does not pick `i` picks another one, which then has no credits. */
  lemma AnotherPays(s: State, ready: seq<nat>, i: nat) returns (j: nat)
    requires Valid(s) && IsReady(s, ready) && i in ready && !IsPicked(s, ready, i)
    ensures j < |s.credits| && j != i && Round(s, ready).credits[j] == 0
    ensures LeastCost(s, ready) == Cost(s, j) < Cost(s, i)
  {
    j := Cheapest(s, ready);
    assert InputValid(s, i) && InputValid(s, j);
  }

  lemma OthersPay(s: State, ready: seq<nat>, i: nat)
    requires Valid(s) && IsReady(s, ready) && i in ready && !IsPicked(s, ready, i)
    ensures |OthersFull(Round(s, ready), i)| <= |s.credits| - 2
    ensures LeastCost(s, ready) == 0 ==> |OthersFull(Round(s, ready), i)| < |OthersFull(s, i)|
  {
    var r := Round(s, ready);
    var j := AnotherPays(s, ready, i);
    RoundValid(s, ready);
    hide LeastCost;
    assert InputValid(s, j);
    Fewer(OthersFull(r, i), Below(|s.credits|) - {i, j});
    if LeastCost(s, ready) == 0 {
      forall x | x in OthersFull(r, i)
        ensures x in OthersFull(s, i) - {j}
      {
        assert InputValid(s, x);
        assert r.credits[x] == Left(s, ready, 0, x);
      }
      Fewer(OthersFull(r, i), OthersFull(s, i) - {j});
    }
  }

  lemma LessPatience(before: int, cost: int, n: int, full: int, full': int)
    requires 0 <= cost < before && 0 <= full && 0 <= full' <= n - 1
    requires cost == 0 ==> full' < full
    ensures (before - cost - 1) * n + full' < (before - 1) * n + full
  {
  }

  lemma PatienceShrinks(s: State, ready: seq<nat>, i: nat)
    requires Valid(s) && IsReady(s, ready) && i in ready && !IsPicked(s, ready, i)
    ensures Valid(Round(s, ready)) && Patience(Round(s, ready), i) < Patience(s, i)
  {
    RoundValid(s, ready);
    LeastIsNat(s, ready);
    OthersPay(s, ready, i);
    hide OthersFull, LeastCost, IsReady;
    var r, cost := Round(s, ready), LeastCost(s, ready);
    assert InputValid(s, i) && r.credits[i] == Left(s, ready, cost, i);
    LessPatience(Cost(s, i), cost, |s.credits| - 1, |OthersFull(s, i)|, |OthersFull(r, i)|);
  }

  lemma {:induction false} PickedInTime(s: State, rounds: seq<seq<nat>>, i: nat)
    requires Valid(s) && AllReady(s, rounds) && i < |s.credits|
    requires forall k :: 0 <= k < |rounds| ==> i in rounds[k]
    requires |rounds| >= Patience(s, i) >= 1
    ensures Times(s, rounds, i) >= 1
    decreases |rounds|
  {
    if !IsPicked(s, rounds[0], i) {
      var r := Round(s, rounds[0]);
      RoundValid(s, rounds[0]);
      PatienceShrinks(s, rounds[0], i);
      IsPatient(r, i);
      hide Patience, Round, Valid, IsReady, IsPicked;
      PickedInTime(r, rounds[1..], i);
    }
  }

  lemma PatienceBound(cost: int, priority: int, n: int, full: int)
    requires 0 <= cost <= priority && 0 <= full <= n
    ensures cost > 0 ==> 0 <= (cost - 1) * n + full <= priority * n
    ensures 0 <= priority * n
  {
  }

  lemma IsPatient(s: State, i: nat)
    requires Valid(s) && i < |s.credits|
    ensures 1 <= Patience(s, i) <= s.priorities[i] * (|s.credits| - 1) + 1
  {
    assert InputValid(s, i);
    Fewer(OthersFull(s, i), Below(|s.credits|) - {i});
    PatienceBound(Cost(s, i), s.priorities[i], |s.credits| - 1, |OthersFull(s, i)|);
  }

  /** No starvation: of `n` inputs, one of priority `p` that stays ready is picked within
      `p * (n - 1) + 1` rounds, whatever the others do. */
  lemma NoStarvation(s: State, rounds: seq<seq<nat>>, i: nat)
    requires Valid(s) && AllReady(s, rounds) && i < |s.credits|
    requires forall k :: 0 <= k < |rounds| ==> i in rounds[k]
    requires |rounds| >= s.priorities[i] * (|s.credits| - 1) + 1
    ensures Times(s, rounds, i) >= 1
  {
    hide Times, Patience, Valid;
    IsPatient(s, i);
    PickedInTime(s, rounds, i);
  }

  /** Of `n` inputs, input 0 has priority `p` and `own` credits; the others have priority one, and
      those up to `j` have had their turn. */
  function Stage(p: int, n: nat, own: int, j: nat): State {
    State(seq(n, i => if i == 0 then p else 1), seq(n, i => if i == 0 then own else if i <= j then 0 else 1))
  }

  /** The other inputs in turn. */
  function Following(n: nat, j: nat): nat {
    if j + 1 < n then j + 1 else 1
  }

  /** `k` rounds, in each of which input 0 and another one are ready. */
  function InTurn(n: nat, j: nat, k: nat): (rounds: seq<seq<nat>>)
    ensures |rounds| == k && forall i :: 0 <= i < k ==> 0 in rounds[i]
    decreases k
  {
    if k == 0 then [] else [[0, Following(n, j)]] + InTurn(n, Following(n, j), k - 1)
  }

  /** The other one pays with its credit while it has one, and else all get one. */
  lemma StageRound(p: int, n: nat, own: nat, j: nat)
    requires j < n && 2 <= n && own < p && (j + 1 == n ==> own + 1 < p)
    ensures var s, ready := Stage(p, n, own, j), [0, Following(n, j)];
            && Valid(s) && IsReady(s, ready) && !IsPicked(s, ready, 0)
            && Round(s, ready) == Stage(p, n, if j + 1 == n then own + 1 else own, Following(n, j))
  {
    var i := Following(n, j);
    var s, ready := Stage(p, n, own, j), [0, i];
    assert ready[..1] == [0];
    assert LeastCost(s, ready) == Min(Cost(s, 0), Cost(s, i)) == if j + 1 == n then 1 else 0;
    assert 0 in ready && i in ready;
  }

  /** The rounds until input 0 has full credits. */
  function Wait(p: nat, n: nat, own: nat, j: nat): int {
    (p - 1 - own) * (n - 1) + n - 1 - j
  }

  lemma WaitShrinks(p: nat, n: nat, own: nat, j: nat)
    requires j < n && own < p && Wait(p, n, own, j) > 0
    ensures n >= 2 && (j + 1 == n ==> own + 1 < p)
    ensures Wait(p, n, if j + 1 == n then own + 1 else own, Following(n, j)) == Wait(p, n, own, j) - 1
  {
  }

  lemma {:induction false} NotYet(p: nat, n: nat, own: nat, j: nat, k: nat)
    requires j < n && own < p && k <= Wait(p, n, own, j)
    ensures Valid(Stage(p, n, own, j)) && AllReady(Stage(p, n, own, j), InTurn(n, j, k))
    ensures Times(Stage(p, n, own, j), InTurn(n, j, k), 0) == 0
    decreases k
  {
    if k == 0 {
      assert forall i :: 0 <= i < n ==> InputValid(Stage(p, n, own, j), i);
    } else {
      var i := Following(n, j);
      var rounds := InTurn(n, j, k);
      WaitShrinks(p, n, own, j);
      StageRound(p, n, own, j);
      hide Stage, Wait, Valid, IsReady, IsPicked, Round;
      NotYet(p, n, if j + 1 == n then own + 1 else own, i, k - 1);
      assert rounds[0] == [0, i] && rounds[1..] == InTurn(n, i, k - 1);
    }
  }

  lemma OnlyFirst(p: nat, n: nat)
    requires 1 <= p && 1 <= n
    ensures Valid(Stage(p, n, 0, n - 1)) && IsReady(Stage(p, n, 0, n - 1), [0])
    ensures Round(Stage(p, n, 0, n - 1), [0]) == Stage(p, n, 0, 0)
  {
    assert LeastCost(Stage(p, n, 0, n - 1), [0]) == p;
  }

  /** The bound is reached, for every priority and number of inputs: where the first round has only
      input 0, that one is picked, and then not in the next `p * (n - 1)` rounds, in all of which it
      is ready. */
  lemma BoundIsReached(p: nat, n: nat)
    requires 1 <= p && 1 <= n
    ensures var s := Stage(p, n, 0, n - 1);
            && Valid(s) && IsReady(s, [0]) && s.priorities[0] == p
            && (forall i :: 0 <= i < n ==> s.credits[i] == 0)
            && var t, rounds := Round(s, [0]), InTurn(n, 0, p * (n - 1));
               && Valid(t) && AllReady(t, rounds)
               && |rounds| == s.priorities[0] * (|s.credits| - 1)
               && (forall k :: 0 <= k < |rounds| ==> 0 in rounds[k])
               && Times(t, rounds, 0) == 0
  {
    OnlyFirst(p, n);
    assert Wait(p, n, 0, 0) == p * (n - 1);
    hide Wait, Valid, AllReady, Times, Round, IsReady;
    NotYet(p, n, 0, 0, p * (n - 1));
  }

  // ----- Proportional share -----

  predicate Everybody(s: State, ready: seq<nat>) {
    forall i: nat :: i < |s.credits| ==> i in ready
  }

  /** A round in which every input is ready clips nothing. */
  lemma NothingClipped(s: State, ready: seq<nat>, i: nat)
    requires Valid(s) && IsReady(s, ready) && Everybody(s, ready) && i < |s.credits|
    ensures var p, now := s.priorities[i], s.credits[i] + LeastCost(s, ready);
            now <= p && Round(s, ready).credits[i] == (if IsPicked(s, ready, i) then 0 else now)
    ensures IsPicked(s, ready, i) <==> s.credits[i] + LeastCost(s, ready) == s.priorities[i]
  {
    var j := Cheapest(s, ready);
    assert i in ready && InputValid(s, i);
  }

  lemma OneTurnMore(times: int, p: int)
    ensures (1 + times) * p == p + times * p && (0 + times) * p == times * p
  {
  }

  /** While every input stays ready, no credit is lost: what an input paid for its turns and what
      it has add up to what was distributed. */
  lemma {:induction false} NoCreditIsLost(s: State, rounds: seq<seq<nat>>, i: nat)
    requires Valid(s) && AllReady(s, rounds) && i < |s.credits|
    requires forall k :: 0 <= k < |rounds| ==> Everybody(s, rounds[k])
    ensures Times(s, rounds, i) * s.priorities[i] + After(s, rounds).credits[i] == s.credits[i] + Distributed(s, rounds)
    ensures s.credits[i] < s.priorities[i] ==> After(s, rounds).credits[i] < s.priorities[i]
    decreases |rounds|
  {
    if rounds != [] {
      var r, cost, p := Round(s, rounds[0]), LeastCost(s, rounds[0]), s.priorities[i];
      RoundValid(s, rounds[0]);
      NothingClipped(s, rounds[0], i);
      assert InputValid(s, i);
      NoCreditIsLost(r, rounds[1..], i);
      hide LeastCost, Round, IsPicked, Valid, IsReady;
      OneTurnMore(Times(r, rounds[1..], i), p);
    }
  }

  lemma Quotient(times: int, p: int, left: int)
    requires 0 <= left < p
    ensures (times * p + left) / p == times
  {
    var n := times * p + left;
    var d := n / p - times;
    assert n == (n / p) * p + n % p;
    assert d * p == left - n % p by {
      assert d * p == (n / p) * p - times * p;
    }
    assert d > 0 ==> d * p >= p;
    assert d < 0 ==> d * p <= -p;
  }

  /** From no credits, each input gets its exact share of the turns. */
  lemma ExactShare(s: State, rounds: seq<seq<nat>>, i: nat)
    requires Valid(s) && AllReady(s, rounds) && i < |s.credits| && s.credits[i] == 0
    requires forall k :: 0 <= k < |rounds| ==> Everybody(s, rounds[k])
    ensures s.priorities[i] > 0 && Times(s, rounds, i) == Distributed(s, rounds) / s.priorities[i]
  {
    assert InputValid(s, i) && InputValid(After(s, rounds), i);
    NoCreditIsLost(s, rounds, i);
    Quotient(Times(s, rounds, i), s.priorities[i], After(s, rounds).credits[i]);
  }
}
