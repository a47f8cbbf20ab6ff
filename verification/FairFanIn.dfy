/** The fan-in under the credits policy: no ready input waits for ever. */
module FairFanIn {
  import opened Options
  import opened CreditScheduling
  import opened FanIn

  /** The loop of `Merge` between two waits, with the credits of its policy. */
  datatype Loop<T> = Loop(log: seq<Entry<T>>, tasks: Tasks<T>, credits: State)

  /** One round: the tasks when the wait is over, and the ready inputs in some order. */
  datatype Round<T> = Round(later: Tasks<T>, ready: seq<nat>)

  ghost predicate CanDo<T>(inputs: seq<Input<T>>, l: Loop<T>, r: Round<T>) {
    && LoopInv(inputs, l.log, l.tasks) && Waited(inputs, l.log, l.tasks, r.later)
    && CreditScheduling.Valid(l.credits) && |l.credits.credits| == |inputs|
    && (forall i :: i in r.ready <==> i in r.later && r.later[i].Finished?)
    && (forall j, k :: 0 <= j < k < |r.ready| ==> r.ready[j] != r.ready[k])
  }

  lemma ReadyIsReady<T>(inputs: seq<Input<T>>, l: Loop<T>, r: Round<T>)
    requires CanDo(inputs, l, r)
    ensures IsReady(l.credits, r.ready)
  {
    var i :| i in r.later && r.later[i].Finished?;
    assert i in r.ready;
    forall k | 0 <= k < |r.ready|
      ensures r.ready[k] < |l.credits.credits|
    {
      assert r.ready[k] in r.ready && r.ready[k] in l.tasks;
    }
  }

  function PickedIn<T>(l: Loop<T>, r: Round<T>): seq<nat>
    requires CreditScheduling.Valid(l.credits) && IsReady(l.credits, r.ready)
  {
    Picked(l.credits, LeastCost(l.credits, r.ready), r.ready)
  }

  ghost function NextLoop<T>(inputs: seq<Input<T>>, l: Loop<T>, r: Round<T>): Loop<T>
    requires CanDo(inputs, l, r)
  {
    ReadyIsReady(inputs, l, r);
    var (log, tasks) := AfterTurns(l.log, r.later, PickedIn(l, r));
    Loop(log, tasks, CreditScheduling.Round(l.credits, r.ready))
  }

  /** From the start, each input asked and without credits, round by round. */
  ghost predicate LoopRun<T>(inputs: seq<Input<T>>, priorities: seq<int>, ls: seq<Loop<T>>, rs: seq<Round<T>>) {
    && |ls| == |rs| + 1 && |priorities| == |inputs| && (forall i :: 0 <= i < |priorities| ==> 1 <= priorities[i])
    && ls[0] == Loop([], AllAsked(inputs), State(priorities, seq(|inputs|, _ => 0)))
    && forall k :: 0 <= k < |rs| ==> CanDo(inputs, ls[k], rs[k]) && ls[k + 1] == NextLoop(inputs, ls[k], rs[k])
  }

  /** What the policy does not pick stays finished. */
  lemma {:induction false} UnpickedStays<T>(inputs: seq<Input<T>>, log: seq<Entry<T>>, tasks: Tasks<T>,
                                            picks: seq<nat>, i: nat)
    requires LoopInv(inputs, log, tasks) && i in tasks && tasks[i].Finished? && i !in picks
    ensures var (log', tasks') := AfterTurns(log, tasks, picks);
            LoopInv(inputs, log', tasks') && i in tasks' && tasks'[i] == tasks[i]
  {
    if picks != [] {
      var n := |picks| - 1;
      UnpickedStays(inputs, log, tasks, picks[..n], i);
      var (log', tasks') := AfterTurns(log, tasks, picks[..n]);
      if picks[n] in tasks' && tasks'[picks[n]].Finished? {
        hide LoopInv, AfterTurn;
        TurnKeeps(inputs, log', tasks', picks[n]);
        assert picks[n] in picks;
      }
    }
  }

  /** Input `i` is finished in round `k`, and the round does not pick it. */
  ghost predicate Passed<T>(inputs: seq<Input<T>>, l: Loop<T>, r: Round<T>, i: nat)
    requires CanDo(inputs, l, r)
  {
    ReadyIsReady(inputs, l, r);
    i in r.later && r.later[i].Finished? && i !in PickedIn(l, r)
  }

  lemma PassedWaitsLess<T>(inputs: seq<Input<T>>, l: Loop<T>, r: Round<T>, i: nat)
    requires CanDo(inputs, l, r) && Passed(inputs, l, r, i)
    ensures var l' := NextLoop(inputs, l, r);
            && i in l'.tasks && l'.tasks[i].Finished? && i < |inputs|
            && CreditScheduling.Valid(l'.credits) && |l'.credits.credits| == |inputs|
            && 1 <= Patience(l'.credits, i) < Patience(l.credits, i)
  {
    ReadyIsReady(inputs, l, r);
    WaitKeeps(inputs, l.log, l.tasks, r.later);
    UnpickedStays(inputs, l.log, r.later, PickedIn(l, r), i);
    PickedAre(l.credits, LeastCost(l.credits, r.ready), r.ready, i);
    PatienceShrinks(l.credits, r.ready, i);
    IsPatient(CreditScheduling.Round(l.credits, r.ready), i);
  }

  /** While a finished input is passed over, its patience runs out. */
  lemma {:induction false} PatienceRunsOut<T>(inputs: seq<Input<T>>, priorities: seq<int>, ls: seq<Loop<T>>,
                                              rs: seq<Round<T>>, a: nat, b: nat, i: nat)
    requires LoopRun(inputs, priorities, ls, rs) && a < b <= |rs|
    requires i in rs[a].later && rs[a].later[i].Finished?
    requires forall k :: a <= k < b ==> !TakenIn(inputs, ls[k], rs[k], i)
    ensures i < |inputs| && i in ls[b].tasks && ls[b].tasks[i].Finished?
    ensures CreditScheduling.Valid(ls[a].credits) && CreditScheduling.Valid(ls[b].credits)
    ensures |ls[a].credits.credits| == |ls[b].credits.credits| == |inputs|
    ensures 1 <= Patience(ls[b].credits, i) <= Patience(ls[a].credits, i) - (b - a)
  {
    hide CanDo, NextLoop, Patience;
    if a + 1 < b {
      PatienceRunsOut(inputs, priorities, ls, rs, a, b - 1, i);
      StillFinished(inputs, ls[b - 1], rs[b - 1], i);
    }
    assert !TakenIn(inputs, ls[b - 1], rs[b - 1], i);
    PassedWaitsLess(inputs, ls[b - 1], rs[b - 1], i);
    HasCredits(inputs, ls[a], rs[a]);
  }

  lemma HasCredits<T>(inputs: seq<Input<T>>, l: Loop<T>, r: Round<T>)
    requires CanDo(inputs, l, r)
    ensures CreditScheduling.Valid(l.credits) && |l.credits.credits| == |inputs|
  {
  }

  lemma StillFinished<T>(inputs: seq<Input<T>>, l: Loop<T>, r: Round<T>, i: nat)
    requires CanDo(inputs, l, r) && i in l.tasks && l.tasks[i].Finished?
    ensures i in r.later && r.later[i].Finished?
  {
  }

  /** The round takes the result of the input. */
  ghost predicate TakenIn<T>(inputs: seq<Input<T>>, l: Loop<T>, r: Round<T>, i: nat)
    requires CanDo(inputs, l, r)
  {
    ReadyIsReady(inputs, l, r);
    i in PickedIn(l, r)
  }

  lemma {:induction false} SamePriorities<T>(inputs: seq<Input<T>>, priorities: seq<int>, ls: seq<Loop<T>>,
                                             rs: seq<Round<T>>, k: nat)
    requires LoopRun(inputs, priorities, ls, rs) && k <= |rs|
    ensures ls[k].credits.priorities == priorities
  {
    if k > 0 {
      SamePriorities(inputs, priorities, ls, rs, k - 1);
      ReadyIsReady(inputs, ls[k - 1], rs[k - 1]);
    }
  }

  lemma PositiveBound<T>(inputs: seq<Input<T>>, priorities: seq<int>, ls: seq<Loop<T>>, rs: seq<Round<T>>, a: nat,
                         i: nat)
    requires LoopRun(inputs, priorities, ls, rs) && a < |rs| && i < |inputs|
    ensures |priorities| == |inputs| && priorities[i] * (|inputs| - 1) >= 0
  {
    SamePriorities(inputs, priorities, ls, rs, a);
    HasCredits(inputs, ls[a], rs[a]);
    assert InputValid(ls[a].credits, i);
  }

  /** When the task of an input of priority `p` is finished, then of the next `p * (n - 1) + 1`
      rounds of the loop over `n` inputs one takes its result, whatever the others do. */
  lemma TakenInTime<T>(inputs: seq<Input<T>>, priorities: seq<int>, ls: seq<Loop<T>>, rs: seq<Round<T>>, a: nat, i: nat)
    requires LoopRun(inputs, priorities, ls, rs) && a < |rs| && i < |inputs|
    requires i in rs[a].later && rs[a].later[i].Finished?
    requires a + priorities[i] * (|inputs| - 1) + 1 <= |rs|
    ensures exists k :: a <= k <= a + priorities[i] * (|inputs| - 1) && TakenIn(inputs, ls[k], rs[k], i)
  {
    hide CanDo, NextLoop, Patience, TakenIn;
    var bound := priorities[i] * (|inputs| - 1) + 1;
    PositiveBound(inputs, priorities, ls, rs, a, i);
    if forall k :: a <= k < a + bound ==> !TakenIn(inputs, ls[k], rs[k], i) {
      PatienceRunsOut(inputs, priorities, ls, rs, a, a + bound, i);
      SamePriorities(inputs, priorities, ls, rs, a);
      IsPatient(ls[a].credits, i);
      assert false;
    }
  }
}
