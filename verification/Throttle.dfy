/** `DelayedThrottle`, utils/asyncutils.py: calls are delayed and coalesced, and the function
    runs with the parameters of the newest one. */
module Throttle {
  import opened Options

  /** What a delayed task awaits: its delay, or the function of run `run`. */
  datatype Stage = Waiting | Running(future: Option<nat>, run: nat)

  /** The fields of a `DelayedThrottle`, the tasks of the loop that execute `_delay_call`, and
      counters that name new tasks and futures. */
  datatype Throttle<P> = Throttle(delayedTask: Option<nat>, delayedParams: Option<P>, callFuture: Option<nat>,
                                  tasks: map<nat, Stage>, nextTask: nat, nextFuture: nat)

  datatype Call<P> = Call(params: P, future: Option<nat>)

  /** `after` counts the calls made before the function was invoked. */
  datatype Run<P> = Run(params: P, future: Option<nat>, after: nat)

  /** History: `settled` names for each future the run whose outcome it has. */
  datatype World<P> = World(t: Throttle<P>, calls: seq<Call<P>>, runs: seq<Run<P>>, settled: map<nat, nat>)

  datatype Event<P> =
    | CallNowait(params: P)
    | CallFuture(params: P)
    | Wake(task: nat)     // the delay of a task is over, or was flushed
    | Return(task: nat)   // the function returns or raises

  function Fresh<P>(): Throttle<P> {
    Throttle(None, None, None, map[], 0, 0)
  }

  /** `call_nowait` */
  function Requested<P>(t: Throttle<P>, params: P): Throttle<P> {
    var t' := t.(delayedParams := Some(params));
    if t.delayedTask == None then
      t'.(delayedTask := Some(t.nextTask), tasks := t.tasks[t.nextTask := Waiting], nextTask := t.nextTask + 1)
    else t'
  }

  /** The future that `__call__` returns. */
  function WithFuture<P>(t: Throttle<P>): Throttle<P> {
    if t.callFuture.Some? then t else t.(callFuture := Some(t.nextFuture), nextFuture := t.nextFuture + 1)
  }

  /** `_delay_call` up to the call of the function. */
  function Invoked<P>(t: Throttle<P>, task: nat, run: nat): Throttle<P> {
    t.(delayedParams := None, callFuture := None, tasks := t.tasks[task := Running(t.callFuture, run)])
  }

  /** The `finally` of `_delay_call`: a call made meanwhile is delayed anew. */
  function Finished<P>(t: Throttle<P>, task: nat): Throttle<P> {
    var t' := t.(delayedTask := None, tasks := t.tasks - {task});
    if t.delayedParams.Some? then Requested(t', t.delayedParams.value) else t'
  }

  function Init<P>(): World<P> {
    World(Fresh(), [], [], map[])
  }

  predicate Enabled<P>(w: World<P>, e: Event<P>) {
    match e
    case CallNowait(_) => true
    case CallFuture(_) => true
    case Wake(task) => task in w.t.tasks && w.t.tasks[task].Waiting? && w.t.delayedParams.Some?
    case Return(task) => task in w.t.tasks && w.t.tasks[task].Running?
  }

  function Next<P>(w: World<P>, e: Event<P>): World<P>
    requires Enabled(w, e)
  {
    match e
    case CallNowait(p) => w.(t := Requested(w.t, p), calls := w.calls + [Call(p, None)])
    case CallFuture(p) =>
      var t := WithFuture(w.t);
      w.(t := Requested(t, p), calls := w.calls + [Call(p, t.callFuture)])
    case Wake(task) =>
      w.(t := Invoked(w.t, task, |w.runs|),
         runs := w.runs + [Run(w.t.delayedParams.value, w.t.callFuture, |w.calls|)])
    case Return(task) =>
      var stage := w.t.tasks[task];
      w.(t := Finished(w.t, task),
         settled := if stage.future.Some? then w.settled[stage.future.value := stage.run] else w.settled)
  }

  /** The calls before the newest invocation. */
  function Covered<P>(w: World<P>): nat {
    if w.runs == [] then 0 else w.runs[|w.runs| - 1].after
  }

  /** Run `r` is the first one after call `i`. */
  predicate Covers<P>(runs: seq<Run<P>>, r: nat, i: nat) {
    r < |runs| && i < runs[r].after && (r == 0 || runs[r - 1].after <= i)
  }

  /** One task at most, and it is `delayed_task`. */
  ghost predicate OneTask<P>(t: Throttle<P>) {
    && t.tasks.Keys == (if t.delayedTask.Some? then {t.delayedTask.value} else {})
    && (t.delayedTask.Some? ==> t.delayedTask.value < t.nextTask)
    && (t.delayedTask == None ==> t.delayedParams == None)
    && (t.callFuture.Some? ==> t.delayedParams.Some?)
    && (forall k :: k in t.tasks && t.tasks[k].Waiting? ==> t.delayedParams.Some?)
  }

  /** Each invocation had the parameters of the newest call, and there was a new one. */
  ghost predicate NewestParams<P>(calls: seq<Call<P>>, runs: seq<Run<P>>) {
    && (forall r :: 0 <= r < |runs| ==>
          0 < runs[r].after <= |calls| && runs[r].params == calls[runs[r].after - 1].params)
    && (forall r :: 0 < r < |runs| ==> runs[r - 1].after < runs[r].after)
  }

  /** Either all calls are covered, or the parameters of the newest are delayed. */
  ghost predicate DelayedInv<P>(w: World<P>) {
    && Covered(w) <= |w.calls|
    && (if w.t.delayedParams.Some? then
          Covered(w) < |w.calls| && w.t.delayedParams.value == w.calls[|w.calls| - 1].params
        else Covered(w) == |w.calls|)
    && (forall k :: k in w.t.tasks && w.t.tasks[k].Running? ==>
          w.runs != [] && w.t.tasks[k].run == |w.runs| - 1 && w.t.tasks[k].future == w.runs[|w.runs| - 1].future)
  }

  ghost predicate RunsInv<P>(w: World<P>) {
    NewestParams(w.calls, w.runs) && DelayedInv(w)
  }

  /** The future of a call is that of the first run after it. */
  ghost predicate CallsInv<P>(w: World<P>) {
    && (forall i :: 0 <= i < |w.calls| && w.calls[i].future.Some? && Covered(w) <= i ==>
          w.t.callFuture == w.calls[i].future)
    && (forall i: nat, r: nat :: i < |w.calls| && w.calls[i].future.Some? && Covers(w.runs, r, i) ==>
          w.runs[r].future == w.calls[i].future)
  }

  /** The function is running. */
  predicate Busy<P>(t: Throttle<P>) {
    t.delayedTask.Some? && t.delayedTask.value in t.tasks && t.tasks[t.delayedTask.value].Running?
  }

  /** Run `r` has returned. */
  predicate Returned<P>(w: World<P>, r: nat) {
    r < |w.runs| && !(Busy(w.t) && r == |w.runs| - 1)
  }

  /** Futures are given to one run each, and settled by it when it returns. */
  ghost predicate FuturesInv<P>(w: World<P>) {
    && (w.t.callFuture.Some? ==> w.t.callFuture.value < w.t.nextFuture && w.t.callFuture.value !in w.settled)
    && (forall r :: 0 <= r < |w.runs| && w.runs[r].future.Some? ==>
          && w.runs[r].future.value < w.t.nextFuture && w.t.callFuture != w.runs[r].future)
    && (forall q, r :: 0 <= q < r < |w.runs| && w.runs[q].future.Some? ==> w.runs[q].future != w.runs[r].future)
    && (forall r :: 0 <= r < |w.runs| && w.runs[r].future.Some? ==>
          if Returned(w, r) then w.runs[r].future.value in w.settled && w.settled[w.runs[r].future.value] == r
          else w.runs[r].future.value !in w.settled)
    && (forall f :: f in w.settled ==> w.settled[f] < |w.runs| && w.runs[w.settled[f]].future == Some(f))
  }

  ghost predicate Inv<P>(w: World<P>) {
    OneTask(w.t) && RunsInv(w) && CallsInv(w) && FuturesInv(w)
  }

  lemma TasksStep<P>(w: World<P>, e: Event<P>)
    requires OneTask(w.t) && Enabled(w, e)
    ensures OneTask(Next(w, e).t)
    ensures Busy(Next(w, e).t) <==> e.Wake? || (Busy(w.t) && !e.Return?)
    ensures e.Return? ==> Busy(w.t) && w.t.delayedTask == Some(e.task)
    ensures e.Wake? ==> !Busy(w.t)
  {
  }

  lemma WakeRuns<P>(w: World<P>, task: nat)
    requires OneTask(w.t) && RunsInv(w) && Enabled(w, Wake(task))
    ensures RunsInv(Next(w, Wake(task)))
  {
  }

  lemma RequestRuns<P>(w: World<P>, e: Event<P>)
    requires OneTask(w.t) && RunsInv(w) && (e.CallNowait? || e.CallFuture?)
    ensures RunsInv(Next(w, e))
  {
  }

  lemma RunsStep<P>(w: World<P>, e: Event<P>)
    requires OneTask(w.t) && RunsInv(w) && Enabled(w, e)
    ensures RunsInv(Next(w, e))
  {
    match e
    case Wake(task) => WakeRuns(w, task);
    case Return(task) =>
      var w' := Next(w, e);
      assert w'.runs == w.runs && w'.calls == w.calls;
    case _ => RequestRuns(w, e);
  }

  lemma CallsStep<P>(w: World<P>, e: Event<P>)
    requires OneTask(w.t) && RunsInv(w) && CallsInv(w) && Enabled(w, e)
    ensures CallsInv(Next(w, e))
  {
    var w' := Next(w, e);
    match e
    case Wake(task) =>
      forall i: nat, r: nat | i < |w'.calls| && Covers(w'.runs, r, i) && w'.calls[i].future.Some?
        ensures w'.runs[r].future == w'.calls[i].future
      {
        if r < |w.runs| {
          assert Covers(w.runs, r, i);
        }
      }
    case Return(task) => assert w'.runs == w.runs && w'.calls == w.calls;
    case _ =>
      assert w'.runs == w.runs;
  }

  lemma FuturesStep<P>(w: World<P>, e: Event<P>)
    requires OneTask(w.t) && RunsInv(w) && FuturesInv(w) && Enabled(w, e)
    ensures FuturesInv(Next(w, e))
  {
    TasksStep(w, e);
    var w' := Next(w, e);
    match e
    case Wake(task) => WakeFutures(w, task);
    case Return(task) => ReturnFutures(w, task);
    case _ => assert w'.runs == w.runs && w'.settled == w.settled;
  }

  lemma WakeFutures<P>(w: World<P>, task: nat)
    requires OneTask(w.t) && FuturesInv(w) && Enabled(w, Wake(task)) && !Busy(w.t)
    requires Busy(Next(w, Wake(task)).t)
    ensures FuturesInv(Next(w, Wake(task)))
  {
  }

  lemma ReturnFutures<P>(w: World<P>, task: nat)
    requires OneTask(w.t) && RunsInv(w) && FuturesInv(w) && Enabled(w, Return(task)) && Busy(w.t)
    requires !Busy(Next(w, Return(task)).t)
    ensures FuturesInv(Next(w, Return(task)))
  {
    hide Returned, RunsInv, OneTask, Next, Enabled, Busy;
    LastReturns(w, task);
  }

  lemma LastReturns<P>(w: World<P>, task: nat)
    requires OneTask(w.t) && RunsInv(w) && Enabled(w, Return(task)) && Busy(w.t) && !Busy(Next(w, Return(task)).t)
    ensures var w', n := Next(w, Return(task)), |w.runs| - 1;
            && w'.runs == w.runs && n >= 0
            && w'.t.callFuture == w.t.callFuture && w'.t.nextFuture == w.t.nextFuture
            && w'.settled == (if w.runs[n].future.Some? then w.settled[w.runs[n].future.value := n] else w.settled)
            && (forall r: nat :: r < |w.runs| ==> Returned(w', r) && (Returned(w, r) <==> r != n))
  {
  }

  lemma StepInv<P>(w: World<P>, e: Event<P>)
    requires Inv(w) && Enabled(w, e)
    ensures Inv(Next(w, e))
  {
    hide OneTask, RunsInv, CallsInv, FuturesInv;
    TasksStep(w, e);
    RunsStep(w, e);
    CallsStep(w, e);
    FuturesStep(w, e);
  }

  // ----- Whole runs -----

  ghost predicate Execution<P>(ws: seq<World<P>>, es: seq<Event<P>>) {
    && |ws| == |es| + 1
    && ws[0] == Init()
    && forall k :: 0 <= k < |es| ==> Enabled(ws[k], es[k]) && ws[k + 1] == Next(ws[k], es[k])
  }

  lemma {:induction false} ExecutionInv<P>(ws: seq<World<P>>, es: seq<Event<P>>, k: nat)
    requires Execution(ws, es) && k <= |es|
    ensures Inv(ws[k])
  {
    if k > 0 {
      hide Inv, Enabled;
      ExecutionInv(ws, es, k - 1);
      StepInv(ws[k - 1], es[k - 1]);
    }
  }

  /** At most one delayed task exists, so the function never overlaps itself; and each
      invocation had the parameters of the newest call made before it. */
  lemma OneTaskWithNewestParams<P>(ws: seq<World<P>>, es: seq<Event<P>>, j: nat, k: nat, r: nat)
    requires Execution(ws, es)
    ensures var w := ws[|es|];
            && (j in w.t.tasks && k in w.t.tasks ==> j == k && w.t.delayedTask == Some(j))
            && (r < |w.runs| ==> 0 < w.runs[r].after <= |w.calls|)
            && (r < |w.runs| ==> w.runs[r].params == w.calls[w.runs[r].after - 1].params)
  {
    hide CallsInv, FuturesInv, Next, Enabled;
    ExecutionInv(ws, es, |es|);
  }

  /** The newest call is never dropped: a call that no invocation covers has its parameters,
      or those of a later call, delayed by a task; when there is no task, every call is covered. */
  lemma NewestCallIsNeverDropped<P>(ws: seq<World<P>>, es: seq<Event<P>>, i: nat)
    requires Execution(ws, es) && i < |ws[|es|].calls|
    ensures var w := ws[|es|];
            if Covered(w) <= i then
              && w.t.delayedTask.Some? && w.t.delayedTask.value in w.t.tasks
              && w.t.delayedParams == Some(w.calls[|w.calls| - 1].params)
            else exists r :: Covers(w.runs, r, i)
    ensures ws[|es|].t.delayedTask == None ==> Covered(ws[|es|]) == |ws[|es|].calls|
  {
    hide CallsInv, FuturesInv, Next, Enabled;
    ExecutionInv(ws, es, |es|);
    var w := ws[|es|];
    if i < Covered(w) {
      var r := FirstRun(w.runs, i);
    }
  }

  lemma {:induction false} FirstRun<P>(runs: seq<Run<P>>, i: nat) returns (r: nat)
    requires runs != [] && i < runs[|runs| - 1].after
    ensures Covers(runs, r, i)
  {
    r := |runs| - 1;
    if r > 0 && i < runs[r - 1].after {
      r := FirstRun(runs[..r], i);
    }
  }

  /** A future is settled at most once: while its run is in progress it is not settled, and no
      other run has it.  It is settled by the first run after the call that returned it, which
      had the parameters of that call or of a later one. */
  lemma FuturesAreSettledByTheirRun<P>(ws: seq<World<P>>, es: seq<Event<P>>, i: nat)
    requires Execution(ws, es) && i < |ws[|es|].calls| && ws[|es|].calls[i].future.Some?
    ensures var w, f := ws[|es|], ws[|es|].calls[i].future.value;
            && (f in w.settled ==> Covers(w.runs, w.settled[f], i) && Returned(w, w.settled[f]))
            && (f !in w.settled ==> w.t.delayedTask.Some?)
            && (forall q: nat, r: nat ::
                  q < |w.runs| && r < |w.runs| && w.runs[q].future == w.runs[r].future == Some(f) ==> q == r)
  {
    hide Next, Enabled;
    ExecutionInv(ws, es, |es|);
    var w := ws[|es|];
    if i < Covered(w) {
      var r := FirstRun(w.runs, i);
    } else {
      assert w.t.callFuture == w.calls[i].future;
    }
  }

  /** What is left to do when no more calls are made. */
  function Work<P>(t: Throttle<P>): nat {
    if t.delayedTask == None then 0
    else (if Busy(t) then 1 else 0) + (if t.delayedParams.Some? then 2 else 0)
  }

  /** Until nothing is left, the task can go on, and each of its steps leaves less. */
  lemma WorkEnds<P>(w: World<P>, e: Event<P>)
    requires Inv(w)
    ensures w.t.delayedTask.Some? ==>
              var k := w.t.delayedTask.value; Enabled(w, Wake(k)) || Enabled(w, Return(k))
    ensures Enabled(w, e) && (e.Wake? || e.Return?) ==> Work(Next(w, e).t) < Work(w.t)
    ensures Work(w.t) <= 3 && (Work(w.t) == 0 <==> w.t.delayedTask == None)
  {
  }

  // ----- flush -----

  /** `flush` returns when the task that was delayed at the time is over. */
  ghost predicate FlushReturns<P>(ws: seq<World<P>>, k: nat, n: nat) {
    && k < n < |ws| && ws[k].t.delayedTask.Some?
    && (forall j :: k <= j < n ==> ws[k].t.delayedTask.value in ws[j].t.tasks)
    && ws[k].t.delayedTask.value !in ws[n].t.tasks
  }

  /** The calls made before `flush` are covered when it returns, if and only if it was not called
      while the function was running with newer parameters delayed: `flush` then waits for the
      running invocation alone. */
  lemma FlushCoversIff<P>(ws: seq<World<P>>, es: seq<Event<P>>, k: nat, n: nat)
    requires Execution(ws, es) && FlushReturns(ws, k, n)
    ensures Covered(ws[n]) >= |ws[k].calls| <==> !(Busy(ws[k].t) && ws[k].t.delayedParams.Some?)
  {
    hide Inv, Enabled, Next;
    FlushedTask(ws, es, k, n - 1);
    ExecutionInv(ws, es, k);
    ExecutionInv(ws, es, n - 1);
    TaskEnds(ws[n - 1], es[n - 1], ws[k].t.delayedTask.value);
    NotCovered(ws[k]);
  }

  /** Such a run: the function runs for one call, another call is made, and `flush` returns with
      the first invocation. */
  lemma FlushMissesACall<P>(p: P, q: P) returns (ws: seq<World<P>>, es: seq<Event<P>>)
    ensures es == [CallNowait(p), Wake(0), CallNowait(q), Return(0)]
    ensures Execution(ws, es) && FlushReturns(ws, 3, 4)
    ensures Covered(ws[4]) < |ws[3].calls|
  {
    es := [CallNowait(p), Wake(0), CallNowait(q), Return(0)];
    var w1 := Next(Init(), es[0]);
    var w2 := Next(w1, es[1]);
    var w3 := Next(w2, es[2]);
    ws := [Init(), w1, w2, w3, Next(w3, es[3])];
  }

  lemma TaskEnds<P>(w: World<P>, e: Event<P>, task: nat)
    requires Inv(w) && Enabled(w, e) && task in w.t.tasks && task !in Next(w, e).t.tasks
    ensures Busy(w.t) && Next(w, e).runs == w.runs
  {
  }

  lemma NotCovered<P>(w: World<P>)
    requires Inv(w)
    ensures Covered(w) <= |w.calls| && (w.t.delayedParams.Some? <==> Covered(w) < |w.calls|)
    ensures !Busy(w.t) && w.t.delayedTask.Some? ==> w.t.delayedParams.Some?
  {
  }

  /** From one world to a later one, while the same task lives: it waits, or runs what it ran, or
      what came later. */
  ghost predicate Carries<P>(v: World<P>, w: World<P>) {
    && |v.calls| <= |w.calls|
    && (Busy(v.t) ==> Busy(w.t) && w.runs == v.runs)
    && (!Busy(v.t) && Busy(w.t) ==> Covered(w) >= |v.calls|)
  }

  lemma {:induction false} FlushedTask<P>(ws: seq<World<P>>, es: seq<Event<P>>, k: nat, j: nat)
    requires Execution(ws, es) && k <= j <= |es| && ws[k].t.delayedTask.Some?
    requires forall m :: k <= m <= j ==> ws[k].t.delayedTask.value in ws[m].t.tasks
    ensures Carries(ws[k], ws[j])
  {
    if k < j {
      hide Carries, Inv, Enabled, Next;
      FlushedTask(ws, es, k, j - 1);
      ExecutionInv(ws, es, j - 1);
      var task := ws[k].t.delayedTask.value;
      assert task in ws[j - 1].t.tasks && task in ws[j].t.tasks;
      CarriesOn(ws[k], ws[j - 1], es[j - 1], task);
    }
  }

  lemma CarriesOn<P>(v: World<P>, w: World<P>, e: Event<P>, task: nat)
    requires Carries(v, w) && Inv(w) && Enabled(w, e) && task in w.t.tasks && task in Next(w, e).t.tasks
    ensures Carries(v, Next(w, e))
  {
    TaskLives(w, e, task);
    hide Next, Enabled, Inv;
  }

  lemma TaskLives<P>(w: World<P>, e: Event<P>, task: nat)
    requires Inv(w) && Enabled(w, e) && task in w.t.tasks && task in Next(w, e).t.tasks
    ensures var w' := Next(w, e);
            && |w.calls| <= |w'.calls|
            && (Busy(w.t) ==> Busy(w'.t) && w'.runs == w.runs)
            && (!Busy(w.t) && Busy(w'.t) ==> Covered(w') == |w.calls|)
  {
  }

  // ----- The object -----

  /** The object, with the loop's tasks that execute `_delay_call`. */
  class DelayedThrottle<P> {
    var delayedTask: Option<nat>
    var delayedParams: Option<P>
    var callFuture: Option<nat>
    var tasks: map<nat, Stage>
    var nextTask: nat
    var nextFuture: nat

    ghost function View(): Throttle<P>
      reads this
    {
      Throttle(delayedTask, delayedParams, callFuture, tasks, nextTask, nextFuture)
    }

    constructor ()
      ensures View() == Fresh()
    {
      delayedTask, delayedParams, callFuture := None, None, None;
      tasks, nextTask, nextFuture := map[], 0, 0;
    }

    method CallNowait(params: P)
      modifies this
      ensures View() == Requested(old(View()), params)
    {
      delayedParams := Some(params);
      if delayedTask == None {
        delayedTask := Some(nextTask);
        tasks := tasks[nextTask := Waiting];
        nextTask := nextTask + 1;
      }
    }

    method Call(params: P) returns (future: nat)
      modifies this
      ensures View() == Requested(WithFuture(old(View())), params)
      ensures callFuture == Some(future)
    {
      if callFuture == None {
        callFuture := Some(nextFuture);
        nextFuture := nextFuture + 1;
      }
      CallNowait(params);
      future := callFuture.value;
    }

    /** `_delay_call` from the end of the wait to the call of the function.  With no
        parameters, which only `cancel` leaves, the task is over. */
    method AfterWait(task: nat, run: nat) returns (params: Option<P>, future: Option<nat>)
      requires task in tasks
      modifies this
      ensures params == old(delayedParams) && future == old(callFuture)
      ensures View() == if params.Some? then Invoked(old(View()), task, run) else Finished(old(View()), task)
    {
      params, future := delayedParams, callFuture;
      if params == None {
        AfterFunction(task);
        return;
      }
      delayedParams := None;
      callFuture := None;
      tasks := tasks[task := Running(future, run)];
    }

    /** The `finally` of `_delay_call`. */
    method AfterFunction(task: nat)
      modifies this
      ensures View() == Finished(old(View()), task)
    {
      delayedTask := None;
      tasks := tasks - {task};
      if delayedParams.Some? {
        CallNowait(delayedParams.value);
      }
    }
  }
}
