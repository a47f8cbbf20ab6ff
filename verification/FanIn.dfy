/** `Scheduler.__aiter__`, utils/iterators.py. */
module FanIn {
  import opened CreditScheduling

  datatype End = Stops | Fails

  /** What an iterator gives: its items, and then it stops or raises. */
  datatype Input<T> = Input(items: seq<T>, end: End)

  datatype Outcome<T> = Item(x: T) | Stopped | Failed | Cancelled

  /** An `anext` task. */
  datatype Task<T> = Running(cancelled: bool) | Finished(outcome: Outcome<T>)

  /** What the loop does with its inputs, in order: the items it yields, the errors it keeps. */
  datatype Entry<T> = Yielded(input: nat, x: T) | Raised(input: nat)

  type Tasks<T> = map<nat, Task<T>>

  /** The items of one input. */
  function Only<T>(log: seq<Entry<T>>, i: nat): seq<T> {
    if log == [] then []
    else
      var n := |log| - 1;
      Only(log[..n], i) + if log[n].Yielded? && log[n].input == i then [log[n].x] else []
  }

  predicate Erred<T>(log: seq<Entry<T>>) {
    exists k :: 0 <= k < |log| && log[k].Raised?
  }

  /** What the iterator gives after `n` items. */
  function Natural<T>(input: Input<T>, n: nat): Outcome<T> {
    if n < |input.items| then Item(input.items[n]) else if input.end.Stops? then Stopped else Failed
  }

  /** The result of a task is the next one of its input, unless the task was cancelled. */
  predicate Fits<T(==)>(input: Input<T>, n: nat, task: Task<T>) {
    task.Finished? ==> task.outcome == Natural(input, n) || task.outcome == Cancelled
  }

  /** Some tasks finish. A cancelled one may still have a result. */
  ghost predicate Waited<T>(inputs: seq<Input<T>>, log: seq<Entry<T>>, tasks: Tasks<T>, later: Tasks<T>)
    requires forall i :: i in tasks ==> i < |inputs|
  {
    && later.Keys == tasks.Keys
    && (exists i :: i in later && later[i].Finished?)
    && forall i :: i in tasks ==>
         || later[i] == tasks[i]
         || (tasks[i].Running? && later[i] == Finished(Natural(inputs[i], |Only(log, i)|)))
         || (tasks[i] == Running(true) && later[i] == Finished(Cancelled))
  }

  /** What a policy may pick: some of the ready inputs, each once. */
  ghost predicate Picks<T>(tasks: Tasks<T>, picks: seq<nat>) {
    && picks != []
    && (forall k :: 0 <= k < |picks| ==> picks[k] in tasks && tasks[picks[k]].Finished?)
    && (forall j, k :: 0 <= j < k < |picks| ==> picks[j] != picks[k])
  }

  /** Where one input is: what it yielded, and its task. */
  ghost predicate InputInv<T>(input: Input<T>, i: nat, log: seq<Entry<T>>, tasks: Tasks<T>) {
    && Only(log, i) <= input.items
    && (i in tasks ==> Fits(input, |Only(log, i)|, tasks[i]) && Raised(i) !in log)
    && (i in tasks && tasks[i] in {Running(true), Finished(Cancelled)} ==> Erred(log))
    && (i !in tasks && !Erred(log) ==> Only(log, i) == input.items && input.end.Stops?)
    && (Raised(i) in log ==> Only(log, i) == input.items && input.end.Fails?)
  }

  /** After an error, no input has more than one entry, and one that has is no longer asked; and every
      task that still runs was cancelled. */
  ghost predicate Winding<T>(log: seq<Entry<T>>, tasks: Tasks<T>) {
    && (Erred(log) ==> forall i :: i in tasks && tasks[i].Running? ==> tasks[i].cancelled)
    && (forall a, b :: 0 <= a < b < |log| && log[a].Raised? ==> log[b].input !in tasks)
    && (forall a, b, c :: 0 <= a < b < c < |log| && log[a].Raised? ==> log[b].input != log[c].input)
  }

  ghost predicate LoopInv<T>(inputs: seq<Input<T>>, log: seq<Entry<T>>, tasks: Tasks<T>) {
    && (forall i :: i in tasks ==> i < |inputs|)
    && (forall k :: 0 <= k < |log| ==> log[k].input < |inputs|)
    && (forall i: nat :: i < |inputs| ==> InputInv(inputs[i], i, log, tasks))
    && Winding(log, tasks)
  }

  // ----- Termination -----

  function Weight<T>(inputs: seq<Input<T>>, log: seq<Entry<T>>, tasks: Tasks<T>, i: nat): int
    requires i < |inputs|
  {
    if i !in tasks then 0
    else 2 * (|inputs[i].items| - |Only(log, i)|) + if tasks[i].Running? then 2 else 1
  }

  function Work<T>(inputs: seq<Input<T>>, log: seq<Entry<T>>, tasks: Tasks<T>, n: nat): int
    requires n <= |inputs|
  {
    if n == 0 then 0 else Work(inputs, log, tasks, n - 1) + Weight(inputs, log, tasks, n - 1)
  }

  lemma {:induction false} LessWork<T>(inputs: seq<Input<T>>, log: seq<Entry<T>>, tasks: Tasks<T>,
                                       log': seq<Entry<T>>, tasks': Tasks<T>, n: nat, p: nat)
    requires n <= |inputs| && p < |inputs|
    requires forall i: nat :: i < |inputs| ==> Weight(inputs, log', tasks', i) <= Weight(inputs, log, tasks, i)
    requires n > p ==> Weight(inputs, log', tasks', p) < Weight(inputs, log, tasks, p)
    ensures Work(inputs, log', tasks', n) <= Work(inputs, log, tasks, n)
    ensures n > p ==> Work(inputs, log', tasks', n) < Work(inputs, log, tasks, n)
  {
    if n > 0 {
      LessWork(inputs, log, tasks, log', tasks', n - 1, p);
    }
  }

  // ----- The loop -----

  /** How the tasks finish, and which of the ready inputs the policy picks. As no log and tasks
      come twice in a run, functions of them can make every possible choice. */
  ghost predicate Waits<T(!new)>(inputs: seq<Input<T>>, wait: (seq<Entry<T>>, Tasks<T>) -> Tasks<T>) {
    forall log, tasks :: LoopInv(inputs, log, tasks) && tasks != map[] ==> Waited(inputs, log, tasks, wait(log, tasks))
  }

  ghost predicate IsPolicy<T(!new)>(pick: (seq<Entry<T>>, Tasks<T>) -> seq<nat>) {
    forall log, tasks: Tasks<T> :: (exists i :: i in tasks && tasks[i].Finished?) ==> Picks(tasks, pick(log, tasks))
  }

  lemma WaitKeeps<T>(inputs: seq<Input<T>>, log: seq<Entry<T>>, tasks: Tasks<T>, later: Tasks<T>)
    requires LoopInv(inputs, log, tasks) && Waited(inputs, log, tasks, later)
    ensures LoopInv(inputs, log, later)
    ensures Work(inputs, log, later, |inputs|) <= Work(inputs, log, tasks, |inputs|)
  {
    forall i: nat | i < |inputs|
      ensures InputInv(inputs[i], i, log, later)
      ensures Weight(inputs, log, later, i) <= Weight(inputs, log, tasks, i)
    {
      assert InputInv(inputs[i], i, log, tasks);
    }
    NoMoreWork(inputs, log, tasks, later, |inputs|);
  }

  lemma {:induction false} NoMoreWork<T>(inputs: seq<Input<T>>, log: seq<Entry<T>>, tasks: Tasks<T>, later: Tasks<T>,
                                         n: nat)
    requires n <= |inputs|
    requires forall i: nat :: i < |inputs| ==> Weight(inputs, log, later, i) <= Weight(inputs, log, tasks, i)
    ensures Work(inputs, log, later, n) <= Work(inputs, log, tasks, n)
  {
    if n > 0 {
      NoMoreWork(inputs, log, tasks, later, n - 1);
    }
  }

  /** The tasks that still run are cancelled. */
  function CancelAll<T>(tasks: Tasks<T>): Tasks<T> {
    map i | i in tasks :: if tasks[i].Running? then Running(true) else tasks[i]
  }

  /** The log and the tasks after the turn of one input. */
  function AfterTurn<T>(log: seq<Entry<T>>, tasks: Tasks<T>, i: nat): (seq<Entry<T>>, Tasks<T>)
    requires i in tasks && tasks[i].Finished?
  {
    match tasks[i].outcome
    case Item(x) =>
      (log + [Yielded(i, x)], if Erred(log) then tasks - {i} else tasks[i := Running(false)])
    case Failed => (log + [Raised(i)], CancelAll(tasks - {i}))
    case _ => (log, tasks - {i})
  }

  /** After the turns of the picked inputs, one after the other. */
  function AfterTurns<T>(log: seq<Entry<T>>, tasks: Tasks<T>, picks: seq<nat>): (seq<Entry<T>>, Tasks<T>) {
    if picks == [] then (log, tasks)
    else
      var n := |picks| - 1;
      var (log', tasks') := AfterTurns(log, tasks, picks[..n]);
      if picks[n] in tasks' && tasks'[picks[n]].Finished? then AfterTurn(log', tasks', picks[n]) else (log', tasks')
  }

  lemma TurnOfOne<T>(inputs: seq<Input<T>>, log: seq<Entry<T>>, tasks: Tasks<T>, i: nat, j: nat)
    requires LoopInv(inputs, log, tasks) && i in tasks && tasks[i].Finished? && j < |inputs|
    ensures var (log', tasks') := AfterTurn(log, tasks, i);
            && InputInv(inputs[j], j, log', tasks')
            && Weight(inputs, log', tasks', j) <= Weight(inputs, log, tasks, j) - (if i == j then 1 else 0)
  {
  }

  lemma TurnWinds<T>(inputs: seq<Input<T>>, log: seq<Entry<T>>, tasks: Tasks<T>, i: nat)
    requires LoopInv(inputs, log, tasks) && i in tasks && tasks[i].Finished?
    ensures var (log', tasks') := AfterTurn(log, tasks, i); Winding(log', tasks')
  {
  }

  lemma TurnKeeps<T>(inputs: seq<Input<T>>, log: seq<Entry<T>>, tasks: Tasks<T>, i: nat)
    requires LoopInv(inputs, log, tasks) && i in tasks && tasks[i].Finished?
    ensures var (log', tasks') := AfterTurn(log, tasks, i);
            && LoopInv(inputs, log', tasks')
            && Work(inputs, log', tasks', |inputs|) < Work(inputs, log, tasks, |inputs|)
            && forall j :: j != i && j in tasks && tasks[j].Finished? ==> j in tasks' && tasks'[j] == tasks[j]
  {
    hide InputInv, Winding, Weight, Work;
    var (log', tasks') := AfterTurn(log, tasks, i);
    forall j: nat | j < |inputs|
      ensures InputInv(inputs[j], j, log', tasks')
      ensures Weight(inputs, log', tasks', j) <= Weight(inputs, log, tasks, j) - (if i == j then 1 else 0)
    {
      TurnOfOne(inputs, log, tasks, i, j);
    }
    TurnWinds(inputs, log, tasks, i);
    LessWork(inputs, log, tasks, log', tasks', |inputs|, i);
  }

  /** What one more entry is for the items of an input. */
  lemma OneEntryMore<T>(log: seq<Entry<T>>, e: Entry<T>, i: nat)
    ensures Only(log + [e], i) == Only(log, i) + if e.Yielded? && e.input == i then [e.x] else []
  {
  }

  /** The results that tasks with these numbers had are in the log: an item is yielded right behind what
      the input yielded before, an error is kept, and nothing is yielded of any other input. */
  ghost predicate Taken<T>(log0: seq<Entry<T>>, tasks0: Tasks<T>, picks: seq<nat>, log: seq<Entry<T>>)
    requires forall i :: i in picks ==> i in tasks0 && tasks0[i].Finished?
  {
    forall i: nat ::
      && Only(log, i) == Only(log0, i)
           + (if i in picks && tasks0[i].outcome.Item? then [tasks0[i].outcome.x] else [])
      && (i in picks && tasks0[i].outcome.Failed? ==> Raised(i) in log)
  }

  lemma OneMoreTaken<T>(log0: seq<Entry<T>>, tasks0: Tasks<T>, picks: seq<nat>, log: seq<Entry<T>>, tasks: Tasks<T>,
                        i: nat)
    requires forall j :: j in picks ==> j in tasks0 && tasks0[j].Finished?
    requires Taken(log0, tasks0, picks, log) && i !in picks
    requires i in tasks0 && i in tasks && tasks[i] == tasks0[i] && tasks[i].Finished?
    ensures Taken(log0, tasks0, picks + [i], AfterTurn(log, tasks, i).0)
  {
    hide Only;
    OneTurnMore(log, tasks, i);
    assert i in picks + [i];
    forall j | j != i
      ensures j in picks + [i] <==> j in picks
    {
    }
  }

  lemma OneTurnMore<T>(log: seq<Entry<T>>, tasks: Tasks<T>, i: nat)
    requires i in tasks && tasks[i].Finished?
    ensures var log', outcome := AfterTurn(log, tasks, i).0, tasks[i].outcome;
            && (forall j: nat :: Only(log', j) == Only(log, j) + if i == j && outcome.Item? then [outcome.x] else [])
            && (outcome.Failed? ==> Raised(i) in log')
            && forall e :: e in log ==> e in log'
  {
    var log' := AfterTurn(log, tasks, i).0;
    forall j: nat
      ensures Only(log', j)
           == Only(log, j) + if i == j && tasks[i].outcome.Item? then [tasks[i].outcome.x] else []
    {
      if log' != log {
        OneEntryMore(log, log'[|log|], j);
      }
    }
  }

  /** The turns of the first `k` picks are over. */
  ghost predicate AfterPicks<T>(log0: seq<Entry<T>>, tasks0: Tasks<T>, picks: seq<nat>, k: nat,
                                log: seq<Entry<T>>, tasks: Tasks<T>) {
    && Picks(tasks0, picks) && k <= |picks| && log0 <= log
    && (log, tasks) == AfterTurns(log0, tasks0, picks[..k])
    && Taken(log0, tasks0, picks[..k], log)
    && (forall i :: i in tasks0 && i !in picks[..k] && tasks0[i].Finished? ==> i in tasks && tasks[i] == tasks0[i])
  }

  lemma NoPickYet<T>(log0: seq<Entry<T>>, tasks0: Tasks<T>, picks: seq<nat>)
    requires Picks(tasks0, picks)
    ensures AfterPicks(log0, tasks0, picks, 0, log0, tasks0)
  {
  }

  lemma NextPick<T>(log0: seq<Entry<T>>, tasks0: Tasks<T>, picks: seq<nat>, k: nat,
                    log: seq<Entry<T>>, tasks: Tasks<T>)
    requires AfterPicks(log0, tasks0, picks, k, log, tasks) && k < |picks|
    ensures picks[k] !in picks[..k] && picks[..k + 1] == picks[..k] + [picks[k]]
    ensures picks[k] in tasks && tasks[picks[k]].Finished? && tasks[picks[k]] == tasks0[picks[k]]
  {
    hide AfterTurns, Taken;
    assert picks[..k + 1] == picks[..k] + [picks[k]];
  }

  lemma OnePickMore<T>(log0: seq<Entry<T>>, tasks0: Tasks<T>, picks: seq<nat>, k: nat,
                       log: seq<Entry<T>>, tasks: Tasks<T>)
    requires AfterPicks(log0, tasks0, picks, k, log, tasks) && k < |picks|
    requires picks[k] in tasks && tasks[picks[k]].Finished?
    ensures var (log', tasks') := AfterTurn(log, tasks, picks[k]);
            AfterPicks(log0, tasks0, picks, k + 1, log', tasks')
  {
    hide Taken;
    NextPick(log0, tasks0, picks, k, log, tasks);
    OneMoreTaken(log0, tasks0, picks[..k], log, tasks, picks[k]);
    assert picks[..k + 1][..k] == picks[..k];
  }

  lemma AllPicked<T>(log0: seq<Entry<T>>, tasks0: Tasks<T>, picks: seq<nat>,
                     log: seq<Entry<T>>, tasks: Tasks<T>)
    requires AfterPicks(log0, tasks0, picks, |picks|, log, tasks)
    ensures forall i :: i in picks ==> i in tasks0 && tasks0[i].Finished?
    ensures (log, tasks) == AfterTurns(log0, tasks0, picks) && log0 <= log && Taken(log0, tasks0, picks, log)
    ensures forall i :: i in tasks0 && i !in picks && tasks0[i].Finished? ==> i in tasks && tasks[i] == tasks0[i]
  {
    hide Taken;
    assert picks[..|picks|] == picks;
  }

  /** The loop over what the policy picked: one turn each, in which its result is taken, also after an
      error. What it did not pick stays. */
  method Turns<T>(ghost inputs: seq<Input<T>>, log0: seq<Entry<T>>, tasks0: Tasks<T>, picks: seq<nat>)
    returns (log: seq<Entry<T>>, tasks: Tasks<T>)
    requires LoopInv(inputs, log0, tasks0) && Picks(tasks0, picks)
    ensures LoopInv(inputs, log, tasks) && (log, tasks) == AfterTurns(log0, tasks0, picks)
    ensures forall i :: i in tasks0 && i !in picks && tasks0[i].Finished? ==> i in tasks && tasks[i] == tasks0[i]
    ensures forall i :: i in picks ==> i in tasks0 && tasks0[i].Finished?
    ensures Taken(log0, tasks0, picks, log)
    ensures log0 <= log
    ensures Work(inputs, log, tasks, |inputs|) < Work(inputs, log0, tasks0, |inputs|)
  {
    hide LoopInv, AfterTurns, Taken, AfterPicks, Work, CancelAll, Erred;
    log, tasks := log0, tasks0;
    NoPickYet(log0, tasks0, picks);
    for k := 0 to |picks|
      invariant LoopInv(inputs, log, tasks) && AfterPicks(log0, tasks0, picks, k, log, tasks)
      invariant Work(inputs, log, tasks, |inputs|) + k <= Work(inputs, log0, tasks0, |inputs|)
    {
      var i := picks[k];
      NextPick(log0, tasks0, picks, k, log, tasks);
      OnePickMore(log0, tasks0, picks, k, log, tasks);
      TurnKeeps(inputs, log, tasks, i);
      match tasks[i].outcome
      case Item(x) =>
        tasks := if Erred(log) then tasks - {i} else tasks[i := Running(false)];
        log := log + [Yielded(i, x)];
      case Failed =>
        log := log + [Raised(i)];
        tasks := CancelAll(tasks - {i});
      case _ =>
        tasks := tasks - {i};
    }
    AllPicked(log0, tasks0, picks, log, tasks);
  }

  function AllAsked<T>(inputs: seq<Input<T>>): Tasks<T> {
    map i | i in Below(|inputs|) :: Running(false)
  }

  /** The log and the tasks before each wait, and at the end. */
  ghost predicate IsRun<T>(inputs: seq<Input<T>>, wait: (seq<Entry<T>>, Tasks<T>) -> Tasks<T>,
                           pick: (seq<Entry<T>>, Tasks<T>) -> seq<nat>, logs: seq<seq<Entry<T>>>, runs: seq<Tasks<T>>) {
    && |logs| == |runs| >= 1 && logs[0] == [] && runs[0] == AllAsked(inputs)
    && forall k :: 0 <= k < |logs| - 1 ==>
         var later := wait(logs[k], runs[k]);
         (logs[k + 1], runs[k + 1]) == AfterTurns(logs[k], later, pick(logs[k], later))
  }

  /** The item that a task had, after `n` items of its input, is yielded or still to be taken. */
  ghost predicate Owed<T>(log: seq<Entry<T>>, tasks: Tasks<T>, i: nat, n: nat, x: T) {
    || (n < |Only(log, i)| && Only(log, i)[n] == x)
    || (n == |Only(log, i)| && i in tasks && tasks[i] == Finished(Item(x)))
  }

  lemma OwedStays<T>(inputs: seq<Input<T>>, log0: seq<Entry<T>>, tasks0: Tasks<T>, later: Tasks<T>, picks: seq<nat>,
                     log: seq<Entry<T>>, tasks: Tasks<T>, i: nat, n: nat, x: T)
    requires Picks(later, picks) && Taken(log0, later, picks, log)
    requires forall j :: j in tasks0 && tasks0[j].Finished? ==> j in later && later[j] == tasks0[j]
    requires forall j :: j in later && j !in picks && later[j].Finished? ==> j in tasks && tasks[j] == later[j]
    requires Owed(log0, tasks0, i, n, x) || (i in later && later[i] == Finished(Item(x)) && n == |Only(log0, i)|)
    ensures Owed(log, tasks, i, n, x)
  {
  }

  /** What the waits have delivered so far: each item is yielded, or still to be taken. */
  ghost predicate AllOwed<T>(wait: (seq<Entry<T>>, Tasks<T>) -> Tasks<T>, logs: seq<seq<Entry<T>>>, runs: seq<Tasks<T>>,
                             log: seq<Entry<T>>, tasks: Tasks<T>) {
    |logs| == |runs| &&
    forall k, i: nat :: 0 <= k < |logs| - 1 ==>
      var later := wait(logs[k], runs[k]);
      i in later && later[i].Finished? && later[i].outcome.Item? ==>
        Owed(log, tasks, i, |Only(logs[k], i)|, later[i].outcome.x)
  }

  /** Every item that a task had after one of the waits is yielded, at its place. */
  ghost predicate AllYielded<T>(wait: (seq<Entry<T>>, Tasks<T>) -> Tasks<T>, logs: seq<seq<Entry<T>>>,
                                runs: seq<Tasks<T>>, log: seq<Entry<T>>) {
    |logs| == |runs| &&
    forall k, i: nat :: 0 <= k < |logs| - 1 ==>
      var later, n := wait(logs[k], runs[k]), |Only(logs[k], i)|;
      i in later && later[i].Finished? && later[i].outcome.Item? ==>
        n < |Only(log, i)| && Only(log, i)[n] == later[i].outcome.x
  }

  lemma OwedStep<T>(inputs: seq<Input<T>>, wait: (seq<Entry<T>>, Tasks<T>) -> Tasks<T>, logs: seq<seq<Entry<T>>>,
                    runs: seq<Tasks<T>>, picks: seq<nat>, log: seq<Entry<T>>, tasks: Tasks<T>)
    requires |logs| == |runs| >= 1
    requires var log0, tasks0 := logs[|logs| - 1], runs[|runs| - 1];
             var later := wait(log0, tasks0);
             && AllOwed(wait, logs, runs, log0, tasks0)
             && (forall j :: j in tasks0 && tasks0[j].Finished? ==> j in later && later[j] == tasks0[j])
             && Picks(later, picks) && Taken(log0, later, picks, log)
             && forall j :: j in later && j !in picks && later[j].Finished? ==> j in tasks && tasks[j] == later[j]
    ensures AllOwed(wait, logs + [log], runs + [tasks], log, tasks)
  {
    var m := |logs| - 1;
    var log0, tasks0 := logs[m], runs[m];
    var later := wait(log0, tasks0);
    forall k, i: nat | 0 <= k <= m && i in wait(logs[k], runs[k]) && wait(logs[k], runs[k])[i].Finished?
                       && wait(logs[k], runs[k])[i].outcome.Item?
      ensures Owed(log, tasks, i, |Only(logs[k], i)|, wait(logs[k], runs[k])[i].outcome.x)
    {
      OwedStays(inputs, log0, tasks0, later, picks, log, tasks, i, |Only(logs[k], i)|,
                wait(logs[k], runs[k])[i].outcome.x);
    }
  }

  /** What `Merge` promises of its log. */
  ghost predicate IsMerge<T>(inputs: seq<Input<T>>, log: seq<Entry<T>>) {
    && (forall i: nat :: i < |inputs| ==> Only(log, i) <= inputs[i].items)
    && (!Erred(log) ==> forall i: nat :: i < |inputs| ==> Only(log, i) == inputs[i].items && inputs[i].end.Stops?)
    && (forall i: nat :: i < |inputs| && Raised(i) in log ==> Only(log, i) == inputs[i].items && inputs[i].end.Fails?)
    && (forall k :: 0 <= k < |log| ==> log[k].input < |inputs|)
    && (forall a, b, c :: 0 <= a < b < c < |log| && log[a].Raised? ==> log[b].input != log[c].input)
  }

  lemma Begin<T>(inputs: seq<Input<T>>, wait: (seq<Entry<T>>, Tasks<T>) -> Tasks<T>,
                 pick: (seq<Entry<T>>, Tasks<T>) -> seq<nat>)
    ensures LoopInv(inputs, [], AllAsked(inputs))
    ensures IsRun(inputs, wait, pick, [[]], [AllAsked(inputs)])
    ensures AllOwed(wait, [[]], [AllAsked(inputs)], [], AllAsked(inputs))
  {
  }

  lemma RunGoesOn<T>(inputs: seq<Input<T>>, wait: (seq<Entry<T>>, Tasks<T>) -> Tasks<T>,
                     pick: (seq<Entry<T>>, Tasks<T>) -> seq<nat>, logs: seq<seq<Entry<T>>>, runs: seq<Tasks<T>>,
                     log: seq<Entry<T>>, tasks: Tasks<T>)
    requires IsRun(inputs, wait, pick, logs, runs)
    requires var log0, tasks0 := logs[|logs| - 1], runs[|runs| - 1];
             var later := wait(log0, tasks0); (log, tasks) == AfterTurns(log0, later, pick(log0, later))
    ensures IsRun(inputs, wait, pick, logs + [log], runs + [tasks])
  {
  }

  lemma Finish<T>(inputs: seq<Input<T>>, wait: (seq<Entry<T>>, Tasks<T>) -> Tasks<T>, logs: seq<seq<Entry<T>>>,
                  runs: seq<Tasks<T>>, log: seq<Entry<T>>)
    requires LoopInv(inputs, log, map[]) && AllOwed(wait, logs, runs, log, map[])
    ensures IsMerge(inputs, log) && AllYielded(wait, logs, runs, log)
  {
    forall i: nat | i < |inputs|
      ensures InputInv(inputs[i], i, log, map[])
    {
    }
  }

  lemma WaitsOnce<T(!new)>(inputs: seq<Input<T>>, wait: (seq<Entry<T>>, Tasks<T>) -> Tasks<T>,
                     pick: (seq<Entry<T>>, Tasks<T>) -> seq<nat>, log: seq<Entry<T>>, tasks: Tasks<T>)
    requires Waits(inputs, wait) && IsPolicy(pick) && LoopInv(inputs, log, tasks) && tasks != map[]
    ensures var later := wait(log, tasks);
            && LoopInv(inputs, log, later) && Picks(later, pick(log, later))
            && (forall j :: j in tasks && tasks[j].Finished? ==> j in later && later[j] == tasks[j])
            && Work(inputs, log, later, |inputs|) <= Work(inputs, log, tasks, |inputs|)
  {
    WaitKeeps(inputs, log, tasks, wait(log, tasks));
  }

  lemma {:induction false} WorkIsNat<T>(inputs: seq<Input<T>>, log: seq<Entry<T>>, tasks: Tasks<T>, n: nat)
    requires LoopInv(inputs, log, tasks) && n <= |inputs|
    ensures 0 <= Work(inputs, log, tasks, n)
  {
    if n > 0 {
      WorkIsNat(inputs, log, tasks, n - 1);
      assert InputInv(inputs[n - 1], n - 1, log, tasks);
    }
  }

  /** The fan-in, for every way in which the tasks finish and every policy: what it yields of each
      input is a prefix of that input, in order. Without an error it is all of every input, and an
      input that raised had yielded all it had. After an error the loop ends: no input has more
      than one entry any more; but every item that a task already had is yielded. */
  method Merge<T(!new)>(inputs: seq<Input<T>>, wait: (seq<Entry<T>>, Tasks<T>) -> Tasks<T>,
                        pick: (seq<Entry<T>>, Tasks<T>) -> seq<nat>)
    returns (log: seq<Entry<T>>, ghost logs: seq<seq<Entry<T>>>, ghost runs: seq<Tasks<T>>)
    requires Waits(inputs, wait) && IsPolicy(pick)
    ensures IsMerge(inputs, log)
    ensures IsRun(inputs, wait, pick, logs, runs) && logs[|logs| - 1] == log && runs[|runs| - 1] == map[]
    ensures AllYielded(wait, logs, runs, log)
  {
    hide *;
    var tasks: Tasks<T> := AllAsked(inputs);
    log := [];
    logs, runs := [log], [tasks];
    Begin(inputs, wait, pick);
    while tasks != map[]
      invariant LoopInv(inputs, log, tasks)
      invariant IsRun(inputs, wait, pick, logs, runs)
      invariant |logs| == |runs| >= 1 && logs[|logs| - 1] == log && runs[|runs| - 1] == tasks
      invariant AllOwed(wait, logs, runs, log, tasks)
      decreases Work(inputs, log, tasks, |inputs|)
    {
      WorkIsNat(inputs, log, tasks, |inputs|);
      WaitsOnce(inputs, wait, pick, log, tasks);
      tasks := wait(log, tasks);
      ghost var picks := pick(log, tasks);
      log, tasks := Turns(inputs, log, tasks, pick(log, tasks));
      OwedStep(inputs, wait, logs, runs, picks, log, tasks);
      RunGoesOn(inputs, wait, pick, logs, runs, log, tasks);
      logs, runs := logs + [log], runs + [tasks];
    }
    Finish(inputs, wait, logs, runs, log);
  }

  /** What the credits pick is a pick. */
  lemma CreditsPick<T>(s: State, ready: seq<nat>, tasks: Tasks<T>)
    requires CreditScheduling.Valid(s) && IsReady(s, ready)
    requires forall i :: i in ready ==> i in tasks && tasks[i].Finished?
    ensures Picks(tasks, Picked(s, LeastCost(s, ready), ready))
  {
    var cost := LeastCost(s, ready);
    PicksTheCheapest(s, ready, ready[0]);
    PickedInOrder(s, cost, ready);
    var picks := Picked(s, cost, ready);
    forall k | 0 <= k < |picks|
      ensures picks[k] in ready
    {
      PickedAre(s, cost, ready, picks[k]);
    }
  }

  lemma {:induction false} PickedInOrder(s: State, cost: int, ready: seq<nat>)
    requires |s.credits| == |s.priorities|
    requires forall k :: 0 <= k < |ready| ==> ready[k] < |s.credits|
    requires forall j, k :: 0 <= j < k < |ready| ==> ready[j] != ready[k]
    ensures var p := Picked(s, cost, ready); forall j, k :: 0 <= j < k < |p| ==> p[j] != p[k]
  {
    if ready != [] {
      var n := |ready| - 1;
      PickedInOrder(s, cost, ready[..n]);
      var q := Picked(s, cost, ready[..n]);
      forall j | 0 <= j < |q|
        ensures q[j] != ready[n]
      {
        PickedAre(s, cost, ready[..n], q[j]);
      }
    }
  }
}
