/** Why `acquire_many` cannot deadlock, and the requests with which it can. */
module Deadlock {
  import opened Options
  import opened Resources
  import opened Acquiring
  import opened Sets

  // ----- What the tasks hold -----

  /** The entered contexts of a task belong to it, and are of the types it has asked for. */
  predicate HoldsPrefix(w: World, k: nat, task: Task) {
    && |task.held| <= |task.types| && Sorted(task.types)
    && (task.phase.Waiting? ==> |task.held| < |task.types|)
    && (forall i, j :: 0 <= i < j < |task.held| ==> task.held[i] < task.held[j])
    && (forall i :: 0 <= i < |task.held| ==>
          && task.held[i] in w.holders && w.holders[task.held[i]].owner == Some(k)
          && w.holders[task.held[i]].typ == task.types[i])
  }

  predicate Owned(w: World, c: nat, k: nat) {
    k in w.tasks && c in w.tasks[k].held
  }

  ghost predicate TasksInv(w: World) {
    && (forall c :: c in w.holders ==> c < w.nextContext)
    && (forall k :: k in w.tasks ==> HoldsPrefix(w, k, w.tasks[k]))
    && (forall c :: c in w.holders && w.holders[c].owner.Some? ==> Owned(w, c, w.holders[c].owner.value))
  }

  lemma NotifyKeepsTasks(w: World, w': World, wake: Option<nat>, t: Type)
    requires TasksInv(w) && w'.holders == w.holders && w'.nextContext == w.nextContext
    requires w'.tasks == Notified(w.tasks, wake) && (wake.Some? ==> Sleeps(w, wake.value, t))
    ensures TasksInv(w')
  {
  }

  function Disowned(w: World, k: nat): World
    requires k in w.tasks && w.tasks[k].held != [] && w.tasks[k].held[|w.tasks[k].held| - 1] in w.holders
  {
    var c := w.tasks[k].held[|w.tasks[k].held| - 1];
    Popped(w, k).(holders := w.holders[c := w.holders[c].(owner := None)])
  }

  /** A task lets its last context go. */
  lemma DisownKeepsHeld(w: World, k: nat, l: nat)
    requires TasksInv(w) && Holds(w, k) && l in w.tasks
    ensures HoldsPrefix(Disowned(w, k), l, Disowned(w, k).tasks[l])
  {
    var w', task := Disowned(w, k), w.tasks[k];
    var c := task.held[|task.held| - 1];
    assert HoldsPrefix(w, k, task) && HoldsPrefix(w, l, w.tasks[l]);
    hide TasksInv;
    forall i | 0 <= i < |w'.tasks[l].held|
      ensures w'.tasks[l].held[i] != c
    {
      assert w.tasks[l].held[i] == w'.tasks[l].held[i];
    }
  }

  lemma DisownKeepsTasks(w: World, k: nat)
    requires TasksInv(w) && Holds(w, k)
    ensures TasksInv(Disowned(w, k))
  {
    hide HoldsPrefix;
    var w', task := Disowned(w, k), w.tasks[k];
    forall l | l in w'.tasks
      ensures HoldsPrefix(w', l, w'.tasks[l])
    {
      DisownKeepsHeld(w, k, l);
    }
    forall d | d in w'.holders && w'.holders[d].owner.Some?
      ensures Owned(w', d, w'.holders[d].owner.value)
    {
      assert Owned(w, d, w.holders[d].owner.value);
      if w.holders[d].owner.value == k {
        var i :| 0 <= i < |task.held| && task.held[i] == d;
        assert w'.tasks[k].held[i] == d;
      }
    }
  }

  lemma GiveBackKeepsTasks(w: World, c: nat, wake: Option<nat>)
    requires TasksInv(w) && c in w.holders && w.holders[c].owner == None && CanGiveBack(w, c, wake)
    ensures TasksInv(GivenBack(w, c, wake))
  {
  }

  lemma TakeKeepsHeld(w: World, k: nat, r: Resource, l: nat)
    requires TasksInv(w) && Enabled(w, Take(k, r)) && l in w.tasks
    ensures HoldsPrefix(Next(w, Take(k, r)), l, Next(w, Take(k, r)).tasks[l])
  {
    var w' := Next(w, Take(k, r));
    assert HoldsPrefix(w, l, w.tasks[l]);
    assert forall c :: c in w.holders ==> c < w.nextContext;
    hide TasksInv;
    forall i | 0 <= i < |w.tasks[l].held|
      ensures w.tasks[l].held[i] in w'.holders && w'.holders[w.tasks[l].held[i]] == w.holders[w.tasks[l].held[i]]
    {
    }
  }

  lemma TakeKeepsTasks(w: World, k: nat, r: Resource)
    requires TasksInv(w) && Enabled(w, Take(k, r))
    ensures TasksInv(Next(w, Take(k, r)))
  {
    hide HoldsPrefix;
    var w', task, c := Next(w, Take(k, r)), w.tasks[k], w.nextContext;
    forall l | l in w'.tasks
      ensures HoldsPrefix(w', l, w'.tasks[l])
    {
      TakeKeepsHeld(w, k, r, l);
    }
    forall d | d in w'.holders && w'.holders[d].owner.Some?
      ensures Owned(w', d, w'.holders[d].owner.value)
    {
      var held' := w'.tasks[k].held;
      if d == c {
        assert held'[|held'| - 1] == c;
      } else {
        assert Owned(w, d, w.holders[d].owner.value);
        assert forall x :: x in task.held ==> x in held';
      }
    }
  }

  lemma PhaseKeepsTasks(w: World, w': World, k: nat)
    requires TasksInv(w) && w'.holders == w.holders && w'.nextContext == w.nextContext
    requires k in w.tasks && |w.tasks[k].held| < |w.tasks[k].types|
    requires k in w'.tasks && w'.tasks == w.tasks[k := w.tasks[k].(phase := w'.tasks[k].phase)]
    ensures TasksInv(w')
  {
  }

  lemma StartEndKeepTasks(w: World, e: Event)
    requires TasksInv(w) && Enabled(w, e) && (e.Start? || e.End? || e.Remove?)
    ensures TasksInv(Next(w, e))
  {
  }

  lemma TasksStep(w: World, e: Event)
    requires TasksInv(w) && Enabled(w, e)
    ensures TasksInv(Next(w, e))
  {
    match e
    case Add(t, r, wake) => NotifyKeepsTasks(w, Next(w, e), wake, t);
    case Take(k, r) => TakeKeepsTasks(w, k, r);
    case Block(k) => PhaseKeepsTasks(w, Next(w, e), k);
    case Release(k, wake) =>
      DisownKeepsTasks(w, k);
      var c, v := w.tasks[k].held[|w.tasks[k].held| - 1], Disowned(w, k);
      assert v.pools == w.pools && v.tasks == Popped(w, k).tasks;
      assert forall l, t :: Sleeps(v, l, t) <==> Sleeps(Popped(w, k), l, t);
      assert v.holders - {c} == w.holders - {c};
      GiveBackKeepsTasks(v, c, wake);
    case Delay(k) => DisownKeepsTasks(w, k);
    case DelayOver(c, wake) => GiveBackKeepsTasks(w, c, wake);
    case _ => StartEndKeepTasks(w, e);
  }

  // ----- No wake-up is lost -----

  /** Tasks that were notified, and did not run since. */
  function Awake(w: World, t: Type): set<nat> {
    set k | k in w.tasks && Wants(w.tasks[k], t) && w.tasks[k].phase == Waiting(true)
  }

  ghost predicate SomeSleep(w: World, t: Type) {
    exists k :: Sleeps(w, k, t)
  }

  /** While a task sleeps, each available resource of its type has a notified task. */
  ghost predicate Wakeups(w: World, t: Type) {
    SomeSleep(w, t) ==> |PoolAt(w, t).availables| <= |Awake(w, t)|
  }

  /** A notification pays for one more available resource. */
  lemma NotifyKeepsWakeups(w: World, w': World, t: Type, wake: Option<nat>, s: Type)
    requires Wakeups(w, s) && Notifies(w, t, wake) && w'.tasks == Notified(w.tasks, wake)
    requires s != t ==> PoolAt(w', s) == PoolAt(w, s)
    requires |PoolAt(w', t).availables| <= |PoolAt(w, t).availables| + 1
    ensures Wakeups(w', s)
  {
    if k :| Sleeps(w', k, s) {
      assert Sleeps(w, k, s);
      NotifiedAreAwake(w, w', t, wake, s);
    }
  }

  lemma NotifiedAreAwake(w: World, w': World, t: Type, wake: Option<nat>, s: Type)
    requires Notifies(w, t, wake) && w'.tasks == Notified(w.tasks, wake)
    ensures wake.Some? ==> wake.value !in Awake(w, t)
    ensures Awake(w', s) == if wake.Some? && s == t then Awake(w, s) + {wake.value} else Awake(w, s)
  {
  }

  /** One task gets another state, in which it does not sleep. */
  lemma RunKeepsWakeups(w: World, w': World, k: nat, s: Type)
    requires Wakeups(w, s) && w'.tasks - {k} == w.tasks - {k}
    requires k in w.tasks ==> MayRun(w.tasks[k])
    requires k in w'.tasks ==> w'.tasks[k].phase == Active
    requires var n := if k in Awake(w, s) then 1 else 0;
             |PoolAt(w', s).availables| <= |PoolAt(w, s).availables| - n
    ensures Wakeups(w', s)
  {
    assert forall l :: l != k ==> (l in w'.tasks <==> l in (w.tasks - {k})) && (l in w.tasks <==> l in (w.tasks - {k}));
    assert forall l :: l in w.tasks && l != k ==>
             w'.tasks[l] == (w'.tasks - {k})[l] == (w.tasks - {k})[l] == w.tasks[l];
    if l :| Sleeps(w', l, s) {
      assert Sleeps(w, l, s);
      assert Awake(w', s) == Awake(w, s) - {k};
    }
  }

  lemma SameTasksKeepWakeups(w: World, w': World, s: Type)
    requires Wakeups(w, s) && w'.tasks == w.tasks
    requires |PoolAt(w', s).availables| <= |PoolAt(w, s).availables|
    ensures Wakeups(w', s)
  {
    if k :| Sleeps(w', k, s) {
      assert Sleeps(w, k, s);
      assert Awake(w', s) == Awake(w, s);
    }
  }

  lemma BlockKeepsWakeups(w: World, k: nat, s: Type)
    requires Wakeups(w, s) && Enabled(w, Block(k))
    ensures Wakeups(Next(w, Block(k)), s)
  {
    var w' := Next(w, Block(k));
    if !Wants(w.tasks[k], s) {
      if l :| Sleeps(w', l, s) {
        assert Sleeps(w, l, s);
        assert Awake(w', s) == Awake(w, s);
      }
    }
  }

  lemma GiveBackKeepsWakeups(w: World, c: nat, wake: Option<nat>, s: Type)
    requires c in w.holders && CanGiveBack(w, c, wake) && Wakeups(w, s)
    ensures Wakeups(GivenBack(w, c, wake), s)
  {
    var h, w' := w.holders[c], GivenBack(w, c, wake);
    if h.resource in PoolAt(w, h.typ).used {
      NotifyKeepsWakeups(w, w', h.typ, wake, s);
    } else {
      SameTasksKeepWakeups(w, w', s);
    }
  }

  /** What a task does by itself. */
  lemma OwnStepWakeups(w: World, e: Event, s: Type)
    requires Enabled(w, e) && Wakeups(w, s) && (e.Start? || e.Take? || e.Delay? || e.End?)
    ensures Wakeups(Next(w, e), s)
  {
    hide Wakeups;
    assert Next(w, e).tasks - {e.k} == w.tasks - {e.k};
    RunKeepsWakeups(w, Next(w, e), e.k, s);
  }

  lemma ReleaseWakeups(w: World, k: nat, wake: Option<nat>, s: Type)
    requires Enabled(w, Release(k, wake)) && Wakeups(w, s)
    ensures Wakeups(Next(w, Release(k, wake)), s)
  {
    hide Wakeups;
    assert Popped(w, k).tasks - {k} == w.tasks - {k};
    RunKeepsWakeups(w, Popped(w, k), k, s);
    GiveBackKeepsWakeups(Popped(w, k), w.tasks[k].held[|w.tasks[k].held| - 1], wake, s);
  }

  lemma WakeupsStep(w: World, e: Event, s: Type)
    requires Enabled(w, e) && Wakeups(w, s)
    ensures Wakeups(Next(w, e), s)
  {
    hide Wakeups;
    var w' := Next(w, e);
    match e
    case Add(t, r, wake) => NotifyKeepsWakeups(w, w', t, wake, s);
    case Remove(t, name) =>
      Fewer(PoolAt(w', s).availables, PoolAt(w, s).availables);
      SameTasksKeepWakeups(w, w', s);
    case Block(k) => BlockKeepsWakeups(w, k, s);
    case Release(k, wake) => ReleaseWakeups(w, k, wake, s);
    case DelayOver(c, wake) => GiveBackKeepsWakeups(w, c, wake, s);
    case _ => OwnStepWakeups(w, e, s);
  }

  lemma {:induction false} NoWakeupIsLost(es: seq<Event>, t: Type)
    requires After(es).Some?
    ensures TasksInv(After(es).value) && Wakeups(After(es).value, t)
  {
    if es != [] {
      var w := After(es[..|es| - 1]).value;
      NoWakeupIsLost(es[..|es| - 1], t);
      hide TasksInv, Wakeups, Enabled, Next;
      TasksStep(w, es[|es| - 1]);
      WakeupsStep(w, es[|es| - 1], t);
    }
  }

  // ----- No deadlock -----

  predicate Ascending(types: seq<Type>) {
    forall i, j :: 0 <= i < j < |types| ==> types[i] < types[j]
  }

  /** A circular wait: the tasks of the set wait, each for a type that has registered units, none
      of which is available, and all that are used are held by tasks of the set. */
  ghost predicate Stuck(w: World, s: set<nat>) {
    && s != {} && s <= w.tasks.Keys
    && (forall k :: k in s ==> w.tasks[k].phase.Waiting?)
    && (forall k, t :: k in s && Wants(w.tasks[k], t) ==> PoolAt(w, t).resources != map[] && HeldWithin(w, t, s))
  }

  ghost predicate HeldWithin(w: World, t: Type, s: set<nat>) {
    && PoolAt(w, t).availables == {}
    && (forall c :: c in w.holders && w.holders[c].typ == t && w.holders[c].resource in PoolAt(w, t).used ==>
          w.holders[c].owner.Some? && w.holders[c].owner.value in s)
  }

  /** Those of the set that wait for a later type. */
  function Later(w: World, s: set<nat>, t: Type): set<nat> {
    set k | k in s && k in w.tasks && |w.tasks[k].held| < |w.tasks[k].types| && w.tasks[k].types[|w.tasks[k].held|] > t
  }

  ghost predicate AllAscending(w: World, s: set<nat>) {
    forall k :: k in s && k in w.tasks ==> Ascending(w.tasks[k].types)
  }

  /** In a circular wait, who waits for `t` waits for one that waits for a later type. */
  lemma WaitsForLater(es: seq<Event>, s: set<nat>, k: nat, t: Type) returns (l: nat, u: Type)
    requires After(es).Some? && Stuck(After(es).value, s) && AllAscending(After(es).value, s)
    requires k in s && Wants(After(es).value.tasks[k], t)
    ensures l in s && Wants(After(es).value.tasks[l], u) && t < u
  {
    var w := After(es).value;
    NoWakeupIsLost(es, t);
    RunConserves(es);
    assert HeldWithin(w, t, s) && Conserved(w, t);
    var p := PoolAt(w, t);
    var name :| name in p.resources;
    var r := p.resources[name];
    assert r in p.used;
    var c :| c in w.holders && w.holders[c].typ == t && w.holders[c].resource == r;
    l := w.holders[c].owner.value;
    assert Owned(w, c, l);
    var task := w.tasks[l];
    assert HoldsPrefix(w, l, task);
    u := task.types[|task.held|];
  }

  lemma WaitsEnd(es: seq<Event>, s: set<nat>, k: nat, t: Type)
    requires After(es).Some? && AllAscending(After(es).value, s)
    requires k in s && k in After(es).value.tasks && Wants(After(es).value.tasks[k], t)
    ensures !Stuck(After(es).value, s)
    decreases Later(After(es).value, s, t)
  {
    var w := After(es).value;
    if Stuck(w, s) {
      var l, u := WaitsForLater(es, s, k, t);
      assert l in Later(w, s, t) && l !in Later(w, s, u) && Later(w, s, u) <= Later(w, s, t);
      WaitsEnd(es, s, l, u);
    }
  }

  /** No circular wait: whatever the other tasks do, no set of tasks that ask for no type twice is
      ever stuck. */
  lemma NoSetIsStuck(es: seq<Event>, s: set<nat>)
    requires After(es).Some? && AllAscending(After(es).value, s)
    ensures !Stuck(After(es).value, s)
  {
    var w := After(es).value;
    if Stuck(w, s) {
      var k :| k in s;
      NoWakeupIsLost(es, 0);
      assert HoldsPrefix(w, k, w.tasks[k]);
      var t := w.tasks[k].types[|w.tasks[k].held|];
      WaitsEnd(es, s, k, t);
    }
  }

  /** A standstill: there are tasks, every one sleeps, no release is pending, and yet each type
      that a task waits for has a registered unit. */
  ghost predicate Deadlocked(w: World) {
    && w.tasks != map[]
    && (forall k :: k in w.tasks ==> !MayRun(w.tasks[k]))
    && (forall c :: c in w.holders ==> w.holders[c].owner.Some?)
    && (forall k, t :: k in w.tasks && Wants(w.tasks[k], t) ==> PoolAt(w, t).resources != map[])
  }

  /** A standstill is a circular wait of all tasks, as no wake-up is lost. */
  lemma StandstillIsStuck(es: seq<Event>)
    requires After(es).Some? && Deadlocked(After(es).value)
    ensures Stuck(After(es).value, After(es).value.tasks.Keys)
  {
    var w := After(es).value;
    NoWakeupIsLost(es, 0);
    forall k, t | k in w.tasks && Wants(w.tasks[k], t)
      ensures HeldWithin(w, t, w.tasks.Keys)
    {
      NoWakeupIsLost(es, t);
      assert Sleeps(w, k, t) && Awake(w, t) == {};
      forall c | c in w.holders
        ensures w.holders[c].owner.value in w.tasks
      {
        assert Owned(w, c, w.holders[c].owner.value);
      }
    }
  }

  /** Deadlock freedom: tasks that ask for no type twice never come to a standstill. */
  lemma NoDeadlock(es: seq<Event>)
    requires After(es).Some? && AllAscending(After(es).value, After(es).value.tasks.Keys)
    ensures !Deadlocked(After(es).value)
  {
    var w := After(es).value;
    if Deadlocked(w) {
      StandstillIsStuck(es);
      NoSetIsStuck(es, w.tasks.Keys);
    }
  }

  lemma SomeWake(w: World, t: Type) returns (wake: Option<nat>)
    ensures Notifies(w, t, wake)
  {
    wake := None;
    if k :| Sleeps(w, k, t) {
      wake := Some(k);
    }
  }

  /** A task that holds something may let its last resource go, now or later. */
  lemma LetsGo(w: World, k: nat) returns (wake: Option<nat>)
    requires TasksInv(w) && k in w.tasks && w.tasks[k].phase == Active && w.tasks[k].held != []
    ensures Enabled(w, Release(k, wake)) && Enabled(w, Delay(k))
  {
    assert HoldsPrefix(w, k, w.tasks[k]);
    var c := w.tasks[k].held[|w.tasks[k].held| - 1];
    wake := SomeWake(Popped(w, k), w.holders[c].typ);
  }

  lemma DelayEnds(w: World, c: nat) returns (wake: Option<nat>)
    requires c in w.holders && w.holders[c].owner == None
    ensures Enabled(w, DelayOver(c, wake))
  {
    wake := SomeWake(w, w.holders[c].typ);
  }

  /** A task that ends is gone, and has nothing. */
  lemma EndLeavesNothing(w: World, k: nat)
    requires TasksInv(w) && Enabled(w, End(k))
    ensures var w' := Next(w, End(k));
            && w'.tasks.Keys == w.tasks.Keys - {k}
            && forall c :: c in w'.holders ==> w'.holders[c].owner != Some(k)
  {
  }

  /** A task that may run takes any resource there is of the type it asks for, or waits when there is none;
      when it has all, it lets them go, and ends. */
  lemma TaskMoves(w: World, k: nat) returns (e: Event)
    requires TasksInv(w) && k in w.tasks && MayRun(w.tasks[k])
    ensures Enabled(w, e) && (e.Take? || e.Block? || e.Release? || e.End?) && e.k == k
    ensures forall t, r :: Wants(w.tasks[k], t) && r in PoolAt(w, t).availables ==> Enabled(w, Take(k, r))
  {
    var task := w.tasks[k];
    assert HoldsPrefix(w, k, task);
    if |task.held| < |task.types| {
      var t := task.types[|task.held|];
      if r :| r in PoolAt(w, t).availables {
        e := Take(k, r);
      } else {
        e := Block(k);
      }
    } else if task.held == [] {
      e := End(k);
    } else {
      var wake := LetsGo(w, k);
      e := Release(k, wake);
    }
  }

  /** Deadlock freedom as progress: as long as there are tasks, and every type that one asks for has a
      registered resource, something happens without a new task or a new resource. */
  lemma SomethingHappens(es: seq<Event>) returns (e: Event)
    requires After(es).Some? && AllAscending(After(es).value, After(es).value.tasks.Keys)
    requires var w := After(es).value;
             && w.tasks != map[]
             && forall k, t :: k in w.tasks && Wants(w.tasks[k], t) ==> PoolAt(w, t).resources != map[]
    ensures Enabled(After(es).value, e) && !e.Start? && !e.Add? && !e.Remove?
  {
    var w := After(es).value;
    NoDeadlock(es);
    NoWakeupIsLost(es, 0);
    if k :| k in w.tasks && MayRun(w.tasks[k]) {
      e := TaskMoves(w, k);
    } else {
      var c :| c in w.holders && w.holders[c].owner == None;
      var wake := DelayEnds(w, c);
      e := DelayOver(c, wake);
    }
  }

  // ----- The requests that can deadlock -----

  const UNIT := Resource(0, "unit")
  const ONE := Pool({UNIT}, {}, map["unit" := UNIT])
  const NONE_LEFT := Pool({}, {UNIT}, map["unit" := UNIT])

  /** Every task asks for the same. */
  ghost predicate AllAsk(es: seq<Event>, types: seq<Type>) {
    forall e :: e in es && e.Start? ==> e.types == types
  }

  lemma TypesStay(w: World, e: Event, k: nat)
    requires Enabled(w, e) && k in Next(w, e).tasks
    ensures Next(w, e).tasks[k].types == if k in w.tasks then w.tasks[k].types else if e.Start? then e.types else []
    ensures k in w.tasks || e.Start?
  {
  }

  lemma {:induction false} TasksAsk(es: seq<Event>, types: seq<Type>)
    requires After(es).Some? && AllAsk(es, types)
    ensures forall k :: k in After(es).value.tasks ==> After(es).value.tasks[k].types == types
  {
    if es != [] {
      var init, e := es[..|es| - 1], es[|es| - 1];
      assert es == init + [e];
      TasksAsk(init, types);
      hide Enabled, Next;
      forall k | k in After(es).value.tasks
        ensures After(es).value.tasks[k].types == types
      {
        TypesStay(After(init).value, e, k);
      }
    }
  }

  /** One unit of each of the types is registered. */
  function Units(types: seq<Type>): seq<Event> {
    if types == [] then [] else Units(types[..|types| - 1]) + [Add(types[|types| - 1], UNIT, None)]
  }

  /** Then a task starts, and takes one unit after the other. */
  function Takes(types: seq<Type>, n: nat, m: nat): seq<Event>
    requires n <= |types|
  {
    if m == 0 then Units(types[..n]) + [Start(0, types)] else Takes(types, n, m - 1) + [Take(0, UNIT)]
  }

  lemma {:induction false} UnitsRun(types: seq<Type>)
    requires Ascending(types)
    ensures After(Units(types)).Some?
    ensures After(Units(types)).value == World(After(Units(types)).value.pools, map[], map[], 0)
    ensures forall t :: PoolAt(After(Units(types)).value, t) == if t in types then ONE else EMPTY
  {
    if types != [] {
      var init, t := types[..|types| - 1], types[|types| - 1];
      UnitsRun(init);
      assert t !in init && types == init + [t];
      assert ONE == Added(EMPTY, UNIT);
      LastEvent(Units(init), Add(t, UNIT, None));
    }
  }

  /** The task has the first `m` types, of each of which there is one unit. */
  ghost predicate HasTaken(w: World, types: seq<Type>, n: nat, m: nat)
    requires m <= n <= |types|
  {
    && w.tasks == map[0 := Task(types, seq(m, i => i), Active)]
    && w.nextContext == m
    && (forall c :: c in w.holders ==> w.holders[c].owner == Some(0) && c < m)
    && (forall i :: 0 <= i < n ==> PoolAt(w, types[i]) == if i < m then NONE_LEFT else ONE)
  }

  lemma StartsRun(types: seq<Type>, n: nat)
    requires n < |types| && Sorted(types) && Ascending(types[..n])
    ensures After(Takes(types, n, 0)).Some? && HasTaken(After(Takes(types, n, 0)).value, types, n, 0)
  {
    UnitsRun(types[..n]);
    var w := After(Units(types[..n])).value;
    hide Enabled, Next, HasTaken, Units;
    StartState(w, types, n);
    LastEvent(Units(types[..n]), Start(0, types));
  }

  lemma StartState(w: World, types: seq<Type>, n: nat)
    requires n < |types| && Sorted(types) && w == World(w.pools, map[], map[], 0)
    requires forall t :: PoolAt(w, t) == if t in types[..n] then ONE else EMPTY
    ensures Enabled(w, Start(0, types)) && HasTaken(Next(w, Start(0, types)), types, n, 0)
  {
    forall i | 0 <= i < n
      ensures PoolAt(w, types[i]) == ONE
    {
      assert types[..n][i] == types[i];
    }
    assert Next(w, Start(0, types)).tasks == map[0 := Task(types, seq(0, i => i), Active)];
  }

  lemma OneTakeMore(types: seq<Type>, n: nat, m: nat, w: World)
    requires m < n <= |types| && After(Takes(types, n, m)) == Some(w) && Enabled(w, Take(0, UNIT))
    ensures After(Takes(types, n, m + 1)) == Some(Next(w, Take(0, UNIT)))
  {
    hide Enabled, Next, Units;
    assert Takes(types, n, m + 1) == Takes(types, n, m) + [Take(0, UNIT)];
    LastEvent(Takes(types, n, m), Take(0, UNIT));
  }

  lemma {:induction false} TakesRun(types: seq<Type>, n: nat, m: nat)
    requires m <= n < |types| && Sorted(types) && Ascending(types[..n])
    ensures After(Takes(types, n, m)).Some? && HasTaken(After(Takes(types, n, m)).value, types, n, m)
  {
    hide *;
    if m == 0 {
      StartsRun(types, n);
    } else {
      TakesRun(types, n, m - 1);
      var w := After(Takes(types, n, m - 1)).value;
      OneMore(w, types, n, m - 1);
      OneTakeMore(types, n, m - 1, w);
    }
  }

  lemma OneMore(w: World, types: seq<Type>, n: nat, m: nat)
    requires m < n < |types| && Ascending(types[..n]) && HasTaken(w, types, n, m)
    ensures Enabled(w, Take(0, UNIT)) && HasTaken(Next(w, Take(0, UNIT)), types, n, m + 1)
  {
    assert seq(m, i => i) + [m] == seq(m + 1, i => i);
    assert forall i :: 0 <= i < n ==> types[i] == types[..n][i];
    assert Taken(ONE, UNIT) == NONE_LEFT;
    assert PoolAt(w, types[m]) == ONE;
  }

  lemma FirstRepeat(types: seq<Type>) returns (n: nat)
    requires Sorted(types) && !Ascending(types)
    ensures 0 < n < |types| && types[n - 1] == types[n] && Ascending(types[..n])
  {
    assert types[..|types|] == types;
    n := 1;
    while types[n - 1] != types[n]
      invariant 0 < n < |types| && Ascending(types[..n])
      decreases |types| - n
    {
      assert Ascending(types[..n + 1]);
      n := n + 1;
    }
  }

  lemma {:induction false} TakesAsk(types: seq<Type>, n: nat, m: nat)
    requires n <= |types|
    ensures AllAsk(Takes(types, n, m), types)
  {
    if m == 0 {
      UnitsStartNothing(types[..n]);
    } else {
      TakesAsk(types, n, m - 1);
    }
  }

  lemma {:induction false} UnitsStartNothing(types: seq<Type>)
    ensures forall e :: e in Units(types) ==> e.Add?
  {
    if types != [] {
      UnitsStartNothing(types[..|types| - 1]);
    }
  }

  /** A request that names a type twice waits for itself where there is one unit of the type. */
  lemma RepeatDeadlocks(types: seq<Type>) returns (es: seq<Event>)
    requires Sorted(types) && !Ascending(types)
    ensures AllAsk(es, types) && After(es).Some? && Deadlocked(After(es).value)
  {
    var n := FirstRepeat(types);
    TakesRun(types, n, n);
    TakesAsk(types, n, n);
    var w := After(Takes(types, n, n)).value;
    es := Takes(types, n, n) + [Block(0)];
    assert PoolAt(w, types[n - 1]) == NONE_LEFT;
    LastEvent(Takes(types, n, n), Block(0));
    assert "unit" in PoolAt(w, types[n]).resources;
  }

  /** Tasks that all ask for the same types can come to a circular wait, and to a standstill, if
      and only if they ask for some type twice. */
  lemma DeadlocksIff(types: seq<Type>)
    requires Sorted(types)
    ensures (exists es :: AllAsk(es, types) && After(es).Some? && Deadlocked(After(es).value)) <==> !Ascending(types)
    ensures (exists es, s :: AllAsk(es, types) && After(es).Some? && Stuck(After(es).value, s)) <==> !Ascending(types)
  {
    if Ascending(types) {
      forall es | AllAsk(es, types) && After(es).Some?
        ensures !Deadlocked(After(es).value)
        ensures forall s :: !Stuck(After(es).value, s)
      {
        TasksAsk(es, types);
        NoDeadlock(es);
        forall s
          ensures !Stuck(After(es).value, s)
        {
          NoSetIsStuck(es, s);
        }
      }
    } else {
      var es := RepeatDeadlocks(types);
      StandstillIsStuck(es);
    }
  }
}
