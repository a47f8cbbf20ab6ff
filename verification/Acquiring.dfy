/** Tasks that acquire exclusive resources, one type after the other: worker/resources/manager.py
    as a state machine of its steps between awaits. */
module Acquiring {
  import opened Options
  import opened Resources

  /** Resource types, in the order in which `sorted` puts them. */
  type Type = nat

  /** A live `ResourceContext`: held by a task, or by nobody while its release is delayed. */
  datatype Holder = Holder(typ: Type, resource: Resource, owner: Option<nat>)

  datatype Phase = Active | Waiting(notified: bool)

  /** A task in `acquire_many`: its sorted types, and the contexts it entered. */
  datatype Task = Task(types: seq<Type>, held: seq<nat>, phase: Phase)

  datatype World = World(pools: map<Type, Pool>, holders: map<nat, Holder>, tasks: map<nat, Task>, nextContext: nat)

  datatype Event =
    | Add(t: Type, r: Resource, wake: Option<nat>)
    | Remove(t: Type, name: string)
    | Start(k: nat, types: seq<Type>)
    | Take(k: nat, r: Resource)            // `try_acquire` finds a resource, which may be any
    | Block(k: nat)                        // it finds none, and the task waits
    | Release(k: nat, wake: Option<nat>)   // the last context of the exit stack
    | Delay(k: nat)                        // the same, with a release at a later time
    | DelayOver(c: nat, wake: Option<nat>)
    | End(k: nat)

  const INIT := World(map[], map[], map[], 0)

  function PoolAt(w: World, t: Type): Pool {
    if t in w.pools then w.pools[t] else EMPTY
  }

  predicate Sorted(types: seq<Type>) {
    forall i, j :: 0 <= i < j < |types| ==> types[i] <= types[j]
  }

  /** The type a task asks for next. */
  predicate Wants(task: Task, t: Type) {
    |task.held| < |task.types| && task.types[|task.held|] == t
  }

  predicate Sleeps(w: World, k: nat, t: Type) {
    k in w.tasks && Wants(w.tasks[k], t) && w.tasks[k].phase == Waiting(false)
  }

  /** `condition.notify`: one of the tasks that sleep, when there is one. */
  ghost predicate Notifies(w: World, t: Type, wake: Option<nat>) {
    if wake.Some? then Sleeps(w, wake.value, t) else forall k :: !Sleeps(w, k, t)
  }

  function Notified(tasks: map<nat, Task>, wake: Option<nat>): map<nat, Task> {
    if wake.Some? && wake.value in tasks then
      tasks[wake.value := tasks[wake.value].(phase := Waiting(true))]
    else tasks
  }

  /** A context is over: the pool takes the resource back if it is in use there, and notifies. */
  function GivenBack(w: World, c: nat, wake: Option<nat>): World
    requires c in w.holders
  {
    var h := w.holders[c];
    var p := PoolAt(w, h.typ);
    World(w.pools[h.typ := Released(p, h.resource)], w.holders - {c},
          if h.resource in p.used then Notified(w.tasks, wake) else w.tasks, w.nextContext)
  }

  ghost predicate CanGiveBack(w: World, c: nat, wake: Option<nat>)
    requires c in w.holders
  {
    var h := w.holders[c];
    h.resource in PoolAt(w, h.typ).used ==> Notifies(w, h.typ, wake)
  }

  /** The task may run: it is active, or waits and was notified. */
  predicate MayRun(task: Task) {
    task.phase != Waiting(false)
  }

  predicate Holds(w: World, k: nat) {
    k in w.tasks && w.tasks[k].phase == Active && w.tasks[k].held != []
    && w.tasks[k].held[|w.tasks[k].held| - 1] in w.holders
  }

  ghost predicate Enabled(w: World, e: Event) {
    match e
    case Add(t, r, wake) => r.name !in PoolAt(w, t).resources && Notifies(w, t, wake)
    case Remove(t, name) => name in PoolAt(w, t).resources
    case Start(k, types) => k !in w.tasks && Sorted(types)
    case Take(k, r) =>
      && k in w.tasks && MayRun(w.tasks[k]) && |w.tasks[k].held| < |w.tasks[k].types|
      && r in PoolAt(w, w.tasks[k].types[|w.tasks[k].held|]).availables
    case Block(k) =>
      && k in w.tasks && MayRun(w.tasks[k]) && |w.tasks[k].held| < |w.tasks[k].types|
      && PoolAt(w, w.tasks[k].types[|w.tasks[k].held|]).availables == {}
    case Release(k, wake) => Holds(w, k) && CanGiveBack(Popped(w, k), w.tasks[k].held[|w.tasks[k].held| - 1], wake)
    case Delay(k) => Holds(w, k)
    case DelayOver(c, wake) => c in w.holders && w.holders[c].owner == None && CanGiveBack(w, c, wake)
    case End(k) => k in w.tasks && w.tasks[k].phase == Active && w.tasks[k].held == []
  }

  /** The task without its last context. */
  function Popped(w: World, k: nat): World
    requires k in w.tasks && w.tasks[k].held != []
  {
    var task := w.tasks[k];
    w.(tasks := w.tasks[k := task.(held := task.held[..|task.held| - 1])])
  }

  function Next(w: World, e: Event): World
    requires Enabled(w, e)
  {
    match e
    case Add(t, r, wake) => w.(pools := w.pools[t := Added(PoolAt(w, t), r)], tasks := Notified(w.tasks, wake))
    case Remove(t, name) => w.(pools := w.pools[t := Removed(PoolAt(w, t), name)])
    case Start(k, types) => w.(tasks := w.tasks[k := Task(types, [], Active)])
    case Take(k, r) =>
      var task := w.tasks[k];
      var t := task.types[|task.held|];
      World(w.pools[t := Taken(PoolAt(w, t), r)],
            w.holders[w.nextContext := Holder(t, r, Some(k))],
            w.tasks[k := Task(task.types, task.held + [w.nextContext], Active)],
            w.nextContext + 1)
    case Block(k) => w.(tasks := w.tasks[k := w.tasks[k].(phase := Waiting(false))])
    case Release(k, wake) => GivenBack(Popped(w, k), w.tasks[k].held[|w.tasks[k].held| - 1], wake)
    case Delay(k) =>
      var c := w.tasks[k].held[|w.tasks[k].held| - 1];
      Popped(w, k).(holders := w.holders[c := w.holders[c].(owner := None)])
    case DelayOver(c, wake) => GivenBack(w, c, wake)
    case End(k) => w.(tasks := w.tasks - {k})
  }

  /** The state after the events, when each was possible at its turn. */
  ghost function After(es: seq<Event>): Option<World> {
    if es == [] then Some(INIT)
    else
      var v, e := After(es[..|es| - 1]), es[|es| - 1];
      if v.Some? && Enabled(v.value, e) then Some(Next(v.value, e)) else None
  }

  lemma {:induction false} PrefixRuns(es: seq<Event>, i: nat)
    requires After(es).Some? && i <= |es|
    ensures After(es[..i]).Some?
  {
    if i < |es| {
      PrefixRuns(es[..|es| - 1], i);
      assert es[..|es| - 1][..i] == es[..i];
    } else {
      assert es[..i] == es;
    }
  }

  lemma LastEvent(es: seq<Event>, e: Event)
    requires After(es).Some? && Enabled(After(es).value, e)
    ensures After(es + [e]) == Some(Next(After(es).value, e))
  {
  }

  // ----- Conservation and exclusivity -----

  /** Somebody has the resource. */
  ghost predicate Held(w: World, t: Type, r: Resource) {
    exists c :: c in w.holders && w.holders[c].typ == t && w.holders[c].resource == r
  }

  /** Somebody has the resource of this name. */
  ghost predicate NameHeld(w: World, t: Type, name: string) {
    exists c :: c in w.holders && w.holders[c].typ == t && w.holders[c].resource.name == name
  }

  /** The registered objects are the available ones and the used ones, and a used one is held. */
  ghost predicate Conserved(w: World, t: Type) {
    PoolInv(PoolAt(w, t)) && forall r :: r in PoolAt(w, t).used ==> Held(w, t, r)
  }

  /** No two contexts have the resource of one name, and nobody has that of an available object. */
  ghost predicate Exclusive(w: World) {
    && (forall t, r :: r in PoolAt(w, t).availables ==> !NameHeld(w, t, r.name))
    && (forall c, d :: c in w.holders && d in w.holders && c != d && w.holders[c].typ == w.holders[d].typ ==>
          w.holders[c].resource.name != w.holders[d].resource.name)
  }

  ghost predicate ContextsInv(w: World) {
    && (forall t :: Conserved(w, t))
    && (forall c :: c in w.holders ==> c < w.nextContext)
  }

  /** No name is registered while somebody has the resource of that name. */
  ghost predicate Clean(w: World, e: Event) {
    e.Add? ==> !NameHeld(w, e.t, e.r.name)
  }

  ghost predicate CleanRun(es: seq<Event>) {
    es == [] ||
    var v, e := After(es[..|es| - 1]), es[|es| - 1];
    CleanRun(es[..|es| - 1]) && (v.Some? ==> Clean(v.value, e))
  }

  /** Adding a resource keeps exclusivity, if and only if nobody has one of its name: the old one
      may be removed, and still be held. */
  lemma AddIsExclusiveIff(w: World, t: Type, r: Resource, wake: Option<nat>)
    requires Exclusive(w) && Enabled(w, Add(t, r, wake))
    ensures Exclusive(Next(w, Add(t, r, wake))) <==> !NameHeld(w, t, r.name)
  {
    var w' := Next(w, Add(t, r, wake));
    assert w'.holders == w.holders && r in PoolAt(w', t).availables;
    forall s, n
      ensures NameHeld(w', s, n) <==> NameHeld(w, s, n)
    {
    }
    if !NameHeld(w, t, r.name) {
      forall s, x | x in PoolAt(w', s).availables
        ensures !NameHeld(w', s, x.name)
      {
        assert x in PoolAt(w, s).availables || (s == t && x == r);
      }
    }
  }

  lemma AddKeeps(w: World, t: Type, r: Resource, wake: Option<nat>)
    requires ContextsInv(w) && Enabled(w, Add(t, r, wake))
    ensures ContextsInv(Next(w, Add(t, r, wake)))
  {
    var w' := Next(w, Add(t, r, wake));
    assert forall s, x :: Held(w', s, x) <==> Held(w, s, x);
    forall s
      ensures Conserved(w', s)
    {
      assert Conserved(w, s);
      if s == t {
        AddedInv(PoolAt(w, t), r);
      }
    }
  }

  /** The contexts after a new one. */
  lemma HeldAfterNew(w: World, w': World, c: nat, s: Type, x: Resource)
    requires c !in w.holders && c in w'.holders && w'.holders == w.holders[c := w'.holders[c]]
    ensures Held(w', s, x) <==> Held(w, s, x) || (w'.holders[c].typ == s && w'.holders[c].resource == x)
  {
    if d :| d in w.holders && w.holders[d].typ == s && w.holders[d].resource == x {
      assert d in w'.holders && w'.holders[d] == w.holders[d];
    }
  }

  lemma TakeKeeps(w: World, k: nat, r: Resource)
    requires ContextsInv(w) && Enabled(w, Take(k, r))
    ensures ContextsInv(Next(w, Take(k, r)))
  {
    var w' := Next(w, Take(k, r));
    var t := w.tasks[k].types[|w.tasks[k].held|];
    assert Conserved(w, t);
    forall s, x
      ensures Held(w', s, x) <==> Held(w, s, x) || (t == s && r == x)
    {
      HeldAfterNew(w, w', w.nextContext, s, x);
    }
    forall s
      ensures Conserved(w', s)
    {
      assert Conserved(w, s);
    }
  }

  lemma NameHeldAfterNew(w: World, w': World, c: nat, s: Type, n: string)
    requires c !in w.holders && c in w'.holders && w'.holders == w.holders[c := w'.holders[c]]
    ensures NameHeld(w', s, n) <==> NameHeld(w, s, n) || (w'.holders[c].typ == s && w'.holders[c].resource.name == n)
  {
    if d :| d in w.holders && w.holders[d].typ == s && w.holders[d].resource.name == n {
      assert d in w'.holders && w'.holders[d] == w.holders[d];
    }
  }

  lemma OneOfAName(p: Pool, x: Resource, y: Resource)
    requires PoolInv(p) && x in p.availables && y in p.availables && x.name == y.name
    ensures x == y
  {
    assert x in p.resources.Values && y in p.resources.Values;
  }

  /** Handing out an available resource keeps exclusivity. */
  lemma TakeIsExclusive(w: World, k: nat, r: Resource)
    requires ContextsInv(w) && Exclusive(w) && Enabled(w, Take(k, r))
    ensures Exclusive(Next(w, Take(k, r)))
  {
    var w', c := Next(w, Take(k, r)), w.nextContext;
    var t := w.tasks[k].types[|w.tasks[k].held|];
    assert Conserved(w, t);
    forall s, x | x in PoolAt(w', s).availables
      ensures !NameHeld(w', s, x.name)
    {
      NameHeldAfterNew(w, w', c, s, x.name);
      assert x in PoolAt(w, s).availables && !NameHeld(w, s, x.name);
      if s == t && x.name == r.name {
        OneOfAName(PoolAt(w, t), x, r);
      }
    }
    forall d | d in w.holders && w.holders[d].typ == t
      ensures w.holders[d].resource.name != r.name
    {
      assert !NameHeld(w, t, r.name);
    }
  }

  /** The end of a context keeps exclusivity. */
  lemma GiveBackIsExclusive(w: World, c: nat, wake: Option<nat>)
    requires Exclusive(w) && c in w.holders
    ensures Exclusive(GivenBack(w, c, wake))
  {
    var w', h := GivenBack(w, c, wake), w.holders[c];
    forall s, x | x in PoolAt(w', s).availables
      ensures !NameHeld(w', s, x.name)
    {
      assert x in PoolAt(w, s).availables || (s == h.typ && x == h.resource);
      HeldBefore(w, c, wake, s, x.name);
    }
  }

  lemma HeldBefore(w: World, c: nat, wake: Option<nat>, s: Type, name: string)
    requires Exclusive(w) && c in w.holders
    ensures NameHeld(GivenBack(w, c, wake), s, name) ==>
              NameHeld(w, s, name) && !(w.holders[c].typ == s && w.holders[c].resource.name == name)
  {
    if d :| d in GivenBack(w, c, wake).holders && w.holders[d].typ == s && w.holders[d].resource.name == name {
      assert d in w.holders;
    }
  }

  lemma GiveBackKeeps(w: World, c: nat, wake: Option<nat>)
    requires ContextsInv(w) && c in w.holders
    ensures ContextsInv(GivenBack(w, c, wake))
  {
    var w', h := GivenBack(w, c, wake), w.holders[c];
    forall s, x
      ensures Held(w', s, x) ==> Held(w, s, x)
      ensures Held(w, s, x) && !(s == h.typ && x == h.resource) ==> Held(w', s, x)
    {
      if d :| d in w.holders && w.holders[d].typ == s && w.holders[d].resource == x {
        assert d != c ==> d in w'.holders && w'.holders[d] == w.holders[d];
      }
    }
    forall s
      ensures Conserved(w', s)
    {
      assert Conserved(w, s);
    }
  }

  /** Pools may shrink while the contexts keep what they have. */
  predicate SameHolders(w: World, w': World) {
    && w'.nextContext == w.nextContext && w'.holders.Keys == w.holders.Keys
    && forall c :: c in w.holders ==>
         w'.holders[c].typ == w.holders[c].typ && w'.holders[c].resource == w.holders[c].resource
  }

  lemma SameHoldersKeep(w: World, w': World)
    requires ContextsInv(w) && SameHolders(w, w')
    requires forall t :: PoolAt(w', t) == PoolAt(w, t) || exists n :: PoolAt(w', t) == Removed(PoolAt(w, t), n)
    ensures ContextsInv(w')
  {
    forall t, r
      ensures Held(w', t, r) <==> Held(w, t, r)
    {
      if c :| c in w.holders && w.holders[c].typ == t && w.holders[c].resource == r {
        assert c in w'.holders && w'.holders[c].typ == t && w'.holders[c].resource == r;
      }
    }
    forall t
      ensures Conserved(w', t)
    {
      assert Conserved(w, t);
      if n :| PoolAt(w', t) == Removed(PoolAt(w, t), n) {
        RemovedInv(PoolAt(w, t), n);
      }
    }
  }

  lemma SameHoldersAreExclusive(w: World, w': World)
    requires Exclusive(w) && SameHolders(w, w') && forall t :: PoolAt(w', t).availables <= PoolAt(w, t).availables
    ensures Exclusive(w')
  {
    forall t, name | NameHeld(w', t, name)
      ensures NameHeld(w, t, name)
    {
      var d :| d in w'.holders && w'.holders[d].typ == t && w'.holders[d].resource.name == name;
      assert d in w.holders && w.holders[d].typ == t && w.holders[d].resource.name == name;
    }
  }

  lemma ExclusiveStep(w: World, e: Event)
    requires ContextsInv(w) && Exclusive(w) && Enabled(w, e) && Clean(w, e)
    ensures Exclusive(Next(w, e))
  {
    match e
    case Add(t, r, wake) => AddIsExclusiveIff(w, t, r, wake);
    case Take(k, r) => TakeIsExclusive(w, k, r);
    case Release(k, wake) =>
      SameHoldersAreExclusive(w, Popped(w, k));
      GiveBackIsExclusive(Popped(w, k), w.tasks[k].held[|w.tasks[k].held| - 1], wake);
    case DelayOver(c, wake) => GiveBackIsExclusive(w, c, wake);
    case _ => SameHoldersAreExclusive(w, Next(w, e));
  }

  lemma ContextsStep(w: World, e: Event)
    requires ContextsInv(w) && Enabled(w, e)
    ensures ContextsInv(Next(w, e))
  {
    match e
    case Add(t, r, wake) => AddKeeps(w, t, r, wake);
    case Take(k, r) => TakeKeeps(w, k, r);
    case Release(k, wake) =>
      SameHoldersKeep(w, Popped(w, k));
      GiveBackKeeps(Popped(w, k), w.tasks[k].held[|w.tasks[k].held| - 1], wake);
    case DelayOver(c, wake) => GiveBackKeeps(w, c, wake);
    case Remove(t, name) =>
      assert PoolAt(Next(w, e), t) == Removed(PoolAt(w, t), name);
      SameHoldersKeep(w, Next(w, e));
    case _ => SameHoldersKeep(w, Next(w, e));
  }

  /** Over any run: the available and the used objects are disjoint and together the registered
      ones, and each used one is held; unless a name was registered while somebody had the resource
      of that name, no two contexts have the same one, and nobody has an available one. */
  lemma {:induction false} RunConserves(es: seq<Event>)
    requires After(es).Some?
    ensures ContextsInv(After(es).value)
    ensures CleanRun(es) ==> Exclusive(After(es).value)
  {
    if es != [] {
      var w, e := After(es[..|es| - 1]).value, es[|es| - 1];
      RunConserves(es[..|es| - 1]);
      hide ContextsInv, Exclusive, Clean, Enabled, Next;
      ContextsStep(w, e);
      if CleanRun(es) {
        ExclusiveStep(w, e);
      }
    }
  }

  /** Two contexts have the resource of one name. */
  ghost predicate Shared(w: World, t: Type, name: string) {
    exists c, d :: c in w.holders && d in w.holders && c != d && w.holders[c].typ == t == w.holders[d].typ
                   && w.holders[c].resource.name == name == w.holders[d].resource.name
  }

  /** Whoever comes after an add. */
  lemma NewcomerTakes(w: World, k: nat, t: Type, r: Resource)
    requires k !in w.tasks && r in PoolAt(w, t).availables && NameHeld(w, t, r.name)
    requires forall c :: c in w.holders ==> c < w.nextContext
    ensures Enabled(w, Start(k, [t])) && Enabled(Next(w, Start(k, [t])), Take(k, r))
    ensures Shared(Next(Next(w, Start(k, [t])), Take(k, r)), t, r.name)
  {
    var started := Next(w, Start(k, [t]));
    assert Wants(started.tasks[k], t);
    var w', d := Next(started, Take(k, r)), w.nextContext;
    var c :| c in w.holders && w.holders[c].typ == t && w.holders[c].resource.name == r.name;
    assert c in w'.holders && w'.holders[c] == w.holders[c] && d in w'.holders && w'.holders[d].resource == r;
  }

  /** Wherever somebody has the resource of the name that is added, whatever happened before: the
      next one who asks for the type can have it at the same time. */
  lemma AddedIsShared(es: seq<Event>, t: Type, r: Resource, wake: Option<nat>, k: nat)
    requires After(es).Some? && Enabled(After(es).value, Add(t, r, wake))
    requires NameHeld(After(es).value, t, r.name) && k !in After(es).value.tasks
    ensures var run := es + [Add(t, r, wake)] + [Start(k, [t])] + [Take(k, r)];
            After(run).Some? && Shared(After(run).value, t, r.name)
  {
    var w := After(es).value;
    RunConserves(es);
    LastEvent(es, Add(t, r, wake));
    var added := Next(w, Add(t, r, wake));
    assert added.holders == w.holders && r in PoolAt(added, t).availables && k !in added.tasks;
    NewcomerTakes(added, k, t, r);
    hide *;
    LastEvent(es + [Add(t, r, wake)], Start(k, [t]));
    LastEvent(es + [Add(t, r, wake)] + [Start(k, [t])], Take(k, r));
  }

  /** A resource is removed while it is held, and one of its name is added. */
  function Readded(t: Type, old_: Resource, new_: Resource): seq<Event> {
    [Add(t, old_, None), Start(0, [t]), Take(0, old_), Remove(t, old_.name),
     Add(t, new_, None), Start(1, [t]), Take(1, new_)]
  }

  /** The worlds of that run. */
  function ReaddedWorlds(t: Type, old_: Resource, new_: Resource): seq<World> {
    var name := old_.name;
    var held, one := map[0 := Holder(t, old_, Some(0))], map[0 := Task([t], [0], Active)];
    var had, has := map[name := old_], map[name := new_];
    [INIT,
     World(map[t := Pool({old_}, {}, had)], map[], map[], 0),
     World(map[t := Pool({old_}, {}, had)], map[], map[0 := Task([t], [], Active)], 0),
     World(map[t := Pool({}, {old_}, had)], held, one, 1),
     World(map[t := EMPTY], held, one, 1),
     World(map[t := Pool({new_}, {}, has)], held, one, 1),
     World(map[t := Pool({new_}, {}, has)], held, one[1 := Task([t], [], Active)], 1),
     World(map[t := Pool({}, {new_}, has)], held[1 := Holder(t, new_, Some(1))], one[1 := Task([t], [1], Active)], 2)]
  }

  ghost predicate Steps(ws: seq<World>, es: seq<Event>, k: nat)
    requires k < |es| < |ws|
  {
    Enabled(ws[k], es[k]) && Next(ws[k], es[k]) == ws[k + 1]
  }

  lemma OldIsTaken(t: Type, old_: Resource, new_: Resource)
    requires old_.name == new_.name
    ensures var ws, es := ReaddedWorlds(t, old_, new_), Readded(t, old_, new_);
            Steps(ws, es, 0) && Steps(ws, es, 1) && Steps(ws, es, 2)
  {
    var ws := ReaddedWorlds(t, old_, new_);
    assert Added(EMPTY, old_) == PoolAt(ws[1], t) && Taken(PoolAt(ws[2], t), old_) == PoolAt(ws[3], t);
    assert [] + [0] == [0] && ws[2].tasks[0 := ws[3].tasks[0]] == ws[3].tasks;
  }

  lemma OldIsRemoved(t: Type, old_: Resource, new_: Resource)
    requires old_.name == new_.name
    ensures var ws, es := ReaddedWorlds(t, old_, new_), Readded(t, old_, new_);
            Steps(ws, es, 3) && Steps(ws, es, 4)
  {
    var ws := ReaddedWorlds(t, old_, new_);
    assert Removed(PoolAt(ws[3], t), old_.name) == EMPTY && Added(EMPTY, new_) == PoolAt(ws[5], t);
  }

  lemma NewIsTaken(t: Type, old_: Resource, new_: Resource)
    requires old_.name == new_.name
    ensures var ws, es := ReaddedWorlds(t, old_, new_), Readded(t, old_, new_);
            Steps(ws, es, 5) && Steps(ws, es, 6)
  {
    var ws := ReaddedWorlds(t, old_, new_);
    assert Taken(PoolAt(ws[6], t), new_) == PoolAt(ws[7], t);
    assert [] + [1] == [1] && ws[6].tasks[1 := ws[7].tasks[1]] == ws[7].tasks;
  }

  /** Then two tasks have the resource of that name, although each object was added once. */
  lemma ReaddedIsShared(t: Type, old_: Resource, new_: Resource)
    requires old_.name == new_.name && old_ != new_
    ensures After(Readded(t, old_, new_)).Some?
    ensures var w := After(Readded(t, old_, new_)).value;
            && w.holders == map[0 := Holder(t, old_, Some(0)), 1 := Holder(t, new_, Some(1))]
            && !Exclusive(w)
  {
    hide Steps, Enabled, Next;
    var es, ws := Readded(t, old_, new_), ReaddedWorlds(t, old_, new_);
    OldIsTaken(t, old_, new_);
    OldIsRemoved(t, old_, new_);
    NewIsTaken(t, old_, new_);
    forall k | 0 <= k < |es|
      ensures Steps(ws, es, k)
    {
    }
    RunOf(es, ws);
    var w := ws[7];
    assert w.holders[0].resource.name == w.holders[1].resource.name;
  }

  lemma {:induction false} RunOf(es: seq<Event>, ws: seq<World>)
    requires |ws| == |es| + 1 && ws[0] == INIT
    requires forall k :: 0 <= k < |es| ==> Steps(ws, es, k)
    ensures After(es) == Some(ws[|es|])
  {
    if es != [] {
      var n := |es| - 1;
      var init, worlds := es[..n], ws[..n + 1];
      forall k | 0 <= k < n
        ensures Steps(worlds, init, k)
      {
        assert Steps(ws, es, k);
      }
      RunOf(init, worlds);
      assert Steps(ws, es, n);
    }
  }

  /** A removed object is not handed out until it is added again. */
  lemma {:induction false} RemovedStaysOut(es: seq<Event>, i: nat, t: Type, name: string, r: Resource)
    requires After(es).Some? && i < |es| && es[i] == Remove(t, name)
    requires After(es[..i]).Some? && name in PoolAt(After(es[..i]).value, t).resources
    requires PoolAt(After(es[..i]).value, t).resources[name] == r
    requires forall j {:trigger es[j]} :: i < j < |es| ==> !(es[j].Add? && es[j].t == t && es[j].r == r)
    ensures r !in PoolAt(After(es).value, t).availables && r !in PoolAt(After(es).value, t).resources.Values
  {
    RunConserves(es);
    assert Conserved(After(es).value, t);
    var init := es[..|es| - 1];
    var w, e := After(init).value, es[|es| - 1];
    if i == |init| {
      RunConserves(init);
      assert Conserved(w, t);
      var m' := PoolAt(Next(w, e), t).resources;
      assert forall n :: n in m' ==> m'[n].name == n && n != name;
    } else {
      assert init[..i] == es[..i];
      assert forall j :: 0 <= j < |init| ==> init[j] == es[j];
      RemovedStaysOut(init, i, t, name, r);
    }
  }
}
