/** How a worker follows the responses to its lock calls: worker/work_manager.py, worker/broker.py
    and worker/executors/manager.py. */
module WorkSync {
  import opened Options
  import Lease
  import Leases

  /** What the worker builds from an item of a response: a queue (`detail` is its executor), a
      resource (its type), a provider or an executor. `id` is the identity of the object. */
  datatype Obj = Obj(id: nat, name: string, detail: string)

  type Table = map<string, Obj>

  /** The dictionaries of the `WorkManager`. */
  datatype Tables = Tables(items: Table, resources: Table, providers: Table, executors: Table)

  datatype ItemsSync = ItemsSync(add: set<Obj>, drop: set<Obj>)

  datatype Sync = Sync(queues: ItemsSync, resources: ItemsSync, providers: ItemsSync, executors: ItemsSync)

  /** The names in a response, with their details. */
  datatype Response = Response(items: map<string, string>, resources: map<string, string>,
                               providers: map<string, string>, executors: map<string, string>)

  const NO_TABLES := Tables(map[], map[], map[], map[])

  /** Each object is in the table under its name. */
  predicate OwnNames(t: Table) {
    forall n :: n in t ==> t[n].name == n
  }

  /** What stays: the names that are still wanted. */
  function Kept(t: Table, wanted: map<string, string>): Table {
    map n | n in t && n in wanted :: t[n]
  }

  /** One of the `load_*`: the names that are wanted and new are built, unless that fails, and
      those that are not wanted any more are gone. */
  predicate Exchanged(t: Table, wanted: map<string, string>, fails: set<string>, t': Table) {
    && t'.Keys == (t.Keys * wanted.Keys) + (wanted.Keys - t.Keys - fails)
    && (forall n :: n in t' && n in t ==> t'[n] == t[n])
    && (forall n :: n in t' && n !in t ==> t'[n].name == n && t'[n].detail == wanted[n])
  }

  /** And what it reports. */
  function Moves(t: Table, wanted: map<string, string>, t': Table): ItemsSync {
    ItemsSync(set n | n in t' && n !in t :: t'[n], set n | n in t && n !in wanted :: t[n])
  }

  /** The objects that were made have numbers in this range. */
  predicate MadeIn(s: set<Obj>, from: nat, to: nat) {
    forall x :: x in s ==> from <= x.id < to
  }

  lemma LoadIs(t: Table, wanted: map<string, string>, fails: set<string>, added: Table)
    requires OwnNames(t) && added.Keys == wanted.Keys - t.Keys - fails
    requires forall n :: n in added ==> added[n].name == n && added[n].detail == wanted[n]
    ensures var gone := t.Keys - wanted.Keys;
            var t' := (t + added) - gone;
            && Exchanged(t, wanted, fails, t') && OwnNames(t')
            && Moves(t, wanted, t') == ItemsSync(set n | n in added :: added[n], set n | n in gone :: t[n])
  {
  }

  method Load(t: Table, wanted: map<string, string>, fails: set<string>, made: nat)
    returns (t': Table, s: ItemsSync, made': nat)
    requires OwnNames(t)
    ensures Exchanged(t, wanted, fails, t') && s == Moves(t, wanted, t') && OwnNames(t')
    ensures MadeIn(s.add, made, made') && made <= made'
    ensures forall x, y :: x in s.add && y in s.add && x.id == y.id ==> x == y
  {
    made' := made;
    var added: Table := map[];
    var todo := wanted.Keys - t.Keys;
    while todo != {}
      invariant todo <= wanted.Keys - t.Keys && made <= made'
      invariant added.Keys == wanted.Keys - t.Keys - fails - todo
      invariant forall n :: n in added ==>
                  added[n].name == n && added[n].detail == wanted[n] && made <= added[n].id < made'
      invariant forall m, n :: m in added && n in added && m != n ==> added[m].id != added[n].id
    {
      var n :| n in todo;
      if n !in fails {
        added := added[n := Obj(made', n, wanted[n])];
        made' := made' + 1;
      }
      todo := todo - {n};
    }
    var gone := t.Keys - wanted.Keys;
    LoadIs(t, wanted, fails, added);
    t' := (t + added) - gone;
    s := ItemsSync(set n | n in added :: added[n], set n | n in gone :: t[n]);
  }

  /** The table follows the adds and drops: what is dropped was there, what is added was not, and
      the names are the wanted ones, less those that failed to build. */
  lemma ExchangeTracks(t: Table, wanted: map<string, string>, fails: set<string>, t': Table)
    requires OwnNames(t) && Exchanged(t, wanted, fails, t')
    ensures OwnNames(t')
    ensures var s := Moves(t, wanted, t');
            t'.Values == t.Values + s.add - s.drop && s.drop <= t.Values && s.add !! t.Values
    ensures t'.Keys == wanted.Keys - (fails - t.Keys)
  {
  }

  predicate AllOwnNames(t: Tables) {
    OwnNames(t.items) && OwnNames(t.resources) && OwnNames(t.providers) && OwnNames(t.executors)
  }

  /** `sync`: where building a provider raises, the queues and the resources were loaded already. */
  predicate Synced(t: Tables, r: Response, fails: set<string>, raises: bool, t': Tables) {
    && Exchanged(t.items, r.items, fails, t'.items)
    && Exchanged(t.resources, r.resources, {}, t'.resources)
    && (if raises then t'.providers == t.providers && t'.executors == t.executors
        else
          && Exchanged(t.providers, r.providers, {}, t'.providers)
          && Exchanged(t.executors, r.executors, {}, t'.executors))
  }

  function AllMoves(t: Tables, r: Response, t': Tables): Sync {
    Sync(Moves(t.items, r.items, t'.items), Moves(t.resources, r.resources, t'.resources),
         Moves(t.providers, r.providers, t'.providers), Moves(t.executors, r.executors, t'.executors))
  }

  class WorkManager {
    var items: Table
    var resources: Table
    var providers: Table
    var executors: Table
    var made: nat

    ghost function View(): Tables
      reads this
    {
      Tables(items, resources, providers, executors)
    }

    constructor ()
      ensures View() == NO_TABLES && AllOwnNames(View())
    {
      items, resources, providers, executors, made := map[], map[], map[], map[], 0;
    }

    /** Nothing comes out where the source raises. */
    method GetSync(r: Response, fails: set<string>, raises: bool) returns (s: Option<Sync>)
      requires AllOwnNames(View())
      modifies this
      ensures AllOwnNames(View()) && Synced(old(View()), r, fails, raises, View())
      ensures s == if raises then None else Some(AllMoves(old(View()), r, View()))
    {
      hide Exchanged, Moves, OwnNames, MadeIn;
      var q, x, p, e;
      items, q, made := Load(items, r.items, fails, made);
      resources, x, made := Load(resources, r.resources, {}, made);
      if raises {
        return None;
      }
      providers, p, made := Load(providers, r.providers, {}, made);
      executors, e, made := Load(executors, r.executors, {}, made);
      s := Some(Sync(q, x, p, e));
    }
  }

  // ----- The broker -----

  /** What runs in the worker: the queues that each executor serves, the registered resources, and
      the open providers. */
  datatype Live = Live(executors: map<string, set<Obj>>, resources: set<Obj>, providers: set<Obj>)

  const IDLE := Live(map[], {}, {})

  function Queues(live: Live, e: string): set<Obj> {
    if e in live.executors then live.executors[e] else {}
  }

  predicate SameKey(x: Obj, y: Obj) {
    x.name == y.name && x.detail == y.detail
  }

  predicate DistinctKeys(s: set<Obj>) {
    forall x, y :: x in s && y in s && SameKey(x, y) ==> x == y
  }

  /** The name and the type of a resource are in use. */
  predicate Registered(resources: set<Obj>, x: Obj) {
    exists y :: y in resources && SameKey(y, x)
  }

  function Names(s: set<Obj>): set<string> {
    set x | x in s :: x.name
  }

  predicate DistinctNames(s: set<Obj>) {
    forall x, y :: x in s && y in s && x.name == y.name ==> x == y
  }

  /** No step of `run_sync` raises: no executor is defined twice or missing, every queue that is
      added finds its executor, and no resource is added twice. */
  predicate Applies(live: Live, s: Sync) {
    && DistinctNames(s.executors.add) && DistinctNames(s.executors.drop)
    && DistinctKeys(s.resources.add)
    && (forall x :: x in s.executors.add ==> x.name !in live.executors)
    && (forall q :: q in s.queues.add ==>
          q.detail in live.executors || exists x :: x in s.executors.add && x.name == q.detail)
    && (forall x :: x in s.resources.add ==> !Registered(live.resources, x))
    && (forall x :: x in s.executors.drop ==> x.name in live.executors.Keys + Names(s.executors.add))
  }

  /** The queues of one executor. */
  function For(queues: set<Obj>, e: string): set<Obj> {
    set q | q in queues && q.detail == e
  }

  /** Resources are removed by type and name; a name that is not there is ignored. */
  function Without(resources: set<Obj>, drop: set<Obj>): set<Obj> {
    set x | x in resources && !Registered(drop, x)
  }

  /** And then the worker runs this. A dropped executor takes the queues that it serves with it. */
  function Applied(live: Live, s: Sync): Live {
    var names := live.executors.Keys + Names(s.executors.add) - Names(s.executors.drop);
    Live(map e | e in names :: Queues(live, e) + For(s.queues.add, e) - For(s.queues.drop, e),
         Without(live.resources + s.resources.add, s.resources.drop),
         live.providers + s.providers.add - s.providers.drop)
  }

  /** What should run, as the tables say. */
  function LiveOf(t: Tables): Live {
    Live(map e | e in t.executors :: For(t.items.Values, e),
         t.resources.Values, t.providers.Values)
  }

  /** The executor of every queue in the table is there. */
  predicate Served(t: Tables) {
    forall n :: n in t.items ==> t.items[n].detail in t.executors
  }

  /** The response has the executor of each of its queues. */
  predicate Closed(r: Response) {
    forall n :: n in r.items ==> r.items[n] in r.executors
  }

  /** A queue that stays keeps an executor: the one it was built with is in the response. */
  predicate KeepsExecutors(t: Tables, r: Response) {
    forall n :: n in t.items && n in r.items ==> t.items[n].detail in r.executors
  }

  /** The executors serve all queues after a sync, if and only if those that stay keep theirs. */
  lemma ServedIff(t: Tables, r: Response, fails: set<string>, t': Tables)
    requires Synced(t, r, fails, false, t') && Closed(r)
    ensures Served(t') <==> KeepsExecutors(t, r)
  {
  }

  lemma NewQueuesFind(t: Tables, r: Response, fails: set<string>, t': Tables, q: Obj)
    requires AllOwnNames(t) && Synced(t, r, fails, false, t') && Closed(r) && q in AllMoves(t, r, t').queues.add
    ensures q.detail in t.executors || exists x :: x in AllMoves(t, r, t').executors.add && x.name == q.detail
  {
  }

  /** What is removed by name is what the table drops. */
  lemma ResourcesTrack(t: Table, wanted: map<string, string>, t': Table)
    requires OwnNames(t) && Exchanged(t, wanted, {}, t')
    ensures var s := Moves(t, wanted, t'); Without(t.Values + s.add, s.drop) == t'.Values
  {
    var s := Moves(t, wanted, t');
    ExchangeTracks(t, wanted, {}, t');
    forall x | x in t.Values + s.add
      ensures Registered(s.drop, x) <==> x in s.drop
    {
      assert x in s.drop ==> SameKey(x, x);
      if y :| y in s.drop && SameKey(y, x) {
        assert y.name in t && t[y.name] == y;
        assert x in t.Values ==> x.name in t && t[x.name] == x;
      }
    }
  }

  /** The order in `run_sync` works: every queue that is added finds its executor. */
  lemma SyncApplies(t: Tables, r: Response, fails: set<string>, t': Tables)
    requires AllOwnNames(t) && Synced(t, r, fails, false, t') && Closed(r)
    ensures Applies(LiveOf(t), AllMoves(t, r, t'))
  {
    var s := AllMoves(t, r, t');
    forall q | q in s.queues.add
      ensures q.detail in t.executors || exists x :: x in s.executors.add && x.name == q.detail
    {
      NewQueuesFind(t, r, fails, t', q);
    }
    hide Moves, DistinctNames, DistinctKeys, Exchanged, Registered, Closed, For;
  }

  /** The queues of one executor after a sync. */
  lemma OneExecutorTracks(t: Tables, r: Response, fails: set<string>, t': Tables, e: string)
    requires AllOwnNames(t) && Served(t) && Synced(t, r, fails, false, t') && e in t'.executors
    ensures var s := AllMoves(t, r, t').queues;
            Queues(LiveOf(t), e) + For(s.add, e) - For(s.drop, e) == For(t'.items.Values, e)
  {
  }

  /** A round: the worker goes on to run exactly what the tables say. */
  lemma RoundTracks(t: Tables, r: Response, fails: set<string>, t': Tables)
    requires AllOwnNames(t) && Served(t) && Synced(t, r, fails, false, t') && Closed(r)
    ensures Applies(LiveOf(t), AllMoves(t, r, t'))
    ensures Applied(LiveOf(t), AllMoves(t, r, t')) == LiveOf(t')
  {
    SyncApplies(t, r, fails, t');
    ResourcesTrack(t.resources, r.resources, t'.resources);
    ExchangeTracks(t.providers, r.providers, {}, t'.providers);
    ExecutorsTrack(t, r, fails, t');
    hide Exchanged, Moves, Applies, OwnNames, Served, Closed, Without;
  }

  lemma SameQueues(t: Tables, r: Response, fails: set<string>, t': Tables, e: string)
    requires AllOwnNames(t) && Served(t) && Synced(t, r, fails, false, t') && e in t'.executors
    requires e in Applied(LiveOf(t), AllMoves(t, r, t')).executors && e in LiveOf(t').executors
    ensures Applied(LiveOf(t), AllMoves(t, r, t')).executors[e] == LiveOf(t').executors[e]
  {
    OneExecutorTracks(t, r, fails, t', e);
    hide Moves, Exchanged, Served, OwnNames, Names, Queues, For, Synced;
  }

  lemma ExecutorsTrack(t: Tables, r: Response, fails: set<string>, t': Tables)
    requires AllOwnNames(t) && Served(t) && Synced(t, r, fails, false, t')
    ensures Applied(LiveOf(t), AllMoves(t, r, t')).executors == LiveOf(t').executors
  {
    RunningExecutors(t, r, fails, t');
    hide *;
    var a, b := Applied(LiveOf(t), AllMoves(t, r, t')).executors, LiveOf(t').executors;
    forall e | e in a
      ensures e in b && a[e] == b[e]
    {
      SameQueues(t, r, fails, t', e);
    }
    SameMaps(a, b);
  }

  lemma SameMaps(a: map<string, set<Obj>>, b: map<string, set<Obj>>)
    requires a.Keys == b.Keys && forall e :: e in a ==> a[e] == b[e]
    ensures a == b
  {
  }

  lemma MovedNames(t: Table, wanted: map<string, string>, fails: set<string>, t': Table)
    requires OwnNames(t) && Exchanged(t, wanted, fails, t')
    ensures var s := Moves(t, wanted, t'); t.Keys + Names(s.add) - Names(s.drop) == t'.Keys
  {
    var s := Moves(t, wanted, t');
    forall n
      ensures n in Names(s.add) <==> n in t' && n !in t
      ensures n in Names(s.drop) <==> n in t && n !in wanted
    {
      if n in t' && n !in t {
        assert t'[n] in s.add;
      }
      if n in t && n !in wanted {
        assert t[n] in s.drop;
      }
    }
  }

  lemma RunningExecutors(t: Tables, r: Response, fails: set<string>, t': Tables)
    requires AllOwnNames(t) && Synced(t, r, fails, false, t')
    ensures Applied(LiveOf(t), AllMoves(t, r, t')).executors.Keys == t'.executors.Keys == LiveOf(t').executors.Keys
  {
    hide For, Queues, OwnNames, Exchanged, Names, Moves;
    MovedNames(t.executors, r.executors, {}, t'.executors);
  }

  class ExecutorsManager {
    var executors: map<string, set<Obj>>

    constructor ()
      ensures executors == map[]
    {
      executors := map[];
    }

    /** False where the source raises. */
    method AddQueue(q: Obj) returns (ok: bool)
      modifies this
      ensures ok == (q.detail in old(executors))
      ensures executors == if ok then old(executors)[q.detail := old(executors)[q.detail] + {q}] else old(executors)
    {
      ok := q.detail in executors;
      if ok {
        executors := executors[q.detail := executors[q.detail] + {q}];
      }
    }

    /** Nothing happens where the executor is missing. */
    method RemoveQueue(q: Obj)
      modifies this
      ensures executors ==
              if q.detail in old(executors) then old(executors)[q.detail := old(executors)[q.detail] - {q}]
              else old(executors)
    {
      if q.detail in executors {
        executors := executors[q.detail := executors[q.detail] - {q}];
      }
    }

    method AddExecutor(x: Obj) returns (ok: bool)
      modifies this
      ensures ok == (x.name !in old(executors))
      ensures executors == if ok then old(executors)[x.name := {}] else old(executors)
    {
      ok := x.name !in executors;
      if ok {
        executors := executors[x.name := {}];
      }
    }

    method RemoveExecutor(x: Obj) returns (ok: bool)
      modifies this
      ensures ok == (x.name in old(executors))
      ensures executors == if ok then old(executors) - {x.name} else old(executors)
    {
      ok := x.name in executors;
      if ok {
        executors := executors - {x.name};
      }
    }

    method AddExecutors(add: set<Obj>) returns (ok: bool)
      modifies this
      ensures ok <==> CanAdd(old(executors), add)
      ensures ok ==> executors == WithExecutors(old(executors), Names(add))
    {
      var todo := add;
      NothingDone(executors, add);
      while todo != {}
        invariant todo <= add && CanAdd(old(executors), add - todo)
        invariant executors == WithExecutors(old(executors), Names(add - todo))
      {
        var x :| x in todo;
        OneExecutorMore(old(executors), add - todo, x, add);
        assert add - (todo - {x}) == (add - todo) + {x};
        todo := todo - {x};
        ok := AddExecutor(x);
        if !ok { return; }
      }
      assert add - {} == add;
      ok := true;
    }

    method RemoveExecutors(drop: set<Obj>) returns (ok: bool)
      modifies this
      ensures ok <==> CanRemove(old(executors), drop)
      ensures ok ==> executors == old(executors) - Names(drop)
    {
      var todo := drop;
      NothingDone(executors, drop);
      while todo != {}
        invariant todo <= drop && CanRemove(old(executors), drop - todo)
        invariant executors == old(executors) - Names(drop - todo)
      {
        var x :| x in todo;
        OneExecutorLess(old(executors), drop - todo, x, drop);
        assert drop - (todo - {x}) == (drop - todo) + {x};
        todo := todo - {x};
        ok := RemoveExecutor(x);
        if !ok { return; }
      }
      assert drop - {} == drop;
      ok := true;
    }

    method AddQueues(add: set<Obj>) returns (ok: bool)
      modifies this
      ensures ok <==> forall q :: q in add ==> q.detail in old(executors)
      ensures ok ==> executors == WithQueues(old(executors), add)
    {
      var todo := add;
      assert add - todo == {} && add - {} == add;
      NoQueues(executors);
      while todo != {}
        invariant todo <= add && forall q :: q in add - todo ==> q.detail in old(executors)
        invariant executors == WithQueues(old(executors), add - todo)
      {
        var q :| q in todo;
        if q.detail in old(executors) {
          OneQueueMore(old(executors), add - todo, q);
        }
        assert add - (todo - {q}) == (add - todo) + {q};
        todo := todo - {q};
        ok := AddQueue(q);
        if !ok { return; }
      }
      ok := true;
    }

    method RemoveQueues(drop: set<Obj>)
      modifies this
      ensures executors == WithoutQueues(old(executors), drop)
    {
      var todo := drop;
      assert drop - todo == {} && drop - {} == drop;
      NoQueues(executors);
      while todo != {}
        invariant todo <= drop
        invariant executors == WithoutQueues(old(executors), drop - todo)
      {
        var q :| q in todo;
        OneQueueLess(old(executors), drop - todo, q);
        assert drop - (todo - {q}) == (drop - todo) + {q};
        todo := todo - {q};
        RemoveQueue(q);
      }
    }
  }

  ghost predicate CanAdd(executors: map<string, set<Obj>>, add: set<Obj>) {
    DistinctNames(add) && forall x :: x in add ==> x.name !in executors
  }

  ghost predicate CanRemove(executors: map<string, set<Obj>>, drop: set<Obj>) {
    DistinctNames(drop) && forall x :: x in drop ==> x.name in executors
  }

  function WithExecutors(executors: map<string, set<Obj>>, names: set<string>): map<string, set<Obj>> {
    map e | e in executors.Keys + names :: if e in executors then executors[e] else {}
  }

  function WithQueues(executors: map<string, set<Obj>>, add: set<Obj>): map<string, set<Obj>> {
    map e | e in executors :: executors[e] + For(add, e)
  }

  function WithoutQueues(executors: map<string, set<Obj>>, drop: set<Obj>): map<string, set<Obj>> {
    map e | e in executors :: executors[e] - For(drop, e)
  }

  lemma ForOneMore(queues: set<Obj>, q: Obj, e: string)
    ensures For(queues + {q}, e) == For(queues, e) + if q.detail == e then {q} else {}
  {
  }

  lemma OneQueueMore(executors: map<string, set<Obj>>, queues: set<Obj>, q: Obj)
    requires q.detail in executors
    ensures var was := WithQueues(executors, queues);
            WithQueues(executors, queues + {q}) == was[q.detail := was[q.detail] + {q}]
  {
    hide For;
    var b, a := WithQueues(executors, queues), WithQueues(executors, queues + {q});
    forall e | e in executors
      ensures a[e] == if e == q.detail then b[e] + {q} else b[e]
    {
      ForOneMore(queues, q, e);
    }
  }

  lemma OneQueueLess(executors: map<string, set<Obj>>, queues: set<Obj>, q: Obj)
    ensures var was := WithoutQueues(executors, queues);
            WithoutQueues(executors, queues + {q})
            == if q.detail in was then was[q.detail := was[q.detail] - {q}] else was
  {
    hide For;
    var b, a := WithoutQueues(executors, queues), WithoutQueues(executors, queues + {q});
    forall e | e in executors
      ensures a[e] == if e == q.detail then b[e] - {q} else b[e]
    {
      ForOneMore(queues, q, e);
    }
  }

  lemma NoQueues(executors: map<string, set<Obj>>)
    ensures WithQueues(executors, {}) == executors && WithoutQueues(executors, {}) == executors
  {
    forall e | e in executors
      ensures WithQueues(executors, {})[e] == executors[e] && WithoutQueues(executors, {})[e] == executors[e]
    {
      assert For({}, e) == {};
    }
  }

  lemma NothingDone(executors: map<string, set<Obj>>, all: set<Obj>)
    ensures all - all == {} && Names(all - all) == {} && CanAdd(executors, {}) && CanRemove(executors, {})
    ensures WithExecutors(executors, {}) == executors && executors - {} == executors
  {
  }

  lemma OneNameMore(done: set<Obj>, x: Obj)
    ensures Names(done + {x}) == Names(done) + {x.name}
  {
  }

  /** One more executor of `all` can be added exactly where its name is in no use yet. */
  lemma OneExecutorMore(executors: map<string, set<Obj>>, done: set<Obj>, x: Obj, all: set<Obj>)
    requires CanAdd(executors, done) && x !in done && done + {x} <= all
    ensures var now := WithExecutors(executors, Names(done));
            if x.name in now then !CanAdd(executors, all)
            else
              && CanAdd(executors, done + {x})
              && WithExecutors(executors, Names(done + {x})) == now[x.name := {}]
  {
    OneNameMore(done, x);
    if x.name in Names(done) {
      var y :| y in done && y.name == x.name;
      assert y in all && x in all;
    }
  }

  lemma OneExecutorLess(executors: map<string, set<Obj>>, done: set<Obj>, x: Obj, all: set<Obj>)
    requires CanRemove(executors, done) && x !in done && done + {x} <= all
    ensures var now := executors - Names(done);
            if x.name !in now then !CanRemove(executors, all)
            else CanRemove(executors, done + {x}) && executors - Names(done + {x}) == now - {x.name}
  {
    OneNameMore(done, x);
    if x.name in Names(done) {
      var y :| y in done && y.name == x.name;
      assert y in all && x in all;
    }
  }

  // ----- One turn of the loop of the broker -----

  /** The executors after the adds and drops of queues. */
  function Requeued(live: Live, s: Sync): map<string, set<Obj>> {
    WithoutQueues(WithQueues(WithExecutors(live.executors, Names(s.executors.add)), s.queues.add), s.queues.drop)
  }

  /** The steps raise nowhere exactly where the sync applies, and then leave what it says. */
  lemma ExecutorsInOrder(live: Live, s: Sync)
    ensures Applies(live, s) <==>
              && CanAdd(live.executors, s.executors.add)
              && (forall q :: q in s.queues.add ==> q.detail in WithExecutors(live.executors, Names(s.executors.add)))
              && DistinctKeys(s.resources.add) && (forall x :: x in s.resources.add ==> !Registered(live.resources, x))
              && CanRemove(Requeued(live, s), s.executors.drop)
    ensures Requeued(live, s) - Names(s.executors.drop) == Applied(live, s).executors
  {
  }

  lemma OneResourceMore(resources: set<Obj>, done: set<Obj>, x: Obj, all: set<Obj>)
    requires DistinctKeys(done) && (forall y :: y in done ==> !Registered(resources, y))
    requires x !in done && done + {x} <= all
    ensures if Registered(resources + done, x) then
              !(DistinctKeys(all) && forall y :: y in all ==> !Registered(resources, y))
            else DistinctKeys(done + {x}) && !Registered(resources, x)
  {
    if y :| y in resources + done && SameKey(y, x) {
      assert y in done ==> y in all && x in all;
    }
  }

  class Broker {
    const executorsManager: ExecutorsManager
    var resources: set<Obj>
    var providers: set<Obj>

    ghost function View(): Live
      reads this, executorsManager
    {
      Live(executorsManager.executors, resources, providers)
    }

    constructor ()
      ensures View() == IDLE && fresh(executorsManager)
    {
      executorsManager := new ExecutorsManager();
      resources, providers := {}, {};
    }

    /** `add` of the resources manager, which raises for a name in use; false there. */
    method AddResources(add: set<Obj>) returns (ok: bool)
      modifies this`resources
      ensures ok <==> DistinctKeys(add) && forall x :: x in add ==> !Registered(old(resources), x)
      ensures ok ==> resources == old(resources) + add
    {
      var todo := add;
      while todo != {}
        invariant todo <= add && resources == old(resources) + (add - todo)
        invariant DistinctKeys(add - todo) && forall x :: x in add - todo ==> !Registered(old(resources), x)
      {
        var x :| x in todo;
        OneResourceMore(old(resources), add - todo, x, add);
        assert add - (todo - {x}) == (add - todo) + {x};
        todo := todo - {x};
        if Registered(resources, x) {
          return false;
        }
        resources := resources + {x};
      }
      assert add - {} == add;
      ok := true;
    }

    /** `remove` of the resources manager, by type and name. */
    method RemoveResources(drop: set<Obj>)
      modifies this`resources
      ensures resources == Without(old(resources), drop)
      ensures forall x :: x in resources <==>
                x in old(resources) && forall d :: d in drop ==> d.name != x.name || d.detail != x.detail
    {
      var todo := drop;
      while todo != {}
        invariant todo <= drop
        invariant resources == Without(old(resources), drop - todo)
      {
        var x :| x in todo;
        assert drop - (todo - {x}) == (drop - todo) + {x};
        todo := todo - {x};
        resources := set y | y in resources && !SameKey(y, x);
      }
    }

    /** The adds, the executors first, and then the drops, the executors last; false exactly where one
        raises. */
    method RunSync(s: Sync) returns (ok: bool)
      modifies this, executorsManager
      ensures ok <==> Applies(old(View()), s)
      ensures ok ==> View() == Applied(old(View()), s)
    {
      ghost var before := View();
      ExecutorsInOrder(before, s);
      hide DistinctNames, DistinctKeys, Registered, Names, For, CanAdd, CanRemove;
      hide WithExecutors, WithQueues, WithoutQueues;
      ok := executorsManager.AddExecutors(s.executors.add);
      if !ok { return; }
      ok := executorsManager.AddQueues(s.queues.add);
      if !ok { return; }
      ok := AddResources(s.resources.add);
      if !ok { return; }
      providers := providers + s.providers.add;
      providers := providers - s.providers.drop;
      RemoveResources(s.resources.drop);
      executorsManager.RemoveQueues(s.queues.drop);
      ok := executorsManager.RemoveExecutors(s.executors.drop);
    }
  }

  // ----- Runs -----

  /** A turn of the broker: the response, what goes wrong, and the tables after the sync. */
  datatype Round = Round(r: Response, fails: set<string>, raises: bool, tables: Tables)

  datatype World = World(tables: Tables, live: Live)

  /** The worker after a round; nothing where it is not possible or the broker dies. A sync that
      raises is lost: the broker goes on without it. */
  ghost function NextOf(w: World, e: Round): Option<World> {
    var s := AllMoves(w.tables, e.r, e.tables);
    if !Synced(w.tables, e.r, e.fails, e.raises, e.tables) then None
    else if e.raises then Some(World(e.tables, w.live))
    else if Applies(w.live, s) then Some(World(e.tables, Applied(w.live, s)))
    else None
  }

  ghost function After(rounds: seq<Round>): Option<World> {
    if rounds == [] then Some(World(NO_TABLES, IDLE))
    else
      var v := After(rounds[..|rounds| - 1]);
      if v.None? then None else NextOf(v.value, rounds[|rounds| - 1])
  }

  /** Each round is possible, none raises, the responses are closed, and queues that stay keep
      their executor. */
  ghost predicate Orderly(rounds: seq<Round>) {
    rounds == [] ||
    var init, e := rounds[..|rounds| - 1], rounds[|rounds| - 1];
    && Orderly(init) && Closed(e.r) && !e.raises
    && (After(init).Some? ==>
          var t := After(init).value.tables; Synced(t, e.r, e.fails, false, e.tables) && KeepsExecutors(t, e.r))
  }

  /** The worker runs what the tables say. */
  predicate Tracks(w: World) {
    AllOwnNames(w.tables) && Served(w.tables) && w.live == LiveOf(w.tables)
  }

  /** Over any orderly run the broker lives on, every queue is served by its executor, and what
      runs is what the last response names, less the queues that failed to build. */
  lemma {:induction false} RunTracks(rounds: seq<Round>)
    requires Orderly(rounds)
    ensures After(rounds).Some? && Tracks(After(rounds).value)
    ensures rounds != [] ==>
              var t, e := After(rounds).value.tables, rounds[|rounds| - 1];
              && t == e.tables && t.items.Keys <= e.r.items.Keys && e.r.items.Keys - e.fails <= t.items.Keys
              && t.resources.Keys == e.r.resources.Keys
              && t.providers.Keys == e.r.providers.Keys && t.executors.Keys == e.r.executors.Keys
  {
    if rounds != [] {
      var init, e := rounds[..|rounds| - 1], rounds[|rounds| - 1];
      RunTracks(init);
      var w := After(init).value;
      hide Applies, Applied, Served, OwnNames, Moves, KeepsExecutors, Synced, Closed, Tracks;
      NextTracks(w, e.r, e.fails, e.tables);
    }
  }

  lemma NextTracks(w: World, r: Response, fails: set<string>, t': Tables)
    requires Tracks(w) && Synced(w.tables, r, fails, false, t') && Closed(r) && KeepsExecutors(w.tables, r)
    ensures Applies(w.live, AllMoves(w.tables, r, t'))
    ensures Tracks(World(t', Applied(w.live, AllMoves(w.tables, r, t'))))
    ensures t'.items.Keys <= r.items.Keys && r.items.Keys - fails <= t'.items.Keys
    ensures t'.resources.Keys == r.resources.Keys
    ensures t'.providers.Keys == r.providers.Keys && t'.executors.Keys == r.executors.Keys
  {
    var t := w.tables;
    hide Applies, Applied, LiveOf, Served, OwnNames, Moves, KeepsExecutors;
    RoundTracks(t, r, fails, t');
    ServedIff(t, r, fails, t');
    ExchangeTracks(t.items, r.items, fails, t'.items);
    ExchangeTracks(t.resources, r.resources, {}, t'.resources);
    ExchangeTracks(t.providers, r.providers, {}, t'.providers);
    ExchangeTracks(t.executors, r.executors, {}, t'.executors);
  }

  lemma SameTable(t: Table, t': Table)
    requires OwnNames(t) && OwnNames(t') && t.Values == t'.Values
    ensures t == t'
  {
    forall n | n in t
      ensures n in t' && t'[n] == t[n]
    {
      assert t[n] in t'.Values;
    }
    forall n | n in t'
      ensures n in t
    {
      assert t'[n] in t.Values;
    }
  }

  /** A response that changes neither queues nor resources, but for queues that fail to build. */
  predicate NothingToChange(t: Tables, r: Response, fails: set<string>) {
    && t.items.Keys <= r.items.Keys && r.items.Keys - t.items.Keys <= fails
    && t.resources.Keys == r.resources.Keys
  }

  /** A sync that raises is harmless, if and only if its response changes neither queues nor
      resources. */
  lemma LostSyncIff(w: World, r: Response, fails: set<string>, t': Tables)
    requires Tracks(w) && Synced(w.tables, r, fails, true, t')
    ensures Tracks(World(t', w.live)) <==> NothingToChange(w.tables, r, fails)
  {
    var t := w.tables;
    UnchangedIff(t.items, r.items, fails, t'.items);
    UnchangedIff(t.resources, r.resources, {}, t'.resources);
    if Tracks(World(t', w.live)) {
      SameTable(t.resources, t'.resources);
      forall q
        ensures q in t.items.Values <==> q in t'.items.Values
      {
        assert Served(t) && Served(t') && LiveOf(t) == LiveOf(t');
        if q.detail in t.executors {
          assert For(t.items.Values, q.detail) == LiveOf(t).executors[q.detail] == For(t'.items.Values, q.detail);
          assert q in For(t.items.Values, q.detail) <==> q in For(t'.items.Values, q.detail);
        }
      }
      SameTable(t.items, t'.items);
    }
  }

  lemma UnchangedIff(t: Table, wanted: map<string, string>, fails: set<string>, t': Table)
    requires Exchanged(t, wanted, fails, t')
    ensures t' == t <==> t.Keys <= wanted.Keys && wanted.Keys - t.Keys <= fails
  {
  }

  /** No executor has a queue of the name. */
  ghost predicate Unserved(live: Live, name: string) {
    forall e, q :: e in live.executors && q in live.executors[e] ==> q.name != name
  }

  lemma UnservedStep(live: Live, t: Tables, r: Response, fails: set<string>, t': Tables, name: string)
    requires Synced(t, r, fails, false, t') && name in t.items && Unserved(live, name)
    ensures Unserved(Applied(live, AllMoves(t, r, t')), name)
  {
    assert forall q :: q in AllMoves(t, r, t').queues.add ==> q.name != name;
  }

  lemma LostStart(w: World, e: Round, name: string)
    requires Tracks(w) && NextOf(w, e).Some? && e.raises
    requires name !in w.tables.items && name in e.r.items && name !in e.fails
    ensures name in NextOf(w, e).value.tables.items && Unserved(NextOf(w, e).value.live, name)
  {
    forall x, q | x in w.live.executors && q in w.live.executors[x]
      ensures q.name in w.tables.items
    {
      assert q in w.tables.items.Values;
    }
  }

  lemma LostStep(w: World, e: Round, name: string)
    requires name in w.tables.items && Unserved(w.live, name) && NextOf(w, e).Some? && name in e.r.items
    ensures name in NextOf(w, e).value.tables.items && Unserved(NextOf(w, e).value.live, name)
  {
    hide Applies;
    if !e.raises {
      UnservedStep(w.live, w.tables, e.r, e.fails, e.tables, name);
    }
  }

  /** The queue that a lost sync has built is served by no executor as long as the responses name it:
      every later sync finds it in the table. */
  lemma {:induction false} LostForGood(rounds: seq<Round>, i: nat, name: string)
    requires After(rounds).Some? && i < |rounds| && rounds[i].raises && name !in rounds[i].fails
    requires forall j :: i <= j < |rounds| ==> name in rounds[j].r.items
    requires Orderly(rounds[..i]) && After(rounds[..i]).Some? && name !in After(rounds[..i]).value.tables.items
    ensures name in After(rounds).value.tables.items && Unserved(After(rounds).value.live, name)
  {
    hide Tracks, NextOf, Unserved, Orderly;
    var init, e := rounds[..|rounds| - 1], rounds[|rounds| - 1];
    if i == |init| {
      RunTracks(init);
      LostStart(After(init).value, e, name);
    } else {
      assert init[..i] == rounds[..i];
      LostForGood(init, i, name);
      LostStep(After(init).value, e, name);
    }
  }

  // ----- The runs that show it -----

  /** A queue of an executor, and the executor. */
  function QueueAt(executor: string): Response {
    Response(map["q" := executor], map[], map[], map[executor := ""])
  }

  function TablesAt(executor: string, id: nat): Tables {
    Tables(map["q" := Obj(0, "q", "a")], map[], map[], map[executor := Obj(id, executor, "")])
  }

  lemma FirstRound()
    ensures Orderly([Round(QueueAt("a"), {}, false, TablesAt("a", 1))])
  {
    var rounds := [Round(QueueAt("a"), {}, false, TablesAt("a", 1))];
    assert rounds[..0] == [] && After([]) == Some(World(NO_TABLES, IDLE));
  }

  lemma SecondRound(w: World)
    requires Tracks(w) && w.tables == TablesAt("a", 1)
    ensures NextOf(w, Round(QueueAt("b"), {}, false, TablesAt("b", 2)))
         == Some(World(TablesAt("b", 2), LiveOf(TablesAt("b", 2))))
  {
    var r, t' := QueueAt("b"), TablesAt("b", 2);
    assert Exchanged(w.tables.items, r.items, {}, t'.items);
    assert Exchanged(w.tables.executors, r.executors, {}, t'.executors);
    assert Closed(r) && Synced(w.tables, r, {}, false, t');
    SecondRoundTracks(w, r, t');
  }

  lemma SecondRoundTracks(w: World, r: Response, t': Tables)
    requires Tracks(w) && Closed(r) && Synced(w.tables, r, {}, false, t')
    ensures NextOf(w, Round(r, {}, false, t')) == Some(World(t', LiveOf(t')))
  {
    hide Applies, Applied, Moves, Exchanged, Synced, Closed, LiveOf;
    RoundTracks(w.tables, r, {}, t');
  }

  lemma NothingServes()
    ensures Unserved(LiveOf(TablesAt("b", 2)), "q") && !Served(TablesAt("b", 2))
  {
    assert TablesAt("b", 2).items["q"].detail == "a";
  }

  /** The definition of a queue moves from one executor to another. Both responses are closed, and
      nothing raises; then nothing serves the queue. */
  lemma MovedQueueIsLost()
    ensures var rounds := [Round(QueueAt("a"), {}, false, TablesAt("a", 1)),
                           Round(QueueAt("b"), {}, false, TablesAt("b", 2))];
            && Closed(QueueAt("a")) && Closed(QueueAt("b")) && Orderly(rounds[..1]) && After(rounds).Some?
            && "q" in After(rounds).value.tables.items && !Served(After(rounds).value.tables)
            && Unserved(After(rounds).value.live, "q")
  {
    var one, two := Round(QueueAt("a"), {}, false, TablesAt("a", 1)), Round(QueueAt("b"), {}, false, TablesAt("b", 2));
    hide Tracks, NextOf, Orderly, LiveOf, Served, Unserved;
    assert [one, two][..1] == [one];
    FirstRound();
    RunTracks([one]);
    SecondRound(After([one]).value);
    NothingServes();
  }

  /** A new queue and a provider that cannot be built: the sync is lost, and nothing serves the
      queue. */
  lemma NewQueueIsLost()
    ensures var r := QueueAt("a").(providers := map["p" := ""]);
            var rounds := [Round(r, {}, true, TablesAt("a", 1).(executors := map[]))];
            && Closed(r) && Orderly(rounds[..0]) && After(rounds).Some?
            && "q" in After(rounds).value.tables.items && !Tracks(After(rounds).value)
            && Unserved(After(rounds).value.live, "q")
  {
  }

  // ----- The responses of the manager -----

  /** The names in a response to a lock call. */
  function Told(queues: Lease.Queues, defs: Lease.Definitions, r: Lease.LockResponse): Response
    requires forall n :: n in r.items ==> n in queues && Lease.Joined(queues[n], defs).Some?
  {
    Response(map n | n in r.items :: Lease.Joined(queues[n], defs).value.executor,
             map n | n in r.resources :: r.resources[n].typ,
             map n | n in r.providers :: r.providers[n].typ,
             map n | n in r.executors :: "")
  }

  /** The responses to lock calls are closed. */
  lemma LocksAreClosed(queues: Lease.Queues, defs: Lease.Definitions, c: Lease.Call, max: nat)
    requires Lease.Possible(queues, c) && Leases.WellNamed(defs)
    ensures forall n :: n in Lease.Candidates(queues, c, max) ==> n in queues
    ensures var r := Lease.ResponseTo(queues, defs, c, max);
            && (forall n :: n in r.items ==> n in queues && Lease.Joined(queues[n], defs).Some?)
            && Closed(Told(queues, defs, r))
  {
    Leases.ResponseIsComplete(queues, defs, c, max);
  }
}
