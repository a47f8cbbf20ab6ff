/** Exclusive resources, worker/resources/manager.py: the pools and `acquire_many`. */
module Resources {
  import opened Options

  /** `id` stands for the identity of the object. */
  datatype Resource = Resource(id: nat, name: string)

  /** The value of an `ExclusiveResources` object. */
  datatype Pool = Pool(availables: set<Resource>, used: set<Resource>, resources: map<string, Resource>)

  const EMPTY := Pool({}, {}, map[])

  /** A registered object is available or used, and registered under its name. */
  ghost predicate PoolInv(p: Pool) {
    && p.availables !! p.used
    && p.availables + p.used == p.resources.Values
    && (forall n :: n in p.resources ==> p.resources[n].name == n)
  }

  /** `add`, which raises for a name in use. */
  function Added(p: Pool, r: Resource): Pool {
    Pool(p.availables + {r}, p.used, p.resources[r.name := r])
  }

  /** `remove` */
  function Removed(p: Pool, name: string): Pool {
    if name in p.resources then
      Pool(p.availables - {p.resources[name]}, p.used - {p.resources[name]}, p.resources - {name})
    else p
  }

  /** A successful `try_acquire`, which may pop any element. */
  function Taken(p: Pool, r: Resource): Pool {
    p.(availables := p.availables - {r}, used := p.used + {r})
  }

  /** `release`, which ignores a resource that is not in use. */
  function Released(p: Pool, r: Resource): Pool {
    if r in p.used then p.(availables := p.availables + {r}, used := p.used - {r}) else p
  }

  /** What every operation keeps. */
  lemma PoolOperations(p: Pool, r: Resource, name: string)
    requires PoolInv(p)
    ensures r.name !in p.resources ==> PoolInv(Added(p, r))
    ensures PoolInv(Removed(p, name)) && Removed(p, name).resources == p.resources - {name}
    ensures r in p.availables ==> PoolInv(Taken(p, r))
    ensures PoolInv(Released(p, r))
    ensures r in p.availables ==> Released(Taken(p, r), r) == p
  {
    if r.name !in p.resources {
      AddedInv(p, r);
    }
    RemovedInv(p, name);
  }

  lemma AddedInv(p: Pool, r: Resource)
    requires PoolInv(p) && r.name !in p.resources
    ensures PoolInv(Added(p, r))
  {
    var q := Added(p, r);
    forall x | x in p.resources.Values
      ensures x in q.resources.Values
    {
      assert q.resources[x.name] == x;
    }
    assert q.resources[r.name] == r;
    assert r !in p.resources.Values;
  }

  lemma RemovedInv(p: Pool, name: string)
    requires PoolInv(p)
    ensures PoolInv(Removed(p, name))
  {
    if name in p.resources {
      var q, r := Removed(p, name), p.resources[name];
      forall x | x in p.resources.Values && x != r
        ensures x in q.resources.Values
      {
        assert x.name in q.resources && q.resources[x.name] == x;
      }
      assert r !in q.resources.Values;
    }
  }

  class ExclusiveResources {
    var availables: set<Resource>
    var used: set<Resource>
    var resources: map<string, Resource>

    ghost function View(): Pool
      reads this
    {
      Pool(availables, used, resources)
    }

    constructor ()
      ensures View() == EMPTY && PoolInv(View())
    {
      availables, used, resources := {}, {}, map[];
    }

    method Add(r: Resource) returns (ok: bool)
      requires PoolInv(View())
      modifies this
      ensures ok == (r.name !in old(resources))
      ensures View() == (if ok then Added(old(View()), r) else old(View())) && PoolInv(View())
    {
      ok := r.name !in resources;
      PoolOperations(View(), r, r.name);
      if ok {
        availables := availables + {r};
        resources := resources[r.name := r];
      }
    }

    method Remove(name: string)
      requires PoolInv(View())
      modifies this
      ensures View() == Removed(old(View()), name) && PoolInv(View())
    {
      RemovedInv(View(), name);
      if name in resources {
        var r := resources[name];
        resources := resources - {name};
        availables := availables - {r};
        used := used - {r};
      }
    }

    method TryAcquire() returns (r: Option<Resource>)
      requires PoolInv(View())
      modifies this
      ensures r.None? <==> old(availables) == {}
      ensures r.Some? ==> r.value in old(availables) && View() == Taken(old(View()), r.value)
      ensures r.None? ==> View() == old(View())
      ensures PoolInv(View())
    {
      r := None;
      if availables != {} {
        var x :| x in availables;
        availables := availables - {x};
        used := used + {x};
        r := Some(x);
      }
    }

    method Release(r: Resource)
      requires PoolInv(View())
      modifies this
      ensures View() == Released(old(View()), r) && PoolInv(View())
    {
      if r in used {
        used := used - {r};
        availables := availables + {r};
      }
    }
  }

  type Pools = map<string, Pool>

  /** The dictionary makes an empty pool on the first access. */
  function PoolOf(ps: Pools, t: string): Pool {
    if t in ps then ps[t] else EMPTY
  }

  /** One resource of a type, taken. */
  datatype Holding = Holding(typ: string, resource: Resource)

  /** The pool of type `t` after the holdings were taken. */
  function PoolAfter(p: Pool, t: string, held: seq<Holding>): Pool {
    if held == [] then p
    else
      var h, q := held[|held| - 1], PoolAfter(p, t, held[..|held| - 1]);
      if h.typ == t then Taken(q, h.resource) else q
  }

  /** Each holding was available when it was taken. */
  predicate Possible(before: Pools, held: seq<Holding>) {
    held == [] ||
    var h, init := held[|held| - 1], held[..|held| - 1];
    Possible(before, init) && h.resource in PoolAfter(PoolOf(before, h.typ), h.typ, init).availables
  }

  /** The holdings taken one after the other. */
  ghost predicate TakenInTurn(before: Pools, held: seq<Holding>, after: Pools) {
    Possible(before, held) && forall t :: PoolOf(after, t) == PoolAfter(PoolOf(before, t), t, held)
  }

  lemma {:induction false} TurnsKeepInv(before: Pools, held: seq<Holding>, t: string)
    requires Possible(before, held) && PoolInv(PoolOf(before, t))
    ensures PoolInv(PoolAfter(PoolOf(before, t), t, held))
  {
    if held != [] {
      TurnsKeepInv(before, held[..|held| - 1], t);
    }
  }

  /** Giving the last one back undoes the last turn. */
  lemma UndoLast(before: Pools, held: seq<Holding>, after: Pools, undone: Pools)
    requires held != [] && TakenInTurn(before, held, after) && held[|held| - 1].typ in after
    requires forall t :: PoolInv(PoolOf(before, t))
    requires var h := held[|held| - 1]; undone == after[h.typ := Released(after[h.typ], h.resource)]
    ensures TakenInTurn(before, held[..|held| - 1], undone)
  {
    var h, init := held[|held| - 1], held[..|held| - 1];
    TurnsKeepInv(before, init, h.typ);
    var q := PoolAfter(PoolOf(before, h.typ), h.typ, init);
    assert Released(Taken(q, h.resource), h.resource) == q;
  }

  lemma SamePools(before: Pools, held: seq<Holding>, after: Pools, same: Pools)
    requires TakenInTurn(before, held, after) && forall t :: PoolOf(same, t) == PoolOf(after, t)
    ensures TakenInTurn(before, held, same)
  {
  }

  lemma LastIsThere(before: Pools, held: seq<Holding>, after: Pools)
    requires held != [] && TakenInTurn(before, held, after)
    ensures held[|held| - 1].typ in after
  {
  }

  lemma TakeTurn(before: Pools, held: seq<Holding>, mid: Pools, h: Holding, after: Pools)
    requires TakenInTurn(before, held, mid) && h.typ in mid && h.resource in mid[h.typ].availables
    requires after == mid[h.typ := Taken(mid[h.typ], h.resource)]
    ensures TakenInTurn(before, held + [h], after)
  {
  }

  /** One resource of each type, in order. */
  predicate OfTypes(held: seq<Holding>, types: seq<string>) {
    |held| == |types| && forall i :: 0 <= i < |types| ==> held[i].typ == types[i]
  }

  lemma OneMoreType(held: seq<Holding>, types: seq<string>, i: nat, r: Resource)
    requires i < |types| && OfTypes(held, types[..i])
    ensures OfTypes(held + [Holding(types[i], r)], types[..i + 1])
  {
  }

  /** Each resource that is taken is one less. */
  lemma {:induction false} AvailablesLeft(before: Pools, held: seq<Holding>, types: seq<string>, t: string)
    requires Possible(before, held) && OfTypes(held, types)
    ensures |PoolAfter(PoolOf(before, t), t, held).availables| == |PoolOf(before, t).availables| - multiset(types)[t]
  {
    if held != [] {
      var n := |held| - 1;
      AvailablesLeft(before, held[..n], types[..n], t);
      assert types == types[..n] + [types[n]];
    }
  }

  /** Some type is asked for more often than it has available resources. */
  ghost predicate SomeLacks(ps: Pools, types: seq<string>) {
    exists t :: t in types && multiset(types)[t] > |PoolOf(ps, t).availables|
  }

  lemma TypeRanOut(before: Pools, held: seq<Holding>, mid: Pools, types: seq<string>, i: nat)
    requires i < |types| && TakenInTurn(before, held, mid) && OfTypes(held, types[..i])
    requires PoolOf(mid, types[i]).availables == {}
    ensures SomeLacks(before, types)
  {
    AvailablesLeft(before, held, types[..i], types[i]);
    assert types == types[..i] + [types[i]] + types[i + 1..];
  }

  lemma NothingRanOut(before: Pools, held: seq<Holding>, after: Pools, types: seq<string>)
    requires TakenInTurn(before, held, after) && OfTypes(held, types)
    ensures !SomeLacks(before, types)
  {
    forall t
      ensures multiset(types)[t] <= |PoolOf(before, t).availables|
    {
      AvailablesLeft(before, held, types, t);
    }
  }

  class ResourcesManager {
    var resources: map<string, ExclusiveResources>
    ghost var contents: Pools

    ghost function Objects(): set<object>
      reads this
    {
      set t | t in resources :: resources[t]
    }

    ghost predicate Valid()
      reads this, Objects()
    {
      && this !in Objects()
      && (forall s, t :: s in resources && t in resources && s != t ==> resources[s] != resources[t])
      && contents.Keys == resources.Keys
      && (forall t :: t in resources ==> contents[t] == resources[t].View() && PoolInv(contents[t]))
    }

    constructor ()
      ensures Valid() && contents == map[]
    {
      resources, contents := map[], map[];
    }

    /** The access of a `defaultdict`. */
    method Access(t: string)
      requires Valid()
      modifies this
      ensures Valid() && t in resources
      ensures forall s :: s in old(resources) ==> s in resources && resources[s] == old(resources[s])
      ensures forall s :: s in resources && s !in old(resources) ==> fresh(resources[s])
      ensures forall s :: PoolOf(contents, s) == PoolOf(old(contents), s)
    {
      if t !in resources {
        var pool := new ExclusiveResources();
        resources, contents := resources[t := pool], contents[t := EMPTY];
      }
    }

    /** `acquire` with `wait=False`; nothing is returned where the source raises. */
    method TryAcquire(t: string) returns (r: Option<Resource>)
      requires Valid() && t in resources
      modifies this`contents, resources[t]
      ensures Valid()
      ensures r.None? <==> PoolOf(old(contents), t).availables == {}
      ensures r.None? ==> contents == old(contents)
      ensures r.Some? ==> r.value in old(contents)[t].availables
      ensures r.Some? ==> contents == old(contents)[t := Taken(old(contents)[t], r.value)]
    {
      r := resources[t].TryAcquire();
      if r.Some? {
        contents := contents[t := Taken(contents[t], r.value)];
      }
    }

    method Release(t: string, r: Resource)
      requires Valid() && t in resources
      modifies this`contents, resources[t]
      ensures Valid() && contents == old(contents)[t := Released(old(contents)[t], r)]
    {
      resources[t].Release(r);
      contents := contents[t := Released(contents[t], r)];
    }

    method ReleaseLast(held: seq<Holding>, ghost before: Pools)
      requires Valid() && held != [] && TakenInTurn(before, held, contents)
      requires forall t :: PoolInv(PoolOf(before, t))
      modifies this`contents, Objects()
      ensures Valid() && TakenInTurn(before, held[..|held| - 1], contents)
    {
      hide TakenInTurn;
      var h := held[|held| - 1];
      ghost var after := contents;
      LastIsThere(before, held, after);
      Release(h.typ, h.resource);
      UndoLast(before, held, after, contents);
    }

    /** The exit stack: what was acquired is released, the last one first. */
    method ReleaseAll(held: seq<Holding>, ghost before: Pools)
      requires Valid() && TakenInTurn(before, held, contents)
      requires forall t :: PoolInv(PoolOf(before, t))
      modifies this`contents, Objects()
      ensures Valid() && forall t :: PoolOf(contents, t) == PoolOf(before, t)
    {
      hide Valid;
      var rest := held;
      while rest != []
        invariant Valid() && |rest| <= |held| && rest == held[..|rest|]
        invariant TakenInTurn(before, rest, contents)
      {
        hide TakenInTurn, PoolInv;
        var i := |rest| - 1;
        ReleaseLast(rest, before);
        assert rest[..i] == held[..i];
        rest := rest[..i];
      }
    }

    lemma NothingYet(types: seq<string>)
      requires Valid()
      ensures TakenInTurn(contents, [], contents) && OfTypes([], types[..0])
      ensures forall t :: PoolInv(PoolOf(contents, t))
    {
    }

    /** One turn of the loop of `acquire_many`. */
    method AcquireOne(t: string, taken: seq<Holding>, ghost before: Pools) returns (r: Option<Resource>)
      requires Valid() && TakenInTurn(before, taken, contents)
      modifies this, Objects()
      ensures Valid() && t in resources
      ensures fresh(Objects() - old(Objects()))
      ensures r.None? <==> PoolOf(old(contents), t).availables == {}
      ensures TakenInTurn(before, if r.Some? then taken + [Holding(t, r.value)] else taken, contents)
    {
      hide TakenInTurn;
      ghost var mid := contents;
      Access(t);
      SamePools(before, taken, mid, contents);
      mid := contents;
      r := TryAcquire(t);
      if r.Some? {
        TakeTurn(before, taken, mid, Holding(t, r.value), contents);
      }
    }

    /** `acquire_many` with `wait=False` and no delays: either one resource of each type, in
        sorted order, or nothing is taken and every pool is as it was; and the latter only where a
        type is asked for more often than it has available resources. */
    method AcquireMany(sortedTypes: seq<string>) returns (held: Option<seq<Holding>>)
      requires Valid()
      modifies this, Objects()
      ensures Valid()
      ensures held.None? <==> SomeLacks(old(contents), sortedTypes)
      ensures held.None? ==> forall t :: PoolOf(contents, t) == PoolOf(old(contents), t)
      ensures held.Some? ==> OfTypes(held.value, sortedTypes) && TakenInTurn(old(contents), held.value, contents)
    {
      hide Valid, TakenInTurn, PoolInv, OfTypes, SomeLacks, PoolOf;
      ghost var before := contents;
      NothingYet(sortedTypes);
      var taken: seq<Holding> := [];
      for i := 0 to |sortedTypes|
        invariant Valid() && OfTypes(taken, sortedTypes[..i])
        invariant fresh(Objects() - old(Objects()))
        invariant TakenInTurn(before, taken, contents)
      {
        ghost var mid := contents;
        var r := AcquireOne(sortedTypes[i], taken, before);
        if r.None? {
          TypeRanOut(before, taken, mid, sortedTypes, i);
          ReleaseAll(taken, before);
          return None;
        }
        OneMoreType(taken, sortedTypes, i, r.value);
        taken := taken + [Holding(sortedTypes[i], r.value)];
      }
      assert sortedTypes[..|sortedTypes|] == sortedTypes;
      NothingRanOut(before, taken, contents, sortedTypes);
      return Some(taken);
    }
  }
}
