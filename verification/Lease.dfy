/** `lock_jobs`, worker_manager/services/lock.py, over the table of stores/queues_store.py. */
module Lease {
  import opened Options

  /** Fifteen minutes, in seconds. */
  const LEASE := 900

  datatype Job = Job(name: string, definition: Option<string>)

  /** A row of the table of queues. */
  datatype Row = Row(assignedAt: Option<int>, assignedTo: Option<string>, enabled: bool, job: Option<Job>)

  type Queues = map<string, Row>

  /** A resource, or a provider of resources. */
  datatype Resource = Resource(name: string, typ: string, provider: bool)

  datatype Executor = Executor(name: string)

  /** What a worker runs: the name of the executor, and the types of the resources. */
  datatype QueueItem = QueueItem(executor: string, resourceTypes: seq<string>)

  datatype Definitions = Definitions(
    executors: map<string, Executor>,
    jobs: map<string, QueueItem>,
    jobDefinitions: map<string, QueueItem>,
    resourcesByType: map<string, seq<Resource>>)

  /** `selector` stands for the names that the expression matches; no executors is no filter. */
  datatype LockInput = LockInput(worker: string, selector: Option<set<string>>, executors: set<string>)

  /** The lists of resources and executors, by name. */
  datatype LockResponse = LockResponse(
    items: seq<string>,
    resources: map<string, Resource>,
    providers: map<string, Resource>,
    executors: map<string, Executor>)

  // ----- The queries -----

  predicate Selected(input: LockInput, name: string) {
    input.selector.Some? ==> name in input.selector.value
  }

  predicate Mine(queues: Queues, input: LockInput, cutoff: int, name: string) {
    && name in queues && queues[name].enabled && Selected(input, name)
    && queues[name].assignedTo == Some(input.worker)
    && queues[name].assignedAt.Some? && queues[name].assignedAt.value >= cutoff
  }

  predicate Free(queues: Queues, input: LockInput, cutoff: int, name: string) {
    && name in queues && queues[name].enabled && Selected(input, name)
    && (queues[name].assignedAt.None? || queues[name].assignedAt.value < cutoff)
  }

  /** `get_assigned_queues`; `listing` is the table in the order of the names. */
  function Assigned(queues: Queues, input: LockInput, cutoff: int, listing: seq<string>): seq<string> {
    if listing == [] then []
    else
      var n := |listing| - 1;
      Assigned(queues, input, cutoff, listing[..n])
      + if Mine(queues, input, cutoff, listing[n]) then [listing[n]] else []
  }

  /** `get_unassigned_queues` without a limit; `listing` is the table in any order. */
  function Unassigned(queues: Queues, input: LockInput, cutoff: int, listing: seq<string>): seq<string> {
    if listing == [] then []
    else
      var n := |listing| - 1;
      Unassigned(queues, input, cutoff, listing[..n])
      + if Free(queues, input, cutoff, listing[n]) then [listing[n]] else []
  }

  function First(s: seq<string>, n: nat): seq<string> {
    if |s| <= n then s else s[..n]
  }

  /** A call: its input, when it starts and when it refreshes, and how the database lists the rows. */
  datatype Call = Call(input: LockInput, startedAt: int, refreshedAt: int, byName: seq<string>, anyOrder: seq<string>)

  function Cutoff(c: Call): int {
    c.startedAt - LEASE
  }

  predicate Distinct(s: seq<string>) {
    forall i, j :: 0 <= i < j < |s| ==> s[i] != s[j]
  }

  ghost predicate Lists(queues: Queues, listing: seq<string>) {
    Distinct(listing) && forall name :: name in listing <==> name in queues
  }

  ghost predicate Possible(queues: Queues, c: Call) {
    c.startedAt <= c.refreshedAt && Lists(queues, c.byName) && Lists(queues, c.anyOrder)
  }

  /** The queues that the call looks at: the worker's own first, then free ones. */
  function Candidates(queues: Queues, c: Call, max: nat): seq<string> {
    var own := Assigned(queues, c.input, Cutoff(c), c.byName);
    if |own| >= max then own[..max]
    else
      var free := Unassigned(queues, c.input, Cutoff(c), c.anyOrder);
      own + if c.input.executors == {} then First(free, max - |own|) else free
  }

  /** The worker's own queues above the maximum, which it loses. */
  function Extra(queues: Queues, c: Call, max: nat): seq<string> {
    var own := Assigned(queues, c.input, Cutoff(c), c.byName);
    if |own| > max then own[max..] else []
  }

  // ----- The definitions -----

  /** `join_definitions`; nothing where it raises. */
  function Joined(row: Row, defs: Definitions): Option<QueueItem> {
    if row.job.None? then None
    else if row.job.value.definition.None? then
      if row.job.value.name in defs.jobs then Some(defs.jobs[row.job.value.name]) else None
    else
      var definition := row.job.value.definition.value;
      if definition in defs.jobDefinitions then Some(defs.jobDefinitions[definition]) else None
  }

  predicate HasResources(defs: Definitions, typ: string) {
    typ in defs.resourcesByType && defs.resourcesByType[typ] != []
  }

  predicate HasAll(defs: Definitions, types: seq<string>) {
    forall t :: t in types ==> HasResources(defs, t)
  }

  /** The item is there, and for one of the executors of the worker. */
  predicate Runs(item: Option<QueueItem>, input: LockInput) {
    item.Some? && (input.executors == {} || item.value.executor in input.executors)
  }

  /** And each of its types has a resource. */
  predicate Supplied(item: Option<QueueItem>, defs: Definitions, input: LockInput) {
    Runs(item, input) && HasAll(defs, item.value.resourceTypes)
  }

  /** And its executor is defined. */
  predicate Granted(item: Option<QueueItem>, defs: Definitions, input: LockInput) {
    Supplied(item, defs, input) && item.value.executor in defs.executors
  }

  /** The resources, or the providers, of a list by their names, a later one for an earlier one. */
  function Named(list: seq<Resource>, provider: bool): map<string, Resource> {
    if list == [] then map[]
    else
      var n := |list| - 1;
      var before := Named(list[..n], provider);
      if list[n].provider == provider then before[list[n].name := list[n]] else before
  }

  function OfTypes(defs: Definitions, types: seq<string>, provider: bool): map<string, Resource>
    requires HasAll(defs, types)
  {
    if types == [] then map[]
    else
      var n := |types| - 1;
      assert HasResources(defs, types[n]);
      OfTypes(defs, types[..n], provider) + Named(defs.resourcesByType[types[n]], provider)
  }

  /** The response with one more queue. The resources come in even where the executor is missing;
      the first definition of an executor stays. */
  function With(r: LockResponse, name: string, item: Option<QueueItem>, defs: Definitions, input: LockInput)
    : LockResponse
  {
    if !Supplied(item, defs, input) then r
    else
      var types := item.value.resourceTypes;
      var more := r.(resources := r.resources + OfTypes(defs, types, false),
                     providers := r.providers + OfTypes(defs, types, true));
      if item.value.executor in defs.executors then
        var e := defs.executors[item.value.executor];
        more.(items := r.items + [name],
              executors := if e.name in r.executors then r.executors else r.executors[e.name := e])
      else more
  }

  const NOTHING := LockResponse([], map[], map[], map[])

  function Collected(queues: Queues, defs: Definitions, input: LockInput, names: seq<string>): LockResponse
    requires forall n :: n in names ==> n in queues
  {
    if names == [] then NOTHING
    else
      var k := |names| - 1;
      With(Collected(queues, defs, input, names[..k]), names[k], Joined(queues[names[k]], defs), defs, input)
  }

  // ----- The rows after a call -----

  function Cleared(queues: Queues, names: seq<string>): Queues {
    map n | n in queues :: if n in names then queues[n].(assignedAt := None, assignedTo := None) else queues[n]
  }

  function Refreshed(queues: Queues, names: seq<string>, worker: string, now: int): Queues {
    map n | n in queues ::
      if n in names then queues[n].(assignedAt := Some(now), assignedTo := Some(worker)) else queues[n]
  }

  /** The definition of the queue's job is missing. */
  predicate IsBroken(row: Row, defs: Definitions) {
    row.job.Some? && Joined(row, defs).None?
  }

  /** `set_failed` of the broken ones disables their queues. */
  function Disabled(queues: Queues, defs: Definitions, names: seq<string>): Queues {
    map n | n in queues :: if n in names && IsBroken(queues[n], defs) then queues[n].(enabled := false) else queues[n]
  }

  lemma {:induction false} AssignedAre(queues: Queues, input: LockInput, cutoff: int, listing: seq<string>)
    requires Distinct(listing)
    ensures forall n ::
              n in Assigned(queues, input, cutoff, listing) <==> n in listing && Mine(queues, input, cutoff, n)
    ensures Distinct(Assigned(queues, input, cutoff, listing))
  {
    if listing != [] {
      var n := |listing| - 1;
      AssignedAre(queues, input, cutoff, listing[..n]);
      assert listing == listing[..n] + [listing[n]];
    }
  }

  lemma {:induction false} UnassignedAre(queues: Queues, input: LockInput, cutoff: int, listing: seq<string>)
    requires Distinct(listing)
    ensures forall n ::
              n in Unassigned(queues, input, cutoff, listing) <==> n in listing && Free(queues, input, cutoff, n)
    ensures Distinct(Unassigned(queues, input, cutoff, listing))
  {
    if listing != [] {
      var n := |listing| - 1;
      UnassignedAre(queues, input, cutoff, listing[..n]);
      assert listing == listing[..n] + [listing[n]];
    }
  }

  /** No queue is looked at twice, each is the worker's own or free, and without a filter there
      are at most `max`. */
  lemma CandidatesAre(queues: Queues, c: Call, max: nat)
    requires Possible(queues, c)
    ensures var all := Candidates(queues, c, max);
            && Distinct(all)
            && (forall n :: n in all ==> Mine(queues, c.input, Cutoff(c), n) || Free(queues, c.input, Cutoff(c), n))
            && (forall n :: n in all ==> n in queues)
            && (c.input.executors == {} ==> |all| <= max)
  {
    var own := Assigned(queues, c.input, Cutoff(c), c.byName);
    var free := Unassigned(queues, c.input, Cutoff(c), c.anyOrder);
    AssignedAre(queues, c.input, Cutoff(c), c.byName);
    UnassignedAre(queues, c.input, Cutoff(c), c.anyOrder);
    if |own| < max {
      DistinctJoin(own, free);
      DistinctJoin(own, First(free, max - |own|));
    }
  }

  lemma DistinctJoin(a: seq<string>, b: seq<string>)
    requires Distinct(a) && Distinct(b) && forall x :: x in a ==> x !in b
    ensures Distinct(a + b)
  {
    forall i, j | 0 <= i < j < |a + b|
      ensures (a + b)[i] != (a + b)[j]
    {
      if i < |a| <= j {
        assert a[i] in a && b[j - |a|] in b;
      }
    }
  }

  lemma ExtraAre(queues: Queues, c: Call, max: nat)
    requires Possible(queues, c)
    ensures forall n :: n in Extra(queues, c, max) ==>
              Mine(queues, c.input, Cutoff(c), n) && n !in Candidates(queues, c, max)
  {
    AssignedAre(queues, c.input, Cutoff(c), c.byName);
  }

  lemma WithItems(r: LockResponse, name: string, item: Option<QueueItem>, defs: Definitions, input: LockInput)
    ensures With(r, name, item, defs, input).items == if Granted(item, defs, input) then r.items + [name] else r.items
  {
  }

  lemma {:induction false} GrantsAre(queues: Queues, defs: Definitions, input: LockInput, names: seq<string>)
    requires Distinct(names) && forall n :: n in names ==> n in queues
    ensures var g := Collected(queues, defs, input, names).items;
            && (forall n :: n in g <==> n in names && Granted(Joined(queues[n], defs), defs, input))
            && Distinct(g) && |g| <= |names|
  {
    if names != [] {
      var k := |names| - 1;
      var r := Collected(queues, defs, input, names[..k]);
      GrantsAre(queues, defs, input, names[..k]);
      WithItems(r, names[k], Joined(queues[names[k]], defs), defs, input);
      hide Joined, Granted, With;
      assert names == names[..k] + [names[k]] && names[k] !in names[..k];
      DistinctJoin(r.items, [names[k]]);
    }
  }

  /** The rows after a call: the extra queues are nobody's, the broken ones are disabled, those
      granted are the worker's from now on, and every other row is as it was. */
  function RowsAfter(queues: Queues, defs: Definitions, c: Call, max: nat): Queues
    requires forall n :: n in Candidates(queues, c, max) ==> n in queues
  {
    var all := Candidates(queues, c, max);
    Refreshed(Disabled(Cleared(queues, Extra(queues, c, max)), defs, all), Collected(queues, defs, c.input, all).items,
              c.input.worker, c.refreshedAt)
  }

  function ResponseTo(queues: Queues, defs: Definitions, c: Call, max: nat): LockResponse
    requires forall n :: n in Candidates(queues, c, max) ==> n in queues
  {
    Collected(queues, defs, c.input, Candidates(queues, c, max))
  }

  /** The jobs of the queues whose definition is missing. */
  function Broken(queues: Queues, defs: Definitions, names: seq<string>): set<string>
    requires forall n :: n in names ==> n in queues
  {
    set n | n in names && IsBroken(queues[n], defs) :: queues[n].job.value.name
  }

  // ----- The response is complete -----

  lemma NoneNamed(list: seq<Resource>)
    ensures forall provider :: Named(list[..0], provider) == map[]
  {
  }

  lemma NamedMore(list: seq<Resource>, j: nat)
    requires j < |list|
    ensures forall provider ::
              Named(list[..j + 1], provider)
              == if list[j].provider == provider then Named(list[..j], provider)[list[j].name := list[j]]
                 else Named(list[..j], provider)
  {
    assert list[..j + 1][..j] == list[..j];
  }

  lemma {:induction false} NamedHas(list: seq<Resource>, provider: bool, name: string)
    ensures name in Named(list, provider) <==> exists r :: r in list && r.provider == provider && r.name == name
    ensures name in Named(list, provider) ==>
              var r := Named(list, provider)[name]; r in list && r.provider == provider && r.name == name
  {
    if list != [] {
      var n := |list| - 1;
      NamedHas(list[..n], provider, name);
      assert list == list[..n] + [list[n]];
      if r :| r in list && r.provider == provider && r.name == name {
        assert r == list[n] || r in list[..n];
      }
    }
  }

  /** A resource of the name is defined for one of the types. */
  ghost predicate Defined(defs: Definitions, types: seq<string>, r: Resource) {
    exists t :: t in types && HasResources(defs, t) && r in defs.resourcesByType[t]
  }

  lemma {:induction false} OfTypesHas(defs: Definitions, types: seq<string>, provider: bool)
    requires HasAll(defs, types)
    ensures forall r :: Defined(defs, types, r) && r.provider == provider ==> r.name in OfTypes(defs, types, provider)
    ensures forall name :: name in OfTypes(defs, types, provider) ==>
              var r := OfTypes(defs, types, provider)[name];
              Defined(defs, types, r) && r.provider == provider && r.name == name
  {
    if types != [] {
      var n := |types| - 1;
      var init, t := types[..n], types[n];
      assert types == init + [t];
      OfTypesHas(defs, init, provider);
      assert HasResources(defs, t);
      var list := defs.resourcesByType[t];
      forall r | Defined(defs, types, r) && r.provider == provider
        ensures r.name in OfTypes(defs, types, provider)
      {
        NamedHas(list, provider, r.name);
        assert Defined(defs, init, r) || r in list;
      }
      forall name | name in OfTypes(defs, types, provider)
        ensures var r := OfTypes(defs, types, provider)[name];
                Defined(defs, types, r) && r.provider == provider && r.name == name
      {
        NamedHas(list, provider, name);
        var r := OfTypes(defs, types, provider)[name];
        assert Defined(defs, init, r) ==> Defined(defs, types, r);
      }
    }
  }

  /** A resource is needed by one of the queues that have all of theirs. */
  ghost predicate Needed(queues: Queues, defs: Definitions, input: LockInput, names: seq<string>, r: Resource) {
    exists n :: n in names && n in queues && NeededBy(Joined(queues[n], defs), defs, input, r)
  }

  ghost predicate NeededBy(item: Option<QueueItem>, defs: Definitions, input: LockInput, r: Resource) {
    Supplied(item, defs, input) && Defined(defs, item.value.resourceTypes, r)
  }

  function Part(r: LockResponse, provider: bool): map<string, Resource> {
    if provider then r.providers else r.resources
  }

  /** The resources after one more queue. */
  lemma ResourcesStep(before: LockResponse, name: string, item: Option<QueueItem>, defs: Definitions, input: LockInput,
                      provider: bool)
    ensures var was, all := Part(before, provider), Part(With(before, name, item, defs, input), provider);
            && (forall r :: NeededBy(item, defs, input, r) && r.provider == provider ==> r.name in all)
            && (forall x :: x in was ==> x in all)
            && (forall x :: x in all && !(x in was && all[x] == was[x]) ==>
                  NeededBy(item, defs, input, all[x]) && all[x].provider == provider && all[x].name == x)
  {
    if Supplied(item, defs, input) {
      OfTypesHas(defs, item.value.resourceTypes, provider);
    }
  }

  lemma {:induction false} ResourcesAre(queues: Queues, defs: Definitions, input: LockInput, names: seq<string>,
                                        provider: bool)
    requires forall n :: n in names ==> n in queues
    ensures var all := Part(Collected(queues, defs, input, names), provider);
            && (forall r :: Needed(queues, defs, input, names, r) && r.provider == provider ==> r.name in all)
            && (forall x :: x in all ==>
                  Needed(queues, defs, input, names, all[x]) && all[x].provider == provider && all[x].name == x)
  {
    if names != [] {
      var k := |names| - 1;
      var init, item := names[..k], Joined(queues[names[k]], defs);
      assert names == init + [names[k]];
      ResourcesAre(queues, defs, input, init, provider);
      ResourcesStep(Collected(queues, defs, input, init), names[k], item, defs, input, provider);
      assert Collected(queues, defs, input, names)
          == With(Collected(queues, defs, input, init), names[k], item, defs, input);
      hide NeededBy, Needed, Joined, With, Collected;
      forall r
        ensures Needed(queues, defs, input, names, r)
            <==> Needed(queues, defs, input, init, r) || NeededBy(item, defs, input, r)
      {
      }
    }
  }

  // A queue whose job has an item and the resource for it, but not its executor.
  const STRAY := Resource("r", "t", false)
  const STRAY_QUEUES: Queues := map["q" := Row(None, None, true, Some(Job("j", None)))]
  const STRAY_DEFINITIONS := Definitions(map[], map["j" := QueueItem("e", ["t"])], map[], map["t" := [STRAY]])
  const STRAY_CALL := Call(LockInput("w", None, {}), 0, 0, ["q"], ["q"])

  lemma StrayCandidate()
    ensures Possible(STRAY_QUEUES, STRAY_CALL) && Candidates(STRAY_QUEUES, STRAY_CALL, 1) == ["q"]
  {
    var input := STRAY_CALL.input;
    assert ["q"][..0] == [];
    assert Assigned(STRAY_QUEUES, input, Cutoff(STRAY_CALL), ["q"]) == [];
    assert Unassigned(STRAY_QUEUES, input, Cutoff(STRAY_CALL), ["q"]) == ["q"];
  }

  lemma StrayOfTypes()
    ensures HasAll(STRAY_DEFINITIONS, ["t"])
    ensures OfTypes(STRAY_DEFINITIONS, ["t"], false) == map["r" := STRAY]
    ensures OfTypes(STRAY_DEFINITIONS, ["t"], true) == map[]
  {
    assert [STRAY][..0] == [] && ["t"][..0] == [];
    assert forall p :: Named([STRAY][..0], p) == map[];
    assert Named([STRAY], false) == map["r" := STRAY];
    assert Named([STRAY], true) == map[];
    assert forall p :: OfTypes(STRAY_DEFINITIONS, ["t"][..0], p) == map[];
  }

  /** The response has the resource, although the queue is not handed out. */
  lemma StrayResource()
    ensures Possible(STRAY_QUEUES, STRAY_CALL)
    ensures Candidates(STRAY_QUEUES, STRAY_CALL, 1) == ["q"]
    ensures ResponseTo(STRAY_QUEUES, STRAY_DEFINITIONS, STRAY_CALL, 1)
         == LockResponse([], map["r" := STRAY], map[], map[])
  {
    StrayCandidate();
    StrayOfTypes();
    hide Candidates, Possible, OfTypes, HasAll;
    assert ["q"][..0] == [] && Joined(STRAY_QUEUES["q"], STRAY_DEFINITIONS) == Some(QueueItem("e", ["t"]));
    assert Collected(STRAY_QUEUES, STRAY_DEFINITIONS, STRAY_CALL.input, ["q"])
        == With(NOTHING, "q", Some(QueueItem("e", ["t"])), STRAY_DEFINITIONS, STRAY_CALL.input);
    assert map[] + map["r" := STRAY] == map["r" := STRAY];
  }

  lemma ExecutorsStep(r: LockResponse, name: string, item: Option<QueueItem>, defs: Definitions, input: LockInput)
    requires forall e :: e in defs.executors ==> defs.executors[e].name == e
    ensures var more := With(r, name, item, defs, input);
            && more.items == r.items + (if Granted(item, defs, input) then [name] else [])
            && more.executors.Keys
               == r.executors.Keys + (if Granted(item, defs, input) then {item.value.executor} else {})
            && forall e :: e in more.executors ==>
                 more.executors[e] == if e in r.executors then r.executors[e] else defs.executors[e]
  {
  }

  lemma {:induction false} ExecutorsAre(queues: Queues, defs: Definitions, input: LockInput, names: seq<string>)
    requires forall n :: n in names ==> n in queues
    requires forall e :: e in defs.executors ==> defs.executors[e].name == e
    ensures var r := Collected(queues, defs, input, names);
            && (forall n :: n in r.items ==> n in names && Granted(Joined(queues[n], defs), defs, input))
            && (forall e :: e in r.executors ==> e in defs.executors && r.executors[e] == defs.executors[e])
            && (forall n :: n in r.items ==> Joined(queues[n], defs).value.executor in r.executors)
            && (forall e :: e in r.executors ==>
                  exists n :: n in r.items && Joined(queues[n], defs).value.executor == e)
  {
    if names != [] {
      var k := |names| - 1;
      var r := Collected(queues, defs, input, names[..k]);
      ExecutorsAre(queues, defs, input, names[..k]);
      ExecutorsStep(r, names[k], Joined(queues[names[k]], defs), defs, input);
      assert names == names[..k] + [names[k]];
      hide Joined, Supplied, Granted, With;
    }
  }

  lemma BrokenGrows(queues: Queues, defs: Definitions, names: seq<string>, n: string)
    requires n in queues && forall m :: m in names ==> m in queues
    ensures var job := queues[n].job;
            Broken(queues, defs, names + [n])
            == Broken(queues, defs, names) + if IsBroken(queues[n], defs) then {job.value.name} else {}
  {
  }

  /** The first names of a listing, one more at a time. */
  lemma NextBehind(all: seq<string>)
    requires Distinct(all)
    ensures all[..0] == [] && all[..|all|] == all
    ensures forall k :: 0 <= k < |all| ==> all[k] !in all[..k] && all[..k + 1] == all[..k] + [all[k]]
  {
  }

  lemma DisabledGrows(queues: Queues, defs: Definitions, names: seq<string>, n: string)
    requires n in queues && n !in names
    ensures var was := Disabled(queues, defs, names);
            && n in was && was[n] == queues[n]
            && Disabled(queues, defs, names + [n])
               == if IsBroken(queues[n], defs) then was[n := was[n].(enabled := false)] else was
  {
  }

  // ----- The call itself -----

  class JobsManager {
    var queues: Queues
    var failed: set<string>

    /** The inner loop over the resources of a type. */
    method AddAll(list: seq<Resource>, res0: map<string, Resource>, prov0: map<string, Resource>)
      returns (res: map<string, Resource>, prov: map<string, Resource>)
      ensures res == res0 + Named(list, false) && prov == prov0 + Named(list, true)
    {
      res, prov := res0, prov0;
      NoneNamed(list);
      hide Named;
      for j := 0 to |list|
        invariant res == res0 + Named(list[..j], false) && prov == prov0 + Named(list[..j], true)
      {
        NamedMore(list, j);
        if list[j].provider {
          prov := prov[list[j].name := list[j]];
        } else {
          res := res[list[j].name := list[j]];
        }
      }
      assert list[..|list|] == list;
    }

    /** The resources of one queue, unless one is missing. */
    method GatherItem(types: seq<string>, defs: Definitions)
      returns (missing: bool, res: map<string, Resource>, prov: map<string, Resource>)
      ensures missing <==> !HasAll(defs, types)
      ensures !missing ==> res == OfTypes(defs, types, false) && prov == OfTypes(defs, types, true)
    {
      missing, res, prov := false, map[], map[];
      for k := 0 to |types|
        invariant HasAll(defs, types[..k])
        invariant res == OfTypes(defs, types[..k], false) && prov == OfTypes(defs, types[..k], true)
      {
        if !HasResources(defs, types[k]) {
          missing := true;
          return;
        }
        assert types[..k + 1][..k] == types[..k];
        var list := defs.resourcesByType[types[k]];
        res, prov := AddAll(list, res, prov);
      }
      assert types[..|types|] == types;
    }

    /** `set_failed` */
    method SetFailed(name: string)
      requires name in queues && queues[name].job.Some?
      modifies this
      ensures queues == old(queues)[name := old(queues)[name].(enabled := false)]
      ensures failed == old(failed) + {old(queues)[name].job.value.name}
    {
      failed := failed + {queues[name].job.value.name};
      queues := queues[name := queues[name].(enabled := false)];
    }

    /** One turn of the loop that joins the definitions and filters by executors. */
    method JoinOne(name: string, defs: Definitions, input: LockInput) returns (runs: bool)
      requires name in queues
      modifies this
      ensures runs == Runs(Joined(old(queues)[name], defs), input)
      ensures var row := old(queues)[name];
              queues == if IsBroken(row, defs) then old(queues)[name := row.(enabled := false)] else old(queues)
      ensures var row := old(queues)[name];
              failed == old(failed) + if IsBroken(row, defs) then {row.job.value.name} else {}
    {
      var row := queues[name];
      var item := Joined(row, defs);
      runs := item.Some? && (input.executors == {} || item.value.executor in input.executors);
      if item.None? && row.job.Some? {
        SetFailed(name);
      }
    }

    /** The state in which the turns over `done` leave the rows. */
    ghost predicate HasJoined(before: Queues, failed0: set<string>, defs: Definitions, input: LockInput,
                              done: seq<string>, items: seq<string>)
      reads this
    {
      && (forall n :: n in done ==> n in before)
      && items == Running(before, defs, input, done)
      && queues == Disabled(before, defs, done)
      && failed == failed0 + Broken(before, defs, done)
    }

    lemma JoinNone(defs: Definitions, input: LockInput)
      ensures HasJoined(queues, failed, defs, input, [], [])
    {
    }

    /** One more turn. */
    method JoinNext(ghost done: seq<string>, name: string, defs: Definitions, input: LockInput, items0: seq<string>,
                    ghost before: Queues, ghost failed0: set<string>) returns (items: seq<string>)
      requires name in before && name !in done
      requires HasJoined(before, failed0, defs, input, done, items0)
      modifies this
      ensures HasJoined(before, failed0, defs, input, done + [name], items)
    {
      DisabledGrows(before, defs, done, name);
      BrokenGrows(before, defs, done, name);
      hide Running, Disabled, Broken, Joined, IsBroken, Runs;
      var runs := JoinOne(name, defs, input);
      items := if runs then items0 + [name] else items0;
    }

    /** The loop that joins the definitions and filters by executors. */
    method Join(all: seq<string>, defs: Definitions, input: LockInput) returns (items: seq<string>)
      requires Distinct(all) && forall n :: n in all ==> n in queues
      modifies this
      ensures HasJoined(old(queues), old(failed), defs, input, all, items)
    {
      hide *;
      items := [];
      JoinNone(defs, input);
      NextBehind(all);
      for k := 0 to |all|
        invariant HasJoined(old(queues), old(failed), defs, input, all[..k], items)
      {
        items := JoinNext(all[..k], all[k], defs, input, items, old(queues), old(failed));
      }
    }

    /** The loop that collects what the queues need, and drops those that lack something. */
    method Collect(items: seq<string>, defs: Definitions, ghost input: LockInput) returns (r: LockResponse)
      requires forall n :: n in items ==> n in queues && Runs(Joined(queues[n], defs), input)
      ensures r == Collected(queues, defs, input, items)
      ensures forall n :: n in r.items ==> n in items
    {
      r := NOTHING;
      for k := 0 to |items|
        invariant r == Collected(queues, defs, input, items[..k])
        invariant forall n :: n in r.items ==> n in items
      {
        var name := items[k];
        assert items[..k + 1][..k] == items[..k] && items[..k + 1][k] == name;
        var item := Joined(queues[name], defs).value;
        var missing, res, prov := GatherItem(item.resourceTypes, defs);
        if !missing {
          r := r.(resources := r.resources + res, providers := r.providers + prov);
          if item.executor in defs.executors {
            var e := defs.executors[item.executor];
            r := r.(items := r.items + [name],
                    executors := if e.name in r.executors then r.executors else r.executors[e.name := e]);
          }
        }
      }
      assert items[..|items|] == items;
    }

    /** Unassigning the extra queues. */
    method Clear(names: seq<string>)
      requires forall n :: n in names ==> n in queues
      modifies this`queues
      ensures queues == Cleared(old(queues), names)
    {
      for k := 0 to |names|
        invariant queues == Cleared(old(queues), names[..k])
      {
        assert names[..k + 1] == names[..k] + [names[k]];
        queues := queues[names[k] := queues[names[k]].(assignedAt := None, assignedTo := None)];
      }
      assert names[..|names|] == names;
    }

    method Refresh(names: seq<string>, worker: string, now: int)
      requires forall n :: n in names ==> n in queues
      modifies this`queues
      ensures queues == Refreshed(old(queues), names, worker, now)
    {
      for k := 0 to |names|
        invariant queues == Refreshed(old(queues), names[..k], worker, now)
      {
        assert names[..k + 1] == names[..k] + [names[k]];
        queues := queues[names[k] := queues[names[k]].(assignedAt := Some(now), assignedTo := Some(worker))];
      }
      assert names[..|names|] == names;
    }

    /** Obtaining the candidates, and unassigning the extra ones. */
    method Obtain(c: Call, max: nat) returns (all: seq<string>)
      requires Possible(queues, c)
      modifies this`queues
      ensures all == Candidates(old(queues), c, max)
      ensures queues == Cleared(old(queues), Extra(old(queues), c, max))
    {
      AssignedAre(queues, c.input, Cutoff(c), c.byName);
      hide Assigned, Unassigned, Distinct;
      all := Assigned(queues, c.input, Cutoff(c), c.byName);
      if |all| > max {
        Clear(all[max..]);
        all := all[..max];
      } else {
        assert queues == Cleared(queues, []);
      }
      if |all| < max {
        var free := Unassigned(queues, c.input, Cutoff(c), c.anyOrder);
        all := all + if c.input.executors == {} then First(free, max - |all|) else free;
      }
    }

    /** `lock_jobs`, with the clock and the orders of the listings as parameters. */
    method LockJobs(c: Call, defs: Definitions, max: nat) returns (r: LockResponse)
      requires Possible(queues, c)
      modifies this
      ensures forall n :: n in Candidates(old(queues), c, max) ==> n in old(queues)
      ensures queues == RowsAfter(old(queues), defs, c, max)
      ensures r == ResponseTo(old(queues), defs, c, max)
      ensures failed == old(failed) + Broken(old(queues), defs, Candidates(old(queues), c, max))
    {
      CandidatesAre(queues, c, max);
      ghost var before := queues;
      hide Possible, Granted, Supplied, Runs, Mine, Free, Distinct, Collected, Broken, Joined;
      hide Candidates, Extra, Cleared, Refreshed, Running;
      var all := Obtain(c, max);
      SameJobs(before, queues, defs, c.input, all);
      SameBroken(before, queues, defs, all);
      RunningFirst(queues, defs, c.input, all);
      var items := Join(all, defs, c.input);
      SameJobs(Cleared(before, Extra(before, c, max)), queues, defs, c.input, items);
      r := Collect(items, defs, c.input);
      Refresh(r.items, c.input.worker, c.refreshedAt);
    }
  }

  lemma SameBroken(queues: Queues, other: Queues, defs: Definitions, names: seq<string>)
    requires forall n :: n in names ==> n in queues && n in other && other[n].job == queues[n].job
    ensures Broken(other, defs, names) == Broken(queues, defs, names)
  {
  }

  /** What a worker gets depends on the jobs of the queues only. */
  lemma {:induction false} SameJobs(queues: Queues, other: Queues, defs: Definitions, input: LockInput,
                                    names: seq<string>)
    requires forall n :: n in names ==> n in queues && n in other && other[n].job == queues[n].job
    ensures Collected(other, defs, input, names) == Collected(queues, defs, input, names)
  {
    if names != [] {
      var k := |names| - 1;
      SameJobs(queues, other, defs, input, names[..k]);
      assert Joined(other[names[k]], defs) == Joined(queues[names[k]], defs);
      hide With, Joined;
    }
  }

  /** Those that the first loop keeps. */
  function Running(queues: Queues, defs: Definitions, input: LockInput, names: seq<string>): (r: seq<string>)
    requires forall n :: n in names ==> n in queues
    ensures forall n :: n in r ==> n in names && Runs(Joined(queues[n], defs), input)
  {
    if names == [] then []
    else
      var n := |names| - 1;
      Running(queues, defs, input, names[..n]) + if Runs(Joined(queues[names[n]], defs), input) then [names[n]] else []
  }

  /** Nothing is lost by dropping the others first. */
  lemma {:induction false} RunningFirst(queues: Queues, defs: Definitions, input: LockInput, names: seq<string>)
    requires forall n :: n in names ==> n in queues
    ensures Collected(queues, defs, input, Running(queues, defs, input, names)) == Collected(queues, defs, input, names)
  {
    if names != [] {
      var n := |names| - 1;
      var init := Running(queues, defs, input, names[..n]);
      RunningFirst(queues, defs, input, names[..n]);
      assert (init + [names[n]])[..|init|] == init;
      assert init + [] == init;
    }
  }
}
