/** Runs of `lock_jobs` calls by any workers: leases are exclusive, and responses are complete. */
module Leases {
  import opened Options
  import opened Lease

  /** The last response that a worker got: when its queues were refreshed, and which. */
  datatype Grant = Grant(at: int, names: seq<string>)

  datatype World = World(queues: Queues, clock: int, latest: map<string, Grant>)

  datatype Event =
    | Lock(c: Call, defs: Definitions, max: nat)
    | Create(name: string, job: Option<Job>)
    | Disable(name: string)

  const INIT := World(map[], 0, map[])

  /** The calls are transactions, one after the other, and the clock does not go back. */
  ghost predicate Enabled(w: World, e: Event) {
    match e
    case Lock(c, defs, max) => Possible(w.queues, c) && w.clock <= c.startedAt
    case Create(name, job) => name !in w.queues
    case Disable(name) => name in w.queues
  }

  ghost function Next(w: World, e: Event): World
    requires Enabled(w, e)
  {
    match e
    case Lock(c, defs, max) =>
      CandidatesAre(w.queues, c, max);
      World(RowsAfter(w.queues, defs, c, max), c.refreshedAt,
            w.latest[c.input.worker := Grant(c.refreshedAt, ResponseTo(w.queues, defs, c, max).items)])
    case Create(name, job) => w.(queues := w.queues[name := Row(None, None, true, job)])
    case Disable(name) => w.(queues := w.queues[name := w.queues[name].(enabled := false)])
  }

  ghost function After(es: seq<Event>): Option<World> {
    if es == [] then Some(INIT)
    else
      var v, e := After(es[..|es| - 1]), es[|es| - 1];
      if v.Some? && Enabled(v.value, e) then Some(Next(v.value, e)) else None
  }

  predicate Expired(w: World, v: string)
    requires v in w.latest
  {
    w.clock - LEASE > w.latest[v].at
  }

  /** Until its lease expires, a queue of the last response is assigned to the worker. */
  predicate Kept(w: World, v: string, q: string)
    requires v in w.latest
  {
    && q in w.queues
    && (Expired(w, v) || (w.queues[q].assignedTo == Some(v) && w.queues[q].assignedAt == Some(w.latest[v].at)))
  }

  ghost predicate Inv(w: World) {
    forall v :: v in w.latest ==>
      w.latest[v].at <= w.clock && forall q :: q in w.latest[v].names ==> Kept(w, v, q)
  }

  /** A call changes a row that another worker has only after the lease. */
  lemma OthersRows(queues: Queues, defs: Definitions, c: Call, max: nat, q: string, v: string, at: int)
    requires Possible(queues, c) && q in queues && v != c.input.worker
    requires queues[q].assignedTo == Some(v) && queues[q].assignedAt == Some(at) && at >= Cutoff(c)
    ensures forall n :: n in Candidates(queues, c, max) ==> n in queues
    ensures q in RowsAfter(queues, defs, c, max) && RowsAfter(queues, defs, c, max)[q] == queues[q]
    ensures q !in ResponseTo(queues, defs, c, max).items
  {
    CandidatesAre(queues, c, max);
    ExtraAre(queues, c, max);
    GrantsAre(queues, defs, c.input, Candidates(queues, c, max));
    assert !Mine(queues, c.input, Cutoff(c), q) && !Free(queues, c.input, Cutoff(c), q);
  }

  /** The rows of the response are the worker's from the refresh on. */
  lemma GrantedRows(queues: Queues, defs: Definitions, c: Call, max: nat, q: string)
    requires Possible(queues, c)
    requires forall n :: n in Candidates(queues, c, max) ==> n in queues
    requires q in ResponseTo(queues, defs, c, max).items
    ensures var rows := RowsAfter(queues, defs, c, max);
            q in rows && rows[q].assignedTo == Some(c.input.worker) && rows[q].assignedAt == Some(c.refreshedAt)
  {
    CandidatesAre(queues, c, max);
    GrantsAre(queues, defs, c.input, Candidates(queues, c, max));
  }

  lemma LockKeeps(w: World, c: Call, defs: Definitions, max: nat)
    requires Inv(w) && Enabled(w, Lock(c, defs, max))
    ensures Inv(Next(w, Lock(c, defs, max)))
  {
    var w' := Next(w, Lock(c, defs, max));
    CandidatesAre(w.queues, c, max);
    assert w'.queues.Keys == w.queues.Keys;
    hide Candidates, RowsAfter, ResponseTo, Possible;
    forall v, q | v in w'.latest && q in w'.latest[v].names
      ensures Kept(w', v, q)
    {
      if v == c.input.worker {
        GrantedRows(w.queues, defs, c, max, q);
      } else {
        assert Kept(w, v, q);
        if w.latest[v].at >= Cutoff(c) {
          OthersRows(w.queues, defs, c, max, q, v, w.latest[v].at);
        }
      }
    }
  }

  lemma InvStep(w: World, e: Event)
    requires Inv(w) && Enabled(w, e)
    ensures Inv(Next(w, e))
  {
    match e
    case Lock(c, defs, max) => LockKeeps(w, c, defs, max);
    case _ =>
      var w' := Next(w, e);
      forall v, q | v in w'.latest && q in w'.latest[v].names
        ensures Kept(w', v, q)
      {
        assert Kept(w, v, q);
      }
  }

  lemma {:induction false} RunInv(es: seq<Event>)
    requires After(es).Some?
    ensures Inv(After(es).value)
  {
    if es != [] {
      RunInv(es[..|es| - 1]);
      InvStep(After(es[..|es| - 1]).value, es[|es| - 1]);
    }
  }

  /** Whatever the workers do: while the last response of one has a queue, no call of another is
      handed it that does not start more than fifteen minutes after. */
  lemma LeaseIsExclusive(es: seq<Event>, c: Call, defs: Definitions, max: nat, v: string, q: string)
    requires After(es).Some? && Enabled(After(es).value, Lock(c, defs, max))
    requires v in After(es).value.latest && q in After(es).value.latest[v].names && v != c.input.worker
    requires var w := After(es + [Lock(c, defs, max)]);
             w.Some? && c.input.worker in w.value.latest && q in w.value.latest[c.input.worker].names
    ensures c.startedAt > After(es).value.latest[v].at + LEASE
  {
    var w := After(es).value;
    assert (es + [Lock(c, defs, max)])[..|es|] == es;
    RunInv(es);
    CandidatesAre(w.queues, c, max);
    assert Kept(w, v, q);
    if c.startedAt <= w.latest[v].at + LEASE {
      OthersRows(w.queues, defs, c, max, q, v, w.latest[v].at);
    }
  }

  /** No two workers have a lease on a queue that has not expired. */
  lemma OneLease(es: seq<Event>, u: string, v: string, q: string)
    requires After(es).Some? && u in After(es).value.latest && v in After(es).value.latest && u != v
    requires q in After(es).value.latest[u].names && q in After(es).value.latest[v].names
    ensures Expired(After(es).value, u) || Expired(After(es).value, v)
  {
    RunInv(es);
    assert Kept(After(es).value, u, q) && Kept(After(es).value, v, q);
  }

  /** Every executor is defined under its own name. */
  predicate WellNamed(defs: Definitions) {
    forall e :: e in defs.executors ==> defs.executors[e].name == e
  }

  /** A response has no queue twice, only queues that are enabled, selected and for an executor of
      the worker, and without a filter at most the maximum. */
  lemma ResponseIsBounded(queues: Queues, defs: Definitions, c: Call, max: nat)
    requires Possible(queues, c)
    ensures forall n :: n in Candidates(queues, c, max) ==> n in queues
    ensures var items := ResponseTo(queues, defs, c, max).items;
            && Lease.Distinct(items)
            && (c.input.executors == {} ==> |items| <= max)
            && forall n :: n in items ==>
                 && n in queues && queues[n].enabled && Selected(c.input, n)
                 && Runs(Joined(queues[n], defs), c.input)
  {
    CandidatesAre(queues, c, max);
    GrantsAre(queues, defs, c.input, Candidates(queues, c, max));
  }

  /** A response is complete: it has the executor of every queue in it and no other, and of each
      type that such a queue needs every resource and provider. */
  lemma ResponseIsComplete(queues: Queues, defs: Definitions, c: Call, max: nat)
    requires Possible(queues, c) && WellNamed(defs)
    ensures forall n :: n in Candidates(queues, c, max) ==> n in queues
    ensures var r := ResponseTo(queues, defs, c, max);
            && (forall n :: n in r.items ==> n in queues && Granted(Joined(queues[n], defs), defs, c.input))
            && (forall n :: n in r.items ==> Joined(queues[n], defs).value.executor in r.executors)
            && (forall e :: e in r.executors ==>
                  exists n :: n in r.items && Joined(queues[n], defs).value.executor == e)
            && (forall n, x :: n in r.items && Defined(defs, Joined(queues[n], defs).value.resourceTypes, x) ==>
                  x.name in (if x.provider then r.providers else r.resources))
  {
    CandidatesAre(queues, c, max);
    var all, r := Candidates(queues, c, max), ResponseTo(queues, defs, c, max);
    ExecutorsAre(queues, defs, c.input, all);
    forall n, x | n in r.items && Defined(defs, Joined(queues[n], defs).value.resourceTypes, x)
      ensures x.name in (if x.provider then r.providers else r.resources)
    {
      ResourcesAre(queues, defs, c.input, all, x.provider);
      assert NeededBy(Joined(queues[n], defs), defs, c.input, x);
      assert Needed(queues, defs, c.input, all, x);
    }
  }
}
