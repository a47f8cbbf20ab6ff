/** What a call of `lock_jobs` does to the rows, in terms of the rows alone: worker_manager/services/lock.py
    over the queries of stores/queues_store.py. */
module Handouts {
  import opened Options
  import opened Lease
  import opened Leases
  import opened Sets

  /** The row is the worker's own, and was assigned in the last fifteen minutes. */
  predicate IsOwn(row: Row, name: string, input: LockInput, at: int) {
    && row.enabled && (input.selector == None || name in input.selector.value)
    && row.assignedTo == Some(input.worker) && row.assignedAt.Some? && at - row.assignedAt.value <= 15 * 60
  }

  /** The row is nobody's, or was assigned more than fifteen minutes before. */
  predicate IsFree(row: Row, name: string, input: LockInput, at: int) {
    && row.enabled && (input.selector == None || name in input.selector.value)
    && (row.assignedAt.Some? ==> at - row.assignedAt.value > 15 * 60)
  }

  function Own(queues: Queues, c: Call): (names: set<string>)
    ensures names <= queues.Keys
  {
    set n | n in queues && IsOwn(queues[n], n, c.input, c.startedAt)
  }

  function FreeOnes(queues: Queues, c: Call): (names: set<string>)
    ensures names <= queues.Keys
  {
    set n | n in queues && IsFree(queues[n], n, c.input, c.startedAt)
  }

  /** How many of the set come before place `i` of a listing. */
  function Before(listing: seq<string>, s: set<string>, i: nat): nat
    requires i <= |listing|
  {
    |set n | n in listing[..i] && n in s|
  }

  /** One of the worker's own queues that it keeps: the first ones by name, up to the maximum. */
  ghost predicate Keeps(queues: Queues, c: Call, max: nat, n: string) {
    n in Own(queues, c) &&
    exists i :: 0 <= i < |c.byName| && c.byName[i] == n && Before(c.byName, Own(queues, c), i) < max
  }

  /** A free queue that it gets: all of them with a filter, and else the first ones that are listed, as
      many as there is room for; but none where its own ones are as many as the maximum. */
  ghost predicate Gets(queues: Queues, c: Call, max: nat, n: string) {
    var own, free := Own(queues, c), FreeOnes(queues, c);
    n in free && |own| < max &&
    exists i :: 0 <= i < |c.anyOrder| && c.anyOrder[i] == n
                && (c.input.executors != {} || |own| + Before(c.anyOrder, free, i) < max)
  }

  /** The definition of a job: by its own name, or by that of its definition. */
  predicate IsDefined(job: Job, defs: Definitions, item: QueueItem) {
    match job.definition
    case None => job.name in defs.jobs && defs.jobs[job.name] == item
    case Some(d) => d in defs.jobDefinitions && defs.jobDefinitions[d] == item
  }

  ghost predicate HasDefinition(job: Job, defs: Definitions) {
    exists item :: IsDefined(job, defs, item)
  }

  /** The executor is one of those that the worker asks for, and is defined; and each type of the item has a
      resource. */
  ghost predicate CanRun(item: QueueItem, defs: Definitions, input: LockInput) {
    && (input.executors == {} || item.executor in input.executors) && item.executor in defs.executors
    && forall t :: t in item.resourceTypes ==> t in defs.resourcesByType && exists r :: r in defs.resourcesByType[t]
  }

  ghost predicate Deliverable(row: Row, defs: Definitions, input: LockInput) {
    row.job.Some? && exists item :: IsDefined(row.job.value, defs, item) && CanRun(item, defs, input)
  }

  // ----- The queries -----

  function Filtered(listing: seq<string>, s: set<string>): seq<string> {
    if listing == [] then []
    else
      var n := |listing| - 1;
      Filtered(listing[..n], s) + if listing[n] in s then [listing[n]] else []
  }

  lemma {:induction false} QueriesAreFiltered(queues: Queues, c: Call, listing: seq<string>)
    ensures Assigned(queues, c.input, Cutoff(c), listing) == Filtered(listing, Own(queues, c))
    ensures Unassigned(queues, c.input, Cutoff(c), listing) == Filtered(listing, FreeOnes(queues, c))
  {
    if listing != [] {
      QueriesAreFiltered(queues, c, listing[..|listing| - 1]);
    }
  }

  lemma {:induction false} FilteredSize(listing: seq<string>, s: set<string>, i: nat)
    requires Distinct(listing) && i <= |listing|
    ensures |Filtered(listing[..i], s)| == Before(listing, s, i)
  {
    if i > 0 {
      FilteredSize(listing, s, i - 1);
      var was := set n | n in listing[..i - 1] && n in s;
      assert listing[..i] == listing[..i - 1] + [listing[i - 1]] && listing[i - 1] !in listing[..i - 1];
      assert (set n | n in listing[..i] && n in s) == if listing[i - 1] in s then was + {listing[i - 1]} else was;
    }
  }

  /** The place of a name among those that are listed. */
  lemma {:induction false} FilteredAt(listing: seq<string>, s: set<string>, i: nat, n: nat)
    requires Distinct(listing) && i < n <= |listing| && listing[i] in s
    ensures var k, all := Before(listing, s, i), Filtered(listing[..n], s); k < |all| && all[k] == listing[i]
  {
    FilteredSize(listing, s, i);
    assert listing[..n][..n - 1] == listing[..n - 1];
    if i < n - 1 {
      FilteredAt(listing, s, i, n - 1);
    }
  }

  lemma {:induction false} FilteredHas(listing: seq<string>, s: set<string>, x: string)
    ensures x in Filtered(listing, s) <==> x in listing && x in s
  {
    if listing != [] {
      var n := |listing| - 1;
      FilteredHas(listing[..n], s, x);
      assert listing == listing[..n] + [listing[n]];
    }
  }

  lemma {:induction false} FilteredOnce(listing: seq<string>, s: set<string>)
    requires Distinct(listing)
    ensures Distinct(Filtered(listing, s))
  {
    if listing != [] {
      var n := |listing| - 1;
      FilteredOnce(listing[..n], s);
      FilteredHas(listing[..n], s, listing[n]);
    }
  }

  /** The first `m` of those that are listed are those with fewer than `m` before them. */
  lemma FirstOnes(listing: seq<string>, s: set<string>, m: nat, x: string)
    requires Distinct(listing)
    ensures x in First(Filtered(listing, s), m)
       <==> x in s && exists i :: 0 <= i < |listing| && listing[i] == x && Before(listing, s, i) < m
  {
    var all := Filtered(listing, s);
    FilteredOnce(listing, s);
    FilteredHas(listing, s, x);
    assert listing[..|listing|] == listing;
    forall i | 0 <= i < |listing| && listing[i] == x && x in s
      ensures x in First(all, m) <==> Before(listing, s, i) < m
    {
      FilteredAt(listing, s, i, |listing|);
    }
    assert x in First(all, m) ==> x in all;
  }

  lemma AllOfThem(queues: Queues, listing: seq<string>, s: set<string>)
    requires Lists(queues, listing) && s <= queues.Keys
    ensures |Filtered(listing, s)| == |s|
  {
    FilteredSize(listing, s, |listing|);
    assert listing[..|listing|] == listing;
    assert (set n | n in listing && n in s) == s;
  }

  /** A call looks at a queue exactly where the worker keeps it or gets it. */
  lemma CandidateIff(queues: Queues, c: Call, max: nat, n: string)
    requires Possible(queues, c)
    ensures n in Candidates(queues, c, max) <==> Keeps(queues, c, max, n) || Gets(queues, c, max, n)
  {
    hide Assigned, Unassigned, Own, FreeOnes, Before;
    var own, free := Own(queues, c), FreeOnes(queues, c);
    QueriesAreFiltered(queues, c, c.byName);
    QueriesAreFiltered(queues, c, c.anyOrder);
    AllOfThem(queues, c.byName, own);
    FirstOnes(c.byName, own, max, n);
    FirstOnes(c.anyOrder, free, if |own| < max then max - |own| else 0, n);
    FilteredHas(c.anyOrder, free, n);
  }

  // ----- The rows -----

  lemma DeliverableIff(row: Row, defs: Definitions, input: LockInput)
    ensures Granted(Joined(row, defs), defs, input) <==> Deliverable(row, defs, input)
  {
    if row.job.Some? && Joined(row, defs).Some? {
      var item := Joined(row, defs).value;
      assert IsDefined(row.job.value, defs, item);
      CanRunIff(item, defs, input);
    }
  }

  lemma CanRunIff(item: QueueItem, defs: Definitions, input: LockInput)
    ensures CanRun(item, defs, input) <==> Granted(Some(item), defs, input)
  {
    forall t | t in defs.resourcesByType
      ensures defs.resourcesByType[t] != [] <==> exists r :: r in defs.resourcesByType[t]
    {
      assert defs.resourcesByType[t] != [] ==> defs.resourcesByType[t][0] in defs.resourcesByType[t];
    }
  }

  lemma BrokenIff(row: Row, defs: Definitions)
    ensures IsBroken(row, defs) <==> row.job.Some? && !HasDefinition(row.job.value, defs)
  {
    if row.job.Some? && Joined(row, defs).Some? {
      assert IsDefined(row.job.value, defs, Joined(row, defs).value);
    }
  }

  /** The worker loses one of its own queues exactly where it does not keep it. */
  lemma ExtraIff(queues: Queues, c: Call, max: nat, n: string)
    requires Possible(queues, c)
    ensures n in Extra(queues, c, max) <==> n in Own(queues, c) && !Keeps(queues, c, max, n)
  {
    var own := Own(queues, c);
    QueriesAreFiltered(queues, c, c.byName);
    FirstOnes(c.byName, own, max, n);
    FilteredHas(c.byName, own, n);
    FilteredOnce(c.byName, own);
    var all := Filtered(c.byName, own);
    assert |all| > max ==> all == all[..max] + all[max..];
  }

  /** The rows of a call, one by one.  The queue is in the response exactly where the worker keeps it or gets
      it and it can be delivered, and then it is the worker's from the refresh on; one that the worker does
      not keep is nobody's; one whose job has no definition is disabled; and all else is as it was. */
  lemma RowIs(queues: Queues, defs: Definitions, c: Call, max: nat, n: string)
    requires Possible(queues, c) && n in queues
    ensures forall m :: m in Candidates(queues, c, max) ==> m in queues
    ensures n in RowsAfter(queues, defs, c, max)
    ensures var row, after := queues[n], RowsAfter(queues, defs, c, max)[n];
            var looked := Keeps(queues, c, max, n) || Gets(queues, c, max, n);
            var given := looked && Deliverable(row, defs, c.input);
            && (n in ResponseTo(queues, defs, c, max).items <==> given)
            && after.job == row.job
            && (after.enabled
                <==> row.enabled && !(looked && row.job.Some? && !HasDefinition(row.job.value, defs)))
            && after.assignedAt == (if given then Some(c.refreshedAt)
                                    else if n in Own(queues, c) && !looked then None else row.assignedAt)
            && after.assignedTo == (if given then Some(c.input.worker)
                                    else if n in Own(queues, c) && !looked then None else row.assignedTo)
  {
    hide Own, Keeps, Gets, Deliverable, HasDefinition, Candidates, Extra, Collected, Granted, Joined, Distinct;
    CandidatesAre(queues, c, max);
    CandidateIff(queues, c, max, n);
    ExtraIff(queues, c, max, n);
    OwnIsNotFree(queues, c, max, n);
    GrantsAre(queues, defs, c.input, Candidates(queues, c, max));
    DeliverableIff(queues[n], defs, c.input);
    BrokenIff(queues[n], defs);
  }

  lemma OwnIsNotFree(queues: Queues, c: Call, max: nat, n: string)
    ensures n in Own(queues, c) ==> !Gets(queues, c, max, n)
  {
  }

  /** And the failed jobs are those of the queues that are looked at, and have no definition. */
  lemma FailedAre(queues: Queues, defs: Definitions, c: Call, max: nat, job: string)
    requires Possible(queues, c)
    ensures forall m :: m in Candidates(queues, c, max) ==> m in queues
    ensures job in Broken(queues, defs, Candidates(queues, c, max))
       <==> exists n :: n in queues && (Keeps(queues, c, max, n) || Gets(queues, c, max, n))
                        && queues[n].job.Some? && !HasDefinition(queues[n].job.value, defs)
                        && queues[n].job.value.name == job
  {
    CandidatesAre(queues, c, max);
    hide Own, Keeps, Gets, HasDefinition, Candidates, IsBroken;
    forall n | n in queues
      ensures n in Candidates(queues, c, max) <==> Keeps(queues, c, max, n) || Gets(queues, c, max, n)
      ensures IsBroken(queues[n], defs) <==> queues[n].job.Some? && !HasDefinition(queues[n].job.value, defs)
    {
      CandidateIff(queues, c, max, n);
      BrokenIff(queues[n], defs);
    }
  }

  // ----- What a worker can count on -----

  lemma ListedOwn(queues: Queues, c: Call, max: nat, n: string)
    requires Possible(queues, c) && n in Own(queues, c) && |Own(queues, c)| <= max
    ensures Keeps(queues, c, max, n)
  {
    var i :| 0 <= i < |c.byName| && c.byName[i] == n;
    FewerBefore(c.byName, Own(queues, c), i);
  }

  lemma ListedFree(queues: Queues, c: Call, max: nat, n: string)
    requires Possible(queues, c) && n in FreeOnes(queues, c) && |Own(queues, c)| < max
    requires c.input.executors != {} || |Own(queues, c)| + |FreeOnes(queues, c)| <= max
    ensures Gets(queues, c, max, n)
  {
    var i :| 0 <= i < |c.anyOrder| && c.anyOrder[i] == n;
    FewerBefore(c.anyOrder, FreeOnes(queues, c), i);
  }

  lemma FewerBefore(listing: seq<string>, s: set<string>, i: nat)
    requires Distinct(listing) && i < |listing| && listing[i] in s
    ensures Before(listing, s, i) < |s|
  {
    Fewer((set n | n in listing[..i] && n in s), s - {listing[i]});
  }

  /** As long as the worker has no more queues than the maximum, each of its own that can be delivered is
      renewed; and as long as there is room for them, it gets every free queue that can be delivered, also
      those that another worker has let go. */
  lemma HandsOut(queues: Queues, defs: Definitions, c: Call, max: nat, n: string)
    requires Possible(queues, c) && n in queues && Deliverable(queues[n], defs, c.input)
    requires || (n in Own(queues, c) && |Own(queues, c)| <= max)
             || (n in FreeOnes(queues, c) && |Own(queues, c)| < max
                 && (c.input.executors != {} || |Own(queues, c)| + |FreeOnes(queues, c)| <= max))
    ensures forall m :: m in Candidates(queues, c, max) ==> m in queues
    ensures n in ResponseTo(queues, defs, c, max).items
    ensures var row := RowsAfter(queues, defs, c, max)[n];
            row.assignedTo == Some(c.input.worker) && row.assignedAt == Some(c.refreshedAt)
  {
    hide Keeps, Gets, Deliverable, Own, FreeOnes;
    RowIs(queues, defs, c, max, n);
    if n in Own(queues, c) && |Own(queues, c)| <= max {
      ListedOwn(queues, c, max, n);
    } else {
      ListedFree(queues, c, max, n);
    }
  }

  /** A queue that is created is free, and one that is disabled is neither free nor anybody's own. */
  lemma CreatedAndDisabled(es: seq<Event>, name: string, job: Option<Job>, input: LockInput, at: int)
    requires Leases.After(es).Some? && (input.selector == None || name in input.selector.value)
    requires name !in Leases.After(es).value.queues
    ensures var made := Leases.After(es + [Create(name, job)]);
            && made.Some? && name in made.value.queues && made.value.queues[name].job == job
            && IsFree(made.value.queues[name], name, input, at)
    ensures var gone := Leases.After(es + [Create(name, job)] + [Disable(name)]);
            && gone.Some? && name in gone.value.queues
            && !IsFree(gone.value.queues[name], name, input, at) && !IsOwn(gone.value.queues[name], name, input, at)
  {
    var made := es + [Create(name, job)];
    assert made[..|made| - 1] == es && (made + [Disable(name)])[..|made|] == made;
  }

  /** Whatever happened before: a queue that any worker has let go, or never refreshed again, is handed to
      the next one that asks and has room for it. */
  lemma NextWorkerGetsIt(es: seq<Event>, defs: Definitions, c: Call, max: nat, n: string)
    requires Leases.After(es).Some?
    requires var w := Leases.After(es).value;
             && w.clock <= c.startedAt && Possible(w.queues, c)
             && n in w.queues && IsFree(w.queues[n], n, c.input, c.startedAt)
             && Deliverable(w.queues[n], defs, c.input) && |Own(w.queues, c)| < max
             && (c.input.executors != {} || |Own(w.queues, c)| + |FreeOnes(w.queues, c)| <= max)
    ensures Leases.After(es + [Lock(c, defs, max)]).Some?
    ensures var w := Leases.After(es + [Lock(c, defs, max)]).value;
            && c.input.worker in w.latest && n in w.latest[c.input.worker].names
            && n in w.queues && w.queues[n].assignedTo == Some(c.input.worker)
  {
    hide Deliverable, IsFree, Own, Possible, RowsAfter, ResponseTo, Candidates;
    var w := Leases.After(es).value;
    assert (es + [Lock(c, defs, max)])[..|es|] == es;
    HandsOut(w.queues, defs, c, max, n);
    RowIs(w.queues, defs, c, max, n);
  }

  /** A worker that has more queues than the maximum keeps as many as the maximum. */
  lemma KeepsTheMaximum(queues: Queues, c: Call, max: nat)
    requires Possible(queues, c) && |Own(queues, c)| >= max
    ensures |set n | n in Own(queues, c) && Keeps(queues, c, max, n)| == max
  {
    hide Own, Before;
    var own := Own(queues, c);
    AllOfThem(queues, c.byName, own);
    FilteredOnce(c.byName, own);
    hide Filtered;
    var kept := First(Filtered(c.byName, own), max);
    AsMany(kept);
    forall n
      ensures n in kept <==> n in own && Keeps(queues, c, max, n)
    {
      FirstOnes(c.byName, own, max, n);
    }
    assert (set n | n in own && Keeps(queues, c, max, n)) == set n | n in kept;
  }

  lemma {:induction false} AsMany(s: seq<string>)
    requires Distinct(s)
    ensures |set n | n in s| == |s|
  {
    if s != [] {
      var k := |s| - 1;
      AsMany(s[..k]);
      assert s == s[..k] + [s[k]] && s[k] !in s[..k];
      assert (set n | n in s) == (set n | n in s[..k]) + {s[k]};
    }
  }
}
