/** The write-behind buffer of a worker: worker/services/job_state/store.py. */
module JobStates {
  import opened Options

  type JobId = string
  type StateKey = string

  datatype Completion = Completion(at: int, error: Option<string>)

  /** The value of a `JobState` object. */
  datatype JobState = JobState(cursor: Option<string>, states: map<StateKey, string>, completion: Option<Completion>)

  const BLANK := JobState(None, map[], None)

  type Jobs = map<JobId, JobState>

  /** The value of a `JobsStates` object: a dictionary, and the order in which its keys came. */
  datatype Buffer = Buffer(jobs: Jobs, order: seq<JobId>)

  const EMPTY := Buffer(map[], [])

  predicate Truthy(c: Option<string>) {
    c.Some? && c.value != ""
  }

  /** `JobState.merge`; the merge of two completions is the new one. */
  function MergeJob(a: JobState, b: JobState): JobState {
    JobState(if Truthy(b.cursor) then b.cursor else a.cursor,
             a.states + b.states,
             if b.completion.Some? then b.completion else a.completion)
  }

  /** A key keeps its place in a dictionary, and a new one comes last. */
  function Seen(order: seq<JobId>, job: JobId): seq<JobId> {
    if job in order then order else order + [job]
  }

  function MergeOrder(a: seq<JobId>, b: seq<JobId>): seq<JobId> {
    if b == [] then a else Seen(MergeOrder(a, b[..|b| - 1]), b[|b| - 1])
  }

  /** `JobsStates.merge` */
  function MergeBuffers(a: Buffer, b: Buffer): Buffer {
    Buffer(MergeJobs(a.jobs, b.jobs), MergeOrder(a.order, b.order))
  }

  function MergeJobs(a: Jobs, b: Jobs): Jobs {
    map j | j in a.Keys + b.Keys ::
      if j !in b then a[j] else if j !in a then b[j] else MergeJob(a[j], b[j])
  }

  datatype Write =
    | SetCursor(job: JobId, cursor: string)
    | Complete(job: JobId, at: int)
    | Fail(job: JobId, at: int, error: string)
    | SetState(job: JobId, key: StateKey, value: string)

  /** What a write does to its job. */
  function Written(s: JobState, w: Write): JobState {
    match w
    case SetCursor(_, c) => s.(cursor := Some(c))
    case Complete(_, at) => s.(completion := Some(Completion(at, None)))
    case Fail(_, at, e) => s.(completion := Some(Completion(at, Some(e))))
    case SetState(_, k, v) => s.(states := s.states[k := v])
  }

  /** The dictionary makes a blank state on the first access. */
  function Get(js: Jobs, job: JobId): JobState {
    if job in js then js[job] else BLANK
  }

  function Apply(js: Jobs, w: Write): Jobs {
    js[w.job := Written(Get(js, w.job), w)]
  }

  function ApplyTo(b: Buffer, w: Write): Buffer {
    Buffer(Apply(b.jobs, w), Seen(b.order, w.job))
  }

  lemma AccessThenWrite(js: Jobs, w: Write)
    ensures var m := js[w.job := Get(js, w.job)]; m[w.job := Written(m[w.job], w)] == Apply(js, w)
  {
  }

  function Fold(ws: seq<Write>): Jobs {
    if ws == [] then map[] else Apply(Fold(ws[..|ws| - 1]), ws[|ws| - 1])
  }

  /** The jobs of a stretch of writes, in the order of their first writes. */
  function FirstSeen(ws: seq<Write>): seq<JobId> {
    if ws == [] then [] else Seen(FirstSeen(ws[..|ws| - 1]), ws[|ws| - 1].job)
  }

  /** The buffer of a stretch of writes. */
  function BufferOf(ws: seq<Write>): Buffer {
    Buffer(Fold(ws), FirstSeen(ws))
  }

  /** Cursors are not empty. */
  ghost predicate Proper(ws: seq<Write>) {
    forall i :: 0 <= i < |ws| && ws[i].SetCursor? ==> ws[i].cursor != ""
  }

  lemma MergeJobThenWrite(a: JobState, b: JobState, w: Write)
    requires w.SetCursor? ==> w.cursor != ""
    ensures MergeJob(a, Written(b, w)) == Written(MergeJob(a, b), w)
    ensures MergeJob(a, BLANK) == a
  {
    if w.SetState? {
      assert a.states + b.states[w.key := w.value] == (a.states + b.states)[w.key := w.value];
    }
  }

  lemma MergeThenWrite(a: Jobs, b: Jobs, w: Write)
    requires w.SetCursor? ==> w.cursor != ""
    ensures MergeJobs(a, Apply(b, w)) == Apply(MergeJobs(a, b), w)
  {
    MergeJobThenWrite(Get(a, w.job), Get(b, w.job), w);
  }

  /** Merging the buffers of two stretches of writes is the buffer of both, in order. */
  lemma {:induction false} MergeIsFold(xs: seq<Write>, ys: seq<Write>)
    requires Proper(ys)
    ensures MergeJobs(Fold(xs), Fold(ys)) == Fold(xs + ys)
  {
    if ys == [] {
      assert xs + ys == xs;
    } else {
      var init, w := ys[..|ys| - 1], ys[|ys| - 1];
      MergeIsFold(xs, init);
      MergeThenWrite(Fold(xs), Fold(init), w);
      assert (xs + ys)[..|xs + ys| - 1] == xs + init;
    }
  }

  lemma {:induction false} MergedOrderHas(a: seq<JobId>, b: seq<JobId>, job: JobId)
    ensures job in MergeOrder(a, b) <==> job in a || job in b
  {
    if b != [] {
      MergedOrderHas(a, b[..|b| - 1], job);
      assert b == b[..|b| - 1] + [b[|b| - 1]];
    }
  }

  lemma {:induction false} OrderIsFirstSeen(xs: seq<Write>, ys: seq<Write>)
    ensures MergeOrder(FirstSeen(xs), FirstSeen(ys)) == FirstSeen(xs + ys)
  {
    if ys == [] {
      assert xs + ys == xs;
    } else {
      var init, job := ys[..|ys| - 1], ys[|ys| - 1].job;
      OrderIsFirstSeen(xs, init);
      assert (xs + ys)[..|xs + ys| - 1] == xs + init;
      MergedOrderHas(FirstSeen(xs), FirstSeen(init), job);
      var all := FirstSeen(ys);
      assert job !in FirstSeen(init) ==> all[..|all| - 1] == FirstSeen(init);
    }
  }

  /** Merging the buffers of two stretches of writes is the buffer of both, with the jobs in the
      order of their first writes. */
  lemma MergeIsBuffer(xs: seq<Write>, ys: seq<Write>)
    requires Proper(ys)
    ensures MergeBuffers(BufferOf(xs), BufferOf(ys)) == BufferOf(xs + ys)
  {
    MergeIsFold(xs, ys);
    OrderIsFirstSeen(xs, ys);
  }

  /** Merging is exact for every buffer only because cursors are not empty: an empty one is
      dropped. */
  lemma EmptyCursorIsLost(job: JobId)
    ensures MergeJobs(Fold([SetCursor(job, "1")]), Fold([SetCursor(job, "")]))
         != Fold([SetCursor(job, "1"), SetCursor(job, "")])
  {
  }

  /** The value of the last write to a state. */
  function LastState(ws: seq<Write>, job: JobId, key: StateKey): Option<string> {
    if ws == [] then None
    else
      var w := ws[|ws| - 1];
      if w.SetState? && w.job == job && w.key == key then Some(w.value)
      else LastState(ws[..|ws| - 1], job, key)
  }

  lemma {:induction false} FoldHoldsLastState(ws: seq<Write>, job: JobId, key: StateKey)
    ensures var s := Get(Fold(ws), job);
            if key in s.states then LastState(ws, job, key) == Some(s.states[key])
            else LastState(ws, job, key) == None
  {
    if ws != [] {
      FoldHoldsLastState(ws[..|ws| - 1], job, key);
    }
  }

  lemma {:induction false} LastStateSplit(xs: seq<Write>, ys: seq<Write>, job: JobId, key: StateKey)
    ensures LastState(xs + ys, job, key)
         == if LastState(ys, job, key).Some? then LastState(ys, job, key) else LastState(xs, job, key)
  {
    if ys == [] {
      assert xs + ys == xs;
    } else {
      assert (xs + ys)[..|xs + ys| - 1] == xs + ys[..|ys| - 1];
      LastStateSplit(xs, ys[..|ys| - 1], job, key);
    }
  }

  /** `JobsStates.get_cursors_states` */
  function GetStates(js: Jobs, job: JobId, keys: set<StateKey>): (r: map<StateKey, string>)
    ensures r.Keys == Get(js, job).states.Keys * keys
    ensures forall k :: k in r ==> r[k] == Get(js, job).states[k]
  {
    if job in js then map k | k in js[job].states && k in keys :: js[job].states[k] else map[]
  }

  class JobStateObject {
    var cursor: Option<string>
    var states: map<StateKey, string>
    var completion: Option<Completion>

    ghost function View(): JobState
      reads this
    {
      JobState(cursor, states, completion)
    }

    constructor ()
      ensures View() == BLANK
    {
      cursor, states, completion := None, map[], None;
    }

    /** The assignment that a setter of the store makes. */
    method Record(w: Write)
      modifies this
      ensures View() == Written(old(View()), w)
    {
      match w {
        case SetCursor(_, c) => cursor := Some(c);
        case Complete(_, at) => completion := Some(Completion(at, None));
        case Fail(_, at, e) => completion := Some(Completion(at, Some(e)));
        case SetState(_, k, v) => states := states[k := v];
      }
    }

    method Merge(new_: JobStateObject)
      requires new_ != this
      modifies this
      ensures View() == MergeJob(old(View()), new_.View())
    {
      if new_.cursor.Some? && new_.cursor.value != "" {
        cursor := new_.cursor;
      }
      states := states + new_.states;
      if new_.completion.Some? {
        completion := new_.completion;
      }
    }
  }

  /** Each job has an object of its own. */
  ghost predicate Injective(jobs: map<JobId, JobStateObject>) {
    forall i, j :: i in jobs && j in jobs && i != j ==> jobs[i] != jobs[j]
  }

  ghost predicate Among(jobs: map<JobId, JobStateObject>, objects: set<object>) {
    forall j :: j in jobs ==> jobs[j] in objects
  }

  /** The `objects` of one buffer, and the jobs of another one that is merged into it: those of `rest`
      are not taken over yet. */
  ghost predicate Apart(objects: set<object>, others: map<JobId, JobStateObject>, rest: set<JobId>) {
    rest <= others.Keys && forall j :: j in rest ==> others[j] !in objects
  }

  lemma ApartStep(objects: set<object>, others: map<JobId, JobStateObject>, rest: set<JobId>, job: JobId)
    requires Apart(objects, others, rest) && job in rest && Injective(others)
    ensures others[job] !in objects
    ensures Apart(objects, others, rest - {job}) && Apart(objects + {others[job]}, others, rest - {job})
  {
  }

  class JobsStates {
    var jobs: map<JobId, JobStateObject>
    var order: seq<JobId>
    ghost var contents: Jobs
    ghost var objects: set<object>

    /** Each job has an object of its own, `contents` is what the objects hold, and `order` names
        the jobs as they came. */
    ghost predicate Valid()
      reads this, objects
    {
      && this !in objects && Among(jobs, objects) && Injective(jobs)
      && contents.Keys == jobs.Keys
      && (forall j :: j in jobs ==> contents[j] == jobs[j].View())
      && EachOnce(order, jobs.Keys)
    }

    ghost function View(): Buffer
      reads this
    {
      Buffer(contents, order)
    }

    constructor ()
      ensures Valid() && View() == EMPTY && objects == {}
    {
      jobs, order, contents, objects := map[], [], map[], {};
    }

    /** The access of a `defaultdict`. */
    method Access(job: JobId) returns (state: JobStateObject)
      requires Valid()
      modifies this
      ensures Valid() && job in jobs && state == jobs[job] && state in objects
      ensures View() == Buffer(old(contents)[job := Get(old(contents), job)], Seen(old(order), job))
      ensures jobs == old(jobs)[job := state]
      ensures if job in old(jobs) then state == old(jobs[job]) && state in old(objects) else fresh(state)
      ensures objects == old(objects) + {state}
    {
      assert job in jobs ==> jobs[job] in objects && Seen(order, job) == order && job in contents;
      hide Valid, Seen;
      if job !in jobs {
        var blank := new JobStateObject();
        TakeOver(job, blank);
      }
      state := jobs[job];
    }

    /** One turn of the loop of `merge`; the object of a job that is new here is taken over. */
    method MergeOne(job: JobId, state: JobStateObject)
      requires Valid() && state !in objects
      modifies this, if job in jobs then {jobs[job]} else {}
      ensures Valid() && objects == if job in old(jobs) then old(objects) else old(objects) + {state}
      ensures jobs == if job in old(jobs) then old(jobs) else old(jobs)[job := state]
      ensures View() == Buffer(MergedAt(old(contents), job, old(state.View())), Seen(old(order), job))
    {
      assert job in jobs ==> Seen(order, job) == order;
      hide Valid, EachOnce;
      if job in jobs {
        MergeInto(job, state);
      } else {
        TakeOver(job, state);
      }
    }

    method MergeInto(job: JobId, state: JobStateObject)
      requires Valid() && state !in objects && job in jobs
      modifies this`contents, jobs[job]
      ensures Valid() && contents == MergedAt(old(contents), job, old(state.View()))
    {
      hide EachOnce, MergeJob;
      contents := MergedAt(contents, job, state.View());
      jobs[job].Merge(state);
    }

    method TakeOver(job: JobId, state: JobStateObject)
      requires Valid() && state !in objects && job !in jobs
      modifies this
      ensures Valid() && jobs == old(jobs)[job := state] && objects == old(objects) + {state}
      ensures View() == Buffer(MergedAt(old(contents), job, old(state.View())), Seen(old(order), job))
    {
      contents := MergedAt(contents, job, state.View());
      jobs, order, objects := jobs[job := state], order + [job], objects + {state};
    }

    method Record(w: Write)
      requires Valid()
      modifies this, objects
      ensures Valid() && View() == ApplyTo(old(View()), w)
      ensures fresh(objects - old(objects))
    {
      hide Written, Get, Apply, Seen, Valid;
      AccessThenWrite(contents, w);
      var _ := Access(w.job);
      RecordAt(w);
    }

    method RecordAt(w: Write)
      requires Valid() && w.job in jobs
      modifies this`contents, jobs[w.job]
      ensures Valid() && contents == old(contents)[w.job := Written(old(contents)[w.job], w)]
    {
      hide Written;
      jobs[w.job].Record(w);
      contents := contents[w.job := Written(contents[w.job], w)];
    }

    method GetCursorsStates(job: JobId, keys: set<StateKey>) returns (r: map<StateKey, string>)
      requires Valid()
      ensures r == GetStates(contents, job, keys)
    {
      r := map[];
      if job in jobs {
        var states := jobs[job].states;
        r := map k | k in states && k in keys :: states[k];
      }
    }

    /** Between two turns of `merge`: the first `n` jobs are merged into what was `before`. */
    ghost predicate Merging(new_: JobsStates, n: nat, before: Buffer, mine: set<object>)
      reads this, objects, new_, new_.objects
    {
      && n <= |new_.order| && Valid() && new_.Valid() && this !in new_.objects && mine !! new_.objects
      && objects <= mine + new_.objects && Apart(objects, new_.jobs, Rest(new_.order, n))
      && (forall j :: j in jobs && j in before.jobs ==> jobs[j] in mine)
      && View() == MergeBuffers(before, FirstOf(new_.View(), n))
    }

    method MergeTurn(new_: JobsStates, n: nat, ghost before: Buffer, ghost mine: set<object>)
      requires Merging(new_, n, before, mine) && n < |new_.order| && new_ != this && new_ !in mine
      modifies this, mine
      ensures Merging(new_, n + 1, before, mine)
    {
      hide Valid, Apart, Among, Rest, FirstOf, MergeBuffers, MergedAt, Seen;
      MergeTurnReady(new_, n, before, mine);
      var job := new_.order[n];
      MergeOne(job, new_.jobs[job]);
    }

    lemma MergeTurnReady(new_: JobsStates, n: nat, before: Buffer, mine: set<object>)
      requires Merging(new_, n, before, mine) && n < |new_.order|
      ensures var job := new_.order[n];
              && job in new_.jobs && new_.jobs[job] in new_.objects - objects
              && (job in jobs ==> jobs[job] in mine) && (job in jobs <==> job in before.jobs)
              && Apart(objects, new_.jobs, Rest(new_.order, n + 1))
              && Apart(objects + {new_.jobs[job]}, new_.jobs, Rest(new_.order, n + 1))
              && MergeBuffers(before, FirstOf(new_.View(), n + 1))
                 == Buffer(MergedAt(contents, job, new_.jobs[job].View()), Seen(order, job))
    {
      hide Apart, FirstOf, MergeBuffers, MergedAt, Seen, Rest;
      var job, incoming := new_.order[n], new_.View();
      RestShrinks(incoming.order, n, incoming.jobs.Keys);
      MergeMore(before, incoming, n);
      ApartStep(objects, new_.jobs, Rest(incoming.order, n), job);
    }

    ghost predicate Mergeable(new_: JobsStates)
      reads this, objects, new_, new_.objects
    {
      && Valid() && new_.Valid() && objects !! new_.objects
      && this !in new_.objects && new_ !in objects && new_ !in new_.objects
    }

    lemma MergeBegins(new_: JobsStates)
      requires Mergeable(new_)
      ensures Merging(new_, 0, View(), objects)
    {
      MergeNothing(View(), new_.View());
    }

    lemma MergeEnds(new_: JobsStates, before: Buffer, mine: set<object>)
      requires Merging(new_, |new_.order|, before, mine)
      ensures Valid() && objects <= mine + new_.objects && View() == MergeBuffers(before, new_.View())
    {
      MergeNothing(before, new_.View());
    }

    method Merge(new_: JobsStates)
      requires Mergeable(new_) && new_ != this
      modifies this, objects
      ensures Valid() && objects <= old(objects) + new_.objects
      ensures View() == MergeBuffers(old(View()), old(new_.View()))
    {
      ghost var before, mine := View(), objects;
      MergeBegins(new_);
      assert new_ !in mine;
      hide *;
      for n := 0 to |new_.order|
        invariant Merging(new_, n, before, mine)
      {
        MergeTurn(new_, n, before, mine);
      }
      MergeEnds(new_, before, mine);
    }
  }

  /** The value of a `JobsStatesSyncStore` object.  A flush that succeeds leaves what it
      flushed in `flushing`. */
  datatype Store = Store(current: Buffer, flushing: Option<Buffer>)

  function Begun(s: Store): Store {
    Store(EMPTY, Some(s.current))
  }

  function Failed(s: Store): Store
    requires s.flushing.Some?
  {
    Store(MergeBuffers(s.flushing.value, s.current), None)
  }

  /** `get_local_cursors_states` */
  function LocalStates(s: Store, job: JobId, keys: set<StateKey>): map<StateKey, string> {
    var states := GetStates(s.current.jobs, job, keys);
    var missing := keys - states.Keys;
    if missing != {} && s.flushing.Some? then states + GetStates(s.flushing.value.jobs, job, missing) else states
  }

  class JobsStatesSyncStore {
    var current: JobsStates
    var flushing: JobsStates?

    ghost function Parts(): set<object>
      reads this, current, flushing
    {
      {current} + current.objects + if flushing == null then {} else {flushing} + flushing.objects
    }

    ghost predicate Valid()
      reads this, current, current.objects, flushing, if flushing == null then {} else flushing.objects
    {
      && this !in Parts() && current.Valid()
      && (flushing != null ==>
            && flushing.Valid() && flushing != current
            && current.objects !! flushing.objects
            && current !in flushing.objects && flushing !in current.objects)
    }

    ghost function View(): Store
      reads this, current, flushing
    {
      Store(current.View(), if flushing == null then None else Some(flushing.View()))
    }

    constructor ()
      ensures Valid() && View() == Store(EMPTY, None) && fresh(Parts())
    {
      current := new JobsStates();
      flushing := null;
    }

    /** The four setters. */
    method Record(w: Write)
      requires Valid()
      modifies current, current.objects
      ensures Valid() && View() == Store(ApplyTo(old(View()).current, w), old(View()).flushing)
      ensures fresh(Parts() - old(Parts()))
    {
      current.Record(w);
    }

    /** Entering `flush`. */
    method BeginFlush()
      requires Valid()
      modifies this
      ensures Valid() && View() == Begun(old(View()))
      ensures flushing == old(current) && fresh(current)
    {
      flushing := current;
      current := new JobsStates();
    }

    /** The `except` of `flush`: the state is restored, and merged with what changed since. */
    method AbortFlush()
      requires Valid() && flushing != null
      modifies this, flushing, flushing.objects
      ensures Valid() && View() == Failed(old(View()))
    {
      flushing.Merge(current);
      current := flushing;
      flushing := null;
    }

    method GetLocalStates(job: JobId, keys: set<StateKey>) returns (states: map<StateKey, string>)
      requires Valid()
      ensures states == LocalStates(View(), job, keys)
    {
      states := current.GetCursorsStates(job, keys);
      var missing := keys - states.Keys;
      if missing != {} && flushing != null {
        var more := flushing.GetCursorsStates(job, missing);
        states := states + more;
      }
    }
  }

  function MergedAt(js: Jobs, job: JobId, state: JobState): Jobs {
    js[job := if job in js then MergeJob(js[job], state) else state]
  }

  predicate EachOnce(order: seq<JobId>, jobs: set<JobId>) {
    && (forall j :: j in order ==> j in jobs) && (forall j :: j in jobs ==> j in order)
    && (forall i, k :: 0 <= i < k < |order| ==> order[i] != order[k])
  }

  /** The jobs from the `n`th on. */
  function Rest(order: seq<JobId>, n: nat): set<JobId>
    requires n <= |order|
  {
    set k | n <= k < |order| :: order[k]
  }

  lemma RestShrinks(order: seq<JobId>, n: nat, jobs: set<JobId>)
    requires EachOnce(order, jobs) && n < |order|
    ensures order[n] in Rest(order, n) && Rest(order, n + 1) == Rest(order, n) - {order[n]}
  {
  }

  /** A buffer of the first `n` jobs only. */
  function FirstOf(b: Buffer, n: nat): Buffer
    requires n <= |b.order|
  {
    Buffer(b.jobs - Rest(b.order, n), b.order[..n])
  }

  lemma MergeNothing(a: Buffer, b: Buffer)
    requires EachOnce(b.order, b.jobs.Keys)
    ensures MergeBuffers(a, FirstOf(b, 0)) == a && FirstOf(b, |b.order|) == b
    ensures Rest(b.order, 0) == b.jobs.Keys
  {
    assert FirstOf(b, 0) == EMPTY;
    assert FirstOf(b, |b.order|).jobs == b.jobs;
  }

  lemma MergeMore(a: Buffer, b: Buffer, n: nat)
    requires EachOnce(b.order, b.jobs.Keys) && n < |b.order| && b.order[n] in b.jobs
    ensures var m, job := MergeBuffers(a, FirstOf(b, n)), b.order[n];
            && (job in m.jobs <==> job in a.jobs)
            && MergeBuffers(a, FirstOf(b, n + 1))
               == Buffer(MergedAt(m.jobs, job, b.jobs[job]), Seen(m.order, job))
  {
    RestShrinks(b.order, n, b.jobs.Keys);
    assert b.order[..n + 1][..n] == b.order[..n];
    MergeOneMore(a.jobs, b.jobs, Rest(b.order, n), b.order[n]);
    hide MergeJobs, MergedAt, EachOnce, Rest;
  }

  lemma MergeOneMore(a: Jobs, b: Jobs, rest: set<JobId>, job: JobId)
    requires job in rest && rest <= b.Keys
    ensures var m := MergeJobs(a, b - rest);
            && (job in m <==> job in a)
            && MergeJobs(a, b - (rest - {job})) == MergedAt(m, job, b[job])
  {
  }
}
