/** The server side of a flush, stores/jobs_store.py, and the whole write-behind path. */
module StateSync {
  import opened Options
  import opened JobStates

  type Namespace = string

  /** A row of the jobs table, with the `enabled` flag of its queue. */
  datatype Row = Row(cursor: Option<string>, completedAt: Option<int>, error: Option<string>, enabled: bool)

  /** `namespaces` is the definition name of each job, or the name of the job. */
  datatype Server = Server(jobs: map<JobId, Row>, states: map<(Namespace, StateKey), string>)

  type Namespaces = JobId -> Namespace

  // ----- sync_jobs_states -----

  /** The rows for the states of a job. */
  function Under(space: Namespace, states: map<StateKey, string>): map<(Namespace, StateKey), string> {
    map k | k in states :: (space, k) := states[k]
  }

  /** The rows to upsert, the last of a key winning, with the jobs in the order of the batch. */
  function StateRows(batch: Jobs, order: seq<JobId>, ns: Namespaces): map<(Namespace, StateKey), string> {
    if order == [] then map[]
    else
      var job := order[|order| - 1];
      StateRows(batch, order[..|order| - 1], ns)
      + Under(ns(job), Get(batch, job).states)
  }

  function UpdateRow(row: Row, s: JobState): Row {
    Row(if Truthy(s.cursor) then s.cursor else row.cursor,
        if s.completion.Some? then Some(s.completion.value.at) else row.completedAt,
        if s.completion.Some? && s.completion.value.error.Some? then s.completion.value.error else row.error,
        row.enabled && s.completion.None?)
  }

  /** Rows to update must be there, or the statement raises and nothing is applied. */
  ghost predicate Accepts(server: Server, batch: Jobs) {
    forall j :: j in batch && (Truthy(batch[j].cursor) || batch[j].completion.Some?) ==> j in server.jobs
  }

  function ApplyBatch(server: Server, batch: Jobs, order: seq<JobId>, ns: Namespaces): Server {
    Server(map j | j in server.jobs :: UpdateRow(server.jobs[j], Get(batch, j)),
           server.states + StateRows(batch, order, ns))
  }

  /** The batch of a flush, with the jobs in the order of the dictionary. */
  function Sent(server: Server, b: Buffer, ns: Namespaces): Server {
    ApplyBatch(server, b.jobs, b.order, ns)
  }

  /** `order` names each job of the batch. */
  ghost predicate Orders(order: seq<JobId>, batch: Jobs) {
    forall j :: j in order <==> j in batch
  }

  // ----- The reference: every write goes straight to the server -----

  function DirectRow(row: Row, w: Write): Row {
    match w
    case SetCursor(_, c) => row.(cursor := Some(c))
    case Complete(_, at) => row.(completedAt := Some(at), enabled := false)
    case Fail(_, at, e) => row.(completedAt := Some(at), error := Some(e), enabled := false)
    case SetState(_, _, _) => row
  }

  function Direct(server: Server, w: Write, ns: Namespaces): Server {
    Server(map j | j in server.jobs :: if j == w.job then DirectRow(server.jobs[j], w) else server.jobs[j],
           if w.SetState? then server.states[(ns(w.job), w.key) := w.value] else server.states)
  }

  function WriteThrough(server: Server, ws: seq<Write>, ns: Namespaces): Server {
    if ws == [] then server
    else Direct(WriteThrough(server, ws[..|ws| - 1], ns), ws[|ws| - 1], ns)
  }

  /** No job that failed is completed afterwards. */
  ghost predicate NoCompleteAfterFail(ws: seq<Write>) {
    forall i, k :: 0 <= i < k < |ws| && ws[i].Fail? && ws[k].Complete? ==> ws[i].job != ws[k].job
  }

  function JobsOf(ws: seq<Write>): set<JobId> {
    set i | 0 <= i < |ws| :: ws[i].job
  }

  // ----- The states table -----

  type Slot = (Namespace, StateKey)

  function Lookup(m: map<Slot, string>, r: Slot): Option<string> {
    if r in m then Some(m[r]) else None
  }

  /** What a batch holds for a slot: the last job of the order that has it wins. */
  function SlotInBatch(batch: Jobs, order: seq<JobId>, ns: Namespaces, r: Slot): Option<string> {
    if order == [] then None
    else
      var job := order[|order| - 1];
      if ns(job) == r.0 && r.1 in Get(batch, job).states then Some(Get(batch, job).states[r.1])
      else SlotInBatch(batch, order[..|order| - 1], ns, r)
  }

  /** What a stretch of writes leaves in a slot. */
  function SlotInWrites(ws: seq<Write>, ns: Namespaces, r: Slot): Option<string> {
    if ws == [] then None
    else
      var w := ws[|ws| - 1];
      if w.SetState? && (ns(w.job), w.key) == r then Some(w.value) else SlotInWrites(ws[..|ws| - 1], ns, r)
  }

  lemma {:induction false} StateRowsLookup(batch: Jobs, order: seq<JobId>, ns: Namespaces, r: Slot)
    ensures Lookup(StateRows(batch, order, ns), r) == SlotInBatch(batch, order, ns, r)
  {
    if order != [] {
      StateRowsLookup(batch, order[..|order| - 1], ns, r);
    }
  }

  lemma {:induction false} WriteThroughLookup(server: Server, ws: seq<Write>, ns: Namespaces, r: Slot)
    ensures Lookup(WriteThrough(server, ws, ns).states, r)
         == if SlotInWrites(ws, ns, r).Some? then SlotInWrites(ws, ns, r) else Lookup(server.states, r)
  {
    if ws != [] {
      WriteThroughLookup(server, ws[..|ws| - 1], ns, r);
    }
  }

  // ----- When a batch leaves the last write in a slot -----

  predicate Writes(ws: seq<Write>, ns: Namespaces, r: Slot, i: nat) {
    i < |ws| && ws[i].SetState? && (ns(ws[i].job), ws[i].key) == r
  }

  /** The first write of a job, to whatever. */
  function FirstAt(ws: seq<Write>, job: JobId): (i: nat)
    ensures i <= |ws|
    ensures i < |ws| ==> ws[i].job == job
    ensures forall k :: 0 <= k < i ==> ws[k].job != job
  {
    if ws == [] then 0
    else
      var i := FirstAt(ws[..|ws| - 1], job);
      if i < |ws| - 1 || ws[i].job == job then i else |ws|
  }

  /** The last write to a slot. */
  ghost predicate IsLast(ws: seq<Write>, ns: Namespaces, r: Slot, k: nat) {
    Writes(ws, ns, r, k) && forall i: nat :: k < i ==> !Writes(ws, ns, r, i)
  }

  /** Of the jobs that write to the slot, the one seen last, and its last write there. */
  ghost predicate IsSeenLast(ws: seq<Write>, ns: Namespaces, r: Slot, k: nat) {
    && Writes(ws, ns, r, k)
    && (forall i: nat :: Writes(ws, ns, r, i) ==> FirstAt(ws, ws[i].job) <= FirstAt(ws, ws[k].job))
    && (forall i: nat :: k < i && Writes(ws, ns, r, i) ==> ws[i].job != ws[k].job)
  }

  /** The last write to the slot is by the job that was seen last among its writers, or writes
      the same value. */
  ghost predicate KeepsSlot(ws: seq<Write>, ns: Namespaces, r: Slot) {
    forall i: nat, k: nat :: IsSeenLast(ws, ns, r, i) && IsLast(ws, ns, r, k) ==> ws[i].value == ws[k].value
  }

  ghost predicate KeepsSlots(ws: seq<Write>, ns: Namespaces) {
    forall r :: KeepsSlot(ws, ns, r)
  }

  lemma {:induction false} LastIsInWrites(ws: seq<Write>, ns: Namespaces, r: Slot) returns (k: int)
    ensures if k < 0 then SlotInWrites(ws, ns, r) == None && forall i: nat :: !Writes(ws, ns, r, i)
            else IsLast(ws, ns, r, k) && SlotInWrites(ws, ns, r) == Some(ws[k].value)
  {
    k := -1;
    if ws != [] {
      var n := |ws| - 1;
      if Writes(ws, ns, r, n) {
        k := n;
      } else {
        k := LastIsInWrites(ws[..n], ns, r);
        assert forall i: nat :: Writes(ws, ns, r, i) ==> Writes(ws[..n], ns, r, i);
      }
    }
  }

  /** The last write of a job to a state. */
  lemma {:induction false} LastOfJob(ws: seq<Write>, ns: Namespaces, job: JobId, key: StateKey) returns (k: int)
    ensures LastState(ws, job, key)
         == if k < 0 then None else if k < |ws| && ws[k].SetState? then Some(ws[k].value) else None
    ensures k >= 0 ==> Writes(ws, ns, (ns(job), key), k) && ws[k].job == job
    ensures forall i: nat :: k < i && Writes(ws, ns, (ns(job), key), i) ==> ws[i].job != job
  {
    k := -1;
    if ws != [] {
      var n := |ws| - 1;
      if ws[n].SetState? && ws[n].job == job && ws[n].key == key {
        k := n;
      } else {
        k := LastOfJob(ws[..n], ns, job, key);
        assert forall i: nat :: i < n && Writes(ws, ns, (ns(job), key), i) ==> Writes(ws[..n], ns, (ns(job), key), i);
      }
    }
  }

  lemma {:induction false} SeenAre(ws: seq<Write>, job: JobId)
    ensures job in FirstSeen(ws) <==> FirstAt(ws, job) < |ws|
  {
    if ws != [] {
      SeenAre(ws[..|ws| - 1], job);
    }
  }

  /** The order of the first writes is the order of the jobs. */
  lemma {:induction false} SeenInOrder(ws: seq<Write>)
    ensures var order := FirstSeen(ws);
            forall a, b :: 0 <= a < b < |order| ==> FirstAt(ws, order[a]) < FirstAt(ws, order[b])
  {
    if ws != [] {
      var init, job := ws[..|ws| - 1], ws[|ws| - 1].job;
      SeenInOrder(init);
      SeenAre(init, job);
      forall k | 0 <= k < |FirstSeen(init)|
        ensures FirstAt(ws, FirstSeen(init)[k]) == FirstAt(init, FirstSeen(init)[k]) < |init|
      {
        SeenAre(init, FirstSeen(init)[k]);
      }
    }
  }

  lemma SeenBefore(ws: seq<Write>, a: nat, b: nat)
    requires a < b < |FirstSeen(ws)|
    ensures FirstAt(ws, FirstSeen(ws)[a]) < FirstAt(ws, FirstSeen(ws)[b])
  {
    SeenInOrder(ws);
  }

  lemma {:induction false} BatchSlot(batch: Jobs, order: seq<JobId>, ns: Namespaces, r: Slot) returns (n: int)
    ensures if n < 0 then SlotInBatch(batch, order, ns, r) == None
            else
              && n < |order| && ns(order[n]) == r.0 && r.1 in Get(batch, order[n]).states
              && SlotInBatch(batch, order, ns, r) == Some(Get(batch, order[n]).states[r.1])
    ensures forall m :: 0 <= m < |order| && n < m ==> !(ns(order[m]) == r.0 && r.1 in Get(batch, order[m]).states)
  {
    n := -1;
    if order != [] {
      var m := |order| - 1;
      if ns(order[m]) == r.0 && r.1 in Get(batch, order[m]).states {
        n := m;
      } else {
        n := BatchSlot(batch, order[..m], ns, r);
      }
    }
  }

  /** A job that writes to a slot has it in its buffer. */
  lemma WriterHasSlot(ws: seq<Write>, ns: Namespaces, r: Slot, i: nat)
    requires Writes(ws, ns, r, i)
    ensures r.1 in Get(Fold(ws), ws[i].job).states
  {
    hide Fold, LastState;
    var k := LastOfJob(ws, ns, ws[i].job, r.1);
    FoldHoldsLastState(ws, ws[i].job, r.1);
  }

  /** A batch leaves the last write of the job that was seen last among the writers of a slot. */
  lemma SeenLastWins(ws: seq<Write>, ns: Namespaces, r: Slot) returns (k: int)
    ensures if k < 0 then SlotInBatch(Fold(ws), FirstSeen(ws), ns, r) == None && forall i: nat :: !Writes(ws, ns, r, i)
            else IsSeenLast(ws, ns, r, k) && SlotInBatch(Fold(ws), FirstSeen(ws), ns, r) == Some(ws[k].value)
  {
    hide Fold, LastState, SlotInBatch;
    var order := FirstSeen(ws);
    var n := BatchSlot(Fold(ws), order, ns, r);
    forall i: nat | Writes(ws, ns, r, i)
      ensures exists m :: 0 <= m <= n && order[m] == ws[i].job
    {
      WriterHasSlot(ws, ns, r, i);
      SeenAre(ws, ws[i].job);
      var m :| 0 <= m < |order| && order[m] == ws[i].job;
    }
    k := -1;
    if n >= 0 {
      FoldHoldsLastState(ws, order[n], r.1);
      k := LastOfJob(ws, ns, order[n], r.1);
      assert r == (ns(order[n]), r.1) && ws[k].job == order[n];
      forall i: nat | Writes(ws, ns, r, i)
        ensures FirstAt(ws, ws[i].job) <= FirstAt(ws, ws[k].job)
      {
        var m :| 0 <= m <= n && order[m] == ws[i].job;
        if m < n {
          SeenBefore(ws, m, n);
        }
      }
    }
  }

  lemma SeenLastIsOne(ws: seq<Write>, ns: Namespaces, r: Slot, i: nat, k: nat)
    requires IsSeenLast(ws, ns, r, i) && IsSeenLast(ws, ns, r, k)
    ensures i == k
  {
    assert FirstAt(ws, ws[i].job) == FirstAt(ws, ws[k].job);
  }

  /** A batch leaves in a slot what its writes leave one by one, if and only if it keeps the slot. */
  lemma KeepsSlotIff(ws: seq<Write>, ns: Namespaces, r: Slot)
    ensures SlotInBatch(Fold(ws), FirstSeen(ws), ns, r) == SlotInWrites(ws, ns, r) <==> KeepsSlot(ws, ns, r)
    ensures SlotInBatch(Fold(ws), FirstSeen(ws), ns, r).Some? <==> SlotInWrites(ws, ns, r).Some?
  {
    var i := SeenLastWins(ws, ns, r);
    var k := LastIsInWrites(ws, ns, r);
    hide SlotInBatch, SlotInWrites, Fold, FirstSeen, FirstAt;
    if KeepsSlot(ws, ns, r) {
    } else {
      var a: nat, b: nat :| IsSeenLast(ws, ns, r, a) && IsLast(ws, ns, r, b) && ws[a].value != ws[b].value;
      SeenLastIsOne(ws, ns, r, a, i);
    }
  }

  lemma {:induction false} FoldKeys(ws: seq<Write>)
    ensures Fold(ws).Keys == JobsOf(ws)
  {
    if ws != [] {
      var init := ws[..|ws| - 1];
      FoldKeys(init);
      assert JobsOf(ws) == JobsOf(init) + {ws[|ws| - 1].job};
    }
  }

  lemma SameTable(a: map<Slot, string>, b: map<Slot, string>)
    requires forall r :: Lookup(a, r) == Lookup(b, r)
    ensures a == b
  {
    assert forall r :: r in a ==> Lookup(a, r) == Lookup(b, r);
    assert forall r :: r in b ==> Lookup(a, r) == Lookup(b, r);
  }

  lemma SlotAfterBatch(server: Server, ws: seq<Write>, ns: Namespaces, r: Slot)
    ensures Lookup(server.states + StateRows(Fold(ws), FirstSeen(ws), ns), r)
            == Lookup(WriteThrough(server, ws, ns).states, r)
            <==> KeepsSlot(ws, ns, r)
  {
    hide StateRows, WriteThrough, SlotInWrites, SlotInBatch, Fold, FirstSeen, KeepsSlot;
    StateRowsLookup(Fold(ws), FirstSeen(ws), ns, r);
    WriteThroughLookup(server, ws, ns, r);
    KeepsSlotIff(ws, ns, r);
  }

  /** The upsert of a batch does to the states what its writes do one by one, if and only if the
      batch keeps every slot. */
  lemma StatesThroughIff(server: Server, ws: seq<Write>, ns: Namespaces)
    ensures server.states + StateRows(Fold(ws), FirstSeen(ws), ns) == WriteThrough(server, ws, ns).states
            <==> KeepsSlots(ws, ns)
  {
    hide StateRows, WriteThrough, Fold, FirstSeen, KeepsSlot, Lookup;
    var a, b := server.states + StateRows(Fold(ws), FirstSeen(ws), ns), WriteThrough(server, ws, ns).states;
    forall r
      ensures Lookup(a, r) == Lookup(b, r) <==> KeepsSlot(ws, ns, r)
    {
      SlotAfterBatch(server, ws, ns, r);
    }
    if KeepsSlots(ws, ns) {
      SameTable(a, b);
    }
  }

  // ----- The jobs table -----

  /** A failed job whose last completion, with no error, would hide the error from a batch. */
  predicate HidesError(s: JobState, w: Write) {
    w.Complete? && s.completion.Some? && s.completion.value.error.Some?
  }

  /** A row updated once for two writes is the row updated for one and then the other, but for an
      error that the second takes back in the buffer: exactly then the one update brings no error,
      while of two updates the server keeps the error of the first. */
  lemma RowThenWrite(row: Row, s: JobState, w: Write)
    requires w.SetCursor? ==> w.cursor != ""
    ensures HidesError(s, w) || UpdateRow(row, Written(s, w)) == DirectRow(UpdateRow(row, s), w)
    ensures HidesError(s, w) && row.error != s.completion.value.error ==>
              UpdateRow(row, Written(s, w)) != DirectRow(UpdateRow(row, s), w)
  {
  }

  /** The completion in a buffer is the last one written. */
  lemma {:induction false} FoldCompletion(ws: seq<Write>, job: JobId) returns (i: int)
    ensures var s := Get(Fold(ws), job);
            if i < 0 then s.completion == None
            else
              && i < |ws| && ws[i].job == job
              && s.completion == match ws[i]
                   case Complete(_, at) => Some(Completion(at, None))
                   case Fail(_, at, e) => Some(Completion(at, Some(e)))
                   case _ => None
    ensures i >= 0 ==> ws[i].Complete? || ws[i].Fail?
    ensures forall k :: 0 <= k < |ws| && i < k && ws[k].job == job ==> !ws[k].Complete? && !ws[k].Fail?
  {
    i := -1;
    if ws != [] {
      var init, w := ws[..|ws| - 1], ws[|ws| - 1];
      if w.job == job && (w.Complete? || w.Fail?) {
        i := |ws| - 1;
      } else {
        i := FoldCompletion(init, job);
      }
    }
  }

  lemma {:induction false} RowsThrough(server: Server, ws: seq<Write>, ns: Namespaces, j: JobId)
    requires Proper(ws) && NoCompleteAfterFail(ws) && j in server.jobs
    ensures j in WriteThrough(server, ws, ns).jobs
    ensures WriteThrough(server, ws, ns).jobs[j] == UpdateRow(server.jobs[j], Get(Fold(ws), j))
  {
    if ws != [] {
      var init, w := ws[..|ws| - 1], ws[|ws| - 1];
      RowsThrough(server, init, ns, j);
      if w.job == j {
        var i := FoldCompletion(init, j);
        RowThenWrite(server.jobs[j], Get(Fold(init), j), w);
      }
    }
  }

  lemma {:induction false} SameJobs(server: Server, ws: seq<Write>, ns: Namespaces)
    ensures WriteThrough(server, ws, ns).jobs.Keys == server.jobs.Keys
  {
    if ws != [] {
      SameJobs(server, ws[..|ws| - 1], ns);
    }
  }

  /** One batch does what its writes do one by one. */
  lemma BatchIsWriteThrough(server: Server, ws: seq<Write>, ns: Namespaces)
    requires Proper(ws) && NoCompleteAfterFail(ws) && KeepsSlots(ws, ns)
    ensures Sent(server, BufferOf(ws), ns) == WriteThrough(server, ws, ns)
  {
    hide KeepsSlots, StateRows, Fold, FirstSeen, NoCompleteAfterFail, WriteThrough;
    StatesThroughIff(server, ws, ns);
    SameJobs(server, ws, ns);
    forall j | j in server.jobs
      ensures WriteThrough(server, ws, ns).jobs[j] == UpdateRow(server.jobs[j], Get(Fold(ws), j))
    {
      RowsThrough(server, ws, ns, j);
    }
  }

  // ----- Repeating writes -----

  /** What a stretch of writes does to a row. */
  datatype Patch = Patch(cursor: Option<string>, at: Option<int>, error: Option<string>, completes: bool)

  function PatchOf(ws: seq<Write>, job: JobId): Patch {
    if ws == [] then Patch(None, None, None, false)
    else
      var p, w := PatchOf(ws[..|ws| - 1], job), ws[|ws| - 1];
      if w.job != job then p
      else
        match w
        case SetCursor(_, c) => p.(cursor := Some(c))
        case Complete(_, at) => p.(at := Some(at), completes := true)
        case Fail(_, at, e) => p.(at := Some(at), error := Some(e), completes := true)
        case SetState(_, _, _) => p
  }

  function Patched(row: Row, p: Patch): Row {
    Row(if p.cursor.Some? then p.cursor else row.cursor,
        if p.at.Some? then p.at else row.completedAt,
        if p.error.Some? then p.error else row.error,
        row.enabled && !p.completes)
  }

  lemma {:induction false} RowIsPatched(server: Server, ws: seq<Write>, ns: Namespaces, j: JobId)
    requires j in server.jobs
    ensures j in WriteThrough(server, ws, ns).jobs
    ensures WriteThrough(server, ws, ns).jobs[j] == Patched(server.jobs[j], PatchOf(ws, j))
  {
    if ws != [] {
      RowIsPatched(server, ws[..|ws| - 1], ns, j);
    }
  }

  /** Writing the same writes again changes nothing. */
  lemma WriteThroughTwice(server: Server, ws: seq<Write>, ns: Namespaces)
    ensures WriteThrough(WriteThrough(server, ws, ns), ws, ns) == WriteThrough(server, ws, ns)
  {
    hide WriteThrough, SlotInWrites, PatchOf;
    var once := WriteThrough(server, ws, ns);
    var twice := WriteThrough(once, ws, ns);
    SameJobs(server, ws, ns);
    SameJobs(once, ws, ns);
    forall j | j in server.jobs
      ensures once.jobs[j] == twice.jobs[j]
    {
      RowIsPatched(server, ws, ns, j);
      RowIsPatched(once, ws, ns, j);
    }
    forall r: Slot
      ensures Lookup(twice.states, r) == Lookup(once.states, r)
    {
      WriteThroughLookup(server, ws, ns, r);
      WriteThroughLookup(once, ws, ns, r);
    }
    SameTable(once.states, twice.states);
  }

  lemma {:induction false} WriteThroughSplit(server: Server, xs: seq<Write>, ys: seq<Write>, ns: Namespaces)
    ensures WriteThrough(server, xs + ys, ns) == WriteThrough(WriteThrough(server, xs, ns), ys, ns)
  {
    if ys == [] {
      assert xs + ys == xs;
    } else {
      assert (xs + ys)[..|xs + ys| - 1] == xs + ys[..|ys| - 1];
      WriteThroughSplit(server, xs, ys[..|ys| - 1], ns);
    }
  }

  /** A server that has the writes up to `b`, given those from `a` up to `c` again, has the
      writes up to `c`. */
  lemma Replay(server: Server, ws: seq<Write>, a: nat, b: nat, c: nat, ns: Namespaces)
    requires a <= b <= c <= |ws|
    ensures WriteThrough(WriteThrough(server, ws[..b], ns), ws[a..c], ns) == WriteThrough(server, ws[..c], ns)
  {
    var before := WriteThrough(server, ws[..a], ns);
    assert ws[..b] == ws[..a] + ws[a..b] && ws[a..c] == ws[a..b] + ws[b..c] && ws[..c] == ws[..b] + ws[b..c];
    WriteThroughSplit(server, ws[..a], ws[a..b], ns);
    WriteThroughSplit(WriteThrough(server, ws[..b], ns), ws[a..b], ws[b..c], ns);
    WriteThroughSplit(server, ws[..b], ws[b..c], ns);
    WriteThroughTwice(before, ws[a..b], ns);
  }

  // ----- Runs of writes and flushes -----

  /** `active` while a flush is under way, `delivered` when the server applied its batch.
      History: all the `writes`; the buffer starts at write `start`, the flushed state held
      those from `from`, and `served` counts the writes the server has. */
  datatype System = System(server: Server, store: Store, active: bool, delivered: bool,
                           writes: seq<Write>, from: nat, start: nat, served: nat)

  datatype Event =
    | Record(w: Write)
    | Begin
    | Deliver   // the server applies the batch
    | Succeed
    | Abort     // the flush raises, whether or not the server applied it

  function InitSystem(server: Server): System {
    System(server, Store(EMPTY, None), false, false, [], 0, 0, 0)
  }

  ghost predicate Enabled(s: System, e: Event) {
    match e
    case Record(_) => true
    case Begin => !s.active
    case Deliver =>
      && s.active && s.store.flushing.Some? && s.store.flushing.value.jobs != map[]
      && Accepts(s.server, s.store.flushing.value.jobs)
    case Succeed => s.active && s.store.flushing.Some? && (s.delivered || s.store.flushing.value.jobs == map[])
    case Abort => s.active && s.store.flushing.Some?
  }

  ghost function Next(s: System, e: Event, ns: Namespaces): System
    requires Enabled(s, e)
  {
    match e
    case Record(w) => s.(store := s.store.(current := ApplyTo(s.store.current, w)), writes := s.writes + [w])
    case Begin => s.(store := Begun(s.store), active := true, delivered := false, from := s.start, start := |s.writes|)
    case Deliver =>
      s.(server := Sent(s.server, s.store.flushing.value, ns), delivered := true,
         served := if s.served < s.start then s.start else s.served)
    case Succeed => s.(active := false)
    case Abort => s.(store := Failed(s.store), active := false, start := s.from)
  }

  ghost predicate BuffersInv(s: System) {
    && s.from <= s.start <= |s.writes|
    && s.store.current == BufferOf(s.writes[s.start..])
    && (s.store.flushing.Some? ==> s.store.flushing.value == BufferOf(s.writes[s.from..s.start]))
    && (s.active ==> s.store.flushing.Some?)
  }

  ghost predicate ServerInv(first: Server, s: System, ns: Namespaces) {
    && s.served <= |s.writes|
    && s.server == WriteThrough(first, s.writes[..s.served], ns)
    && (if s.active then s.from <= s.served <= s.start else s.start <= s.served)
    && (s.active && s.delivered ==> s.served == s.start)
  }

  /** The writes that the code keeps in order, wherever it flushes: every stretch keeps its slots. */
  ghost predicate Orderly(ws: seq<Write>, ns: Namespaces) {
    && Proper(ws) && NoCompleteAfterFail(ws)
    && forall a, c :: 0 <= a <= c <= |ws| ==> KeepsSlots(ws[a..c], ns)
  }

  lemma PartOfPart(ws: seq<Write>, a: nat, b: nat, c: nat, d: nat)
    requires a <= b <= |ws| && c <= d <= b - a
    ensures ws[a..b][c..d] == ws[a + c..a + d]
  {
    var part, same := ws[a..b][c..d], ws[a + c..a + d];
    assert forall i :: 0 <= i < d - c ==> part[i] == ws[a..b][c + i] == ws[a + c + i] == same[i];
  }

  lemma OrderlyPart(ws: seq<Write>, a: nat, b: nat, ns: Namespaces)
    requires Orderly(ws, ns) && a <= b <= |ws|
    ensures Orderly(ws[a..b], ns)
  {
    hide KeepsSlots;
    forall c, d | 0 <= c <= d <= |ws[a..b]|
      ensures KeepsSlots(ws[a..b][c..d], ns)
    {
      PartOfPart(ws, a, b, c, d);
    }
  }

  lemma OrderlyWhole(ws: seq<Write>, ns: Namespaces)
    requires Orderly(ws, ns)
    ensures KeepsSlots(ws, ns)
  {
    assert ws[0..|ws|] == ws;
  }

  /** Jobs of one namespace run one after the other: none writes between two writes of another. */
  ghost predicate OneByOne(ws: seq<Write>, ns: Namespaces) {
    forall a, b, c :: 0 <= a < b < c < |ws| && ws[a].job == ws[c].job && ns(ws[b].job) == ns(ws[a].job) ==>
      ws[b].job == ws[a].job
  }

  lemma LastIsSeenLast(ws: seq<Write>, ns: Namespaces, r: Slot, i: nat, k: nat)
    requires OneByOne(ws, ns) && IsSeenLast(ws, ns, r, i) && IsLast(ws, ns, r, k)
    ensures i == k
  {
    assert FirstAt(ws, ws[k].job) <= FirstAt(ws, ws[i].job) <= i <= k;
  }

  lemma OneByOneKeepsSlot(ws: seq<Write>, ns: Namespaces, r: Slot)
    requires OneByOne(ws, ns)
    ensures KeepsSlot(ws, ns, r)
  {
    hide OneByOne;
    forall i: nat, k: nat | IsSeenLast(ws, ns, r, i) && IsLast(ws, ns, r, k)
      ensures i == k
    {
      LastIsSeenLast(ws, ns, r, i, k);
    }
  }

  /** Then every stretch keeps its slots. */
  lemma OneByOneKeepsSlots(ws: seq<Write>, ns: Namespaces)
    requires OneByOne(ws, ns)
    ensures KeepsSlots(ws, ns)
  {
    hide *;
    forall r
      ensures KeepsSlot(ws, ns, r)
    {
      OneByOneKeepsSlot(ws, ns, r);
    }
    EachKept(ws, ns);
  }

  lemma EachKept(ws: seq<Write>, ns: Namespaces)
    requires forall r :: KeepsSlot(ws, ns, r)
    ensures KeepsSlots(ws, ns)
  {
  }

  lemma OneByOneIsOrderly(ws: seq<Write>, ns: Namespaces)
    requires Proper(ws) && NoCompleteAfterFail(ws) && OneByOne(ws, ns)
    ensures Orderly(ws, ns)
  {
    hide KeepsSlots;
    forall a, c | 0 <= a <= c <= |ws|
      ensures KeepsSlots(ws[a..c], ns)
    {
      OneByOneKeepsSlots(ws[a..c], ns);
    }
  }

  lemma BuffersStep(s: System, e: Event, ns: Namespaces)
    requires BuffersInv(s) && Enabled(s, e) && Proper(s.writes)
    requires e.Record? && e.w.SetCursor? ==> e.w.cursor != ""
    ensures BuffersInv(Next(s, e, ns))
  {
    hide ApplyBatch;
    match e
    case Record(w) => RecordStep(s, w, ns);
    case Begin =>
      assert s.writes[|s.writes|..] == [];
      assert s.writes[s.start..|s.writes|] == s.writes[s.start..];
    case Abort =>
      MergeIsBuffer(s.writes[s.from..s.start], s.writes[s.start..]);
      assert s.writes[s.from..s.start] + s.writes[s.start..] == s.writes[s.from..];
    case _ =>
  }

  lemma RecordStep(s: System, w: Write, ns: Namespaces)
    requires BuffersInv(s)
    ensures BuffersInv(Next(s, Record(w), ns))
  {
    var ws := s.writes + [w];
    assert ws[s.start..] == s.writes[s.start..] + [w];
    assert ws[s.start..][..|ws[s.start..]| - 1] == s.writes[s.start..];
    assert ws[s.from..s.start] == s.writes[s.from..s.start];
  }

  lemma EmptyBuffer(ws: seq<Write>)
    requires Fold(ws) == map[]
    ensures ws == []
  {
  }

  lemma ServerStep(first: Server, s: System, e: Event, ns: Namespaces)
    requires BuffersInv(s) && ServerInv(first, s, ns) && Enabled(s, e) && Orderly(s.writes, ns)
    ensures ServerInv(first, Next(s, e, ns), ns)
  {
    match e
    case Record(w) => assert (s.writes + [w])[..s.served] == s.writes[..s.served];
    case Deliver =>
      OrderlyPart(s.writes, s.from, s.start, ns);
      OrderlyWhole(s.writes[s.from..s.start], ns);
      BatchIsWriteThrough(s.server, s.writes[s.from..s.start], ns);
      Replay(first, s.writes, s.from, s.served, s.start, ns);
    case Succeed =>
      if s.store.flushing.value.jobs == map[] {
        EmptyBuffer(s.writes[s.from..s.start]);
      }
    case _ =>
  }

  ghost predicate Execution(first: Server, ns: Namespaces, ss: seq<System>, es: seq<Event>) {
    && |ss| == |es| + 1
    && ss[0] == InitSystem(first)
    && forall k :: 0 <= k < |es| ==> Enabled(ss[k], es[k]) && ss[k + 1] == Next(ss[k], es[k], ns)
  }

  lemma {:induction false} WritesGrow(first: Server, ns: Namespaces, ss: seq<System>, es: seq<Event>, k: nat, n: nat)
    requires Execution(first, ns, ss, es) && k <= n <= |es|
    ensures ss[k].writes <= ss[n].writes
  {
    if k < n {
      WritesGrow(first, ns, ss, es, k, n - 1);
    }
  }

  lemma {:induction false} ExecutionInv(first: Server, ns: Namespaces, ss: seq<System>, es: seq<Event>, k: nat)
    requires Execution(first, ns, ss, es) && k <= |es| && Orderly(ss[|es|].writes, ns)
    ensures BuffersInv(ss[k]) && ServerInv(first, ss[k], ns)
  {
    hide Orderly;
    if k > 0 {
      ExecutionInv(first, ns, ss, es, k - 1);
      OrderlyPrefix(first, ns, ss, es, k - 1);
      BuffersStep(ss[k - 1], es[k - 1], ns);
      ServerStep(first, ss[k - 1], es[k - 1], ns);
    } else {
      assert ss[0].writes[0..] == [];
    }
  }

  lemma OrderlyPrefix(first: Server, ns: Namespaces, ss: seq<System>, es: seq<Event>, k: nat)
    requires Execution(first, ns, ss, es) && k < |es| && Orderly(ss[|es|].writes, ns)
    ensures Orderly(ss[k].writes, ns) && Proper(ss[k].writes)
    ensures es[k].Record? && es[k].w.SetCursor? ==> es[k].w.cursor != ""
  {
    var ws := ss[|es|].writes;
    WritesGrow(first, ns, ss, es, k, |es|);
    WritesGrow(first, ns, ss, es, k + 1, |es|);
    OrderlyPart(ws, 0, |ss[k].writes|, ns);
    assert ws[0..|ss[k].writes|] == ss[k].writes;
    if es[k].Record? {
      assert ws[|ss[k].writes|] == ss[k + 1].writes[|ss[k].writes|] == es[k].w;
    }
  }

  /** The batch of the flush under way. */
  function InFlight(s: System): Buffer {
    if s.active && s.store.flushing.Some? then s.store.flushing.value else EMPTY
  }

  /** The first write that no flush has acknowledged. */
  function Unacknowledged(s: System): nat {
    if s.active then s.from else s.start
  }

  /** Whichever flushes fail, before or after the server applied them: the server has exactly
      the writes up to some point, one after the other, with none lost that a flush has
      acknowledged; and what is in flight and in the buffer completes it to all the writes. */
  lemma NoWriteIsLostOrReordered(first: Server, ns: Namespaces, ss: seq<System>, es: seq<Event>)
    requires Execution(first, ns, ss, es) && Orderly(ss[|es|].writes, ns)
    ensures var s := ss[|es|];
            && Unacknowledged(s) <= s.served <= |s.writes|
            && s.server == WriteThrough(first, s.writes[..s.served], ns)
            && Sent(Sent(s.server, InFlight(s), ns), s.store.current, ns) == WriteThrough(first, s.writes, ns)
  {
    ExecutionInv(first, ns, ss, es, |es|);
    var s := ss[|es|];
    var b := if s.served < s.start then s.start else s.served;
    hide Sent, BufferOf, KeepsSlots, WriteThrough, Next;
    FlightLands(first, ns, s);
    OrderlyPart(s.writes, s.start, |s.writes|, ns);
    assert s.writes[s.start..|s.writes|] == s.writes[s.start..] && s.writes[..|s.writes|] == s.writes;
    OrderlyWhole(s.writes[s.start..], ns);
    BatchIsWriteThrough(WriteThrough(first, s.writes[..b], ns), s.writes[s.start..], ns);
    Replay(first, s.writes, s.start, b, |s.writes|, ns);
  }

  lemma FlightLands(first: Server, ns: Namespaces, s: System)
    requires BuffersInv(s) && ServerInv(first, s, ns) && Orderly(s.writes, ns)
    ensures var b := if s.served < s.start then s.start else s.served;
            Sent(s.server, InFlight(s), ns) == WriteThrough(first, s.writes[..b], ns)
  {
    if s.active {
      OrderlyPart(s.writes, s.from, s.start, ns);
      OrderlyWhole(s.writes[s.from..s.start], ns);
      hide Sent, BufferOf, KeepsSlots, WriteThrough;
      BatchIsWriteThrough(s.server, s.writes[s.from..s.start], ns);
      Replay(first, s.writes, s.from, s.served, s.start, ns);
    } else {
      assert Sent(s.server, EMPTY, ns) == s.server;
    }
  }

  /** Nothing is flushed, and nothing is buffered. */
  predicate Settled(s: System) {
    !s.active && s.store.current.jobs == map[]
  }

  /** Between flushes, with nothing buffered, the server has all the writes. */
  lemma SettledServerHasAll(first: Server, ns: Namespaces, ss: seq<System>, es: seq<Event>)
    requires Execution(first, ns, ss, es) && Orderly(ss[|es|].writes, ns) && Settled(ss[|es|])
    ensures ss[|es|].server == WriteThrough(first, ss[|es|].writes, ns)
  {
    ExecutionInv(first, ns, ss, es, |es|);
    var s := ss[|es|];
    EmptyBuffer(s.writes[s.start..]);
    assert s.writes[..s.served] == s.writes;
  }

  // ----- Local reads -----

  lemma {:induction false} BuffersAlways(first: Server, ns: Namespaces, ss: seq<System>, es: seq<Event>, k: nat)
    requires Execution(first, ns, ss, es) && k <= |es| && Proper(ss[|es|].writes)
    ensures BuffersInv(ss[k])
  {
    if k > 0 {
      BuffersAlways(first, ns, ss, es, k - 1);
      WritesGrow(first, ns, ss, es, k - 1, |es|);
      WritesGrow(first, ns, ss, es, k, |es|);
      if es[k - 1].Record? {
        assert ss[|es|].writes[|ss[k - 1].writes|] == ss[k].writes[|ss[k - 1].writes|];
      }
      BuffersStep(ss[k - 1], es[k - 1], ns);
    } else {
      assert ss[0].writes[0..] == [];
    }
  }

  lemma ReadLocally(s: Store, job: JobId, keys: set<StateKey>, key: StateKey, flushed: seq<Write>, recent: seq<Write>)
    requires s.current == BufferOf(recent) && (s.flushing.Some? ==> s.flushing.value == BufferOf(flushed))
    requires key in keys
    ensures var read := LocalStates(s, job, keys);
            var last := if LastState(recent, job, key).Some? then LastState(recent, job, key)
                        else if s.flushing.Some? then LastState(flushed, job, key) else None;
            if last.Some? then key in read && read[key] == last.value else key !in read
  {
    hide Fold, LastState;
    FoldHoldsLastState(flushed, job, key);
    FoldHoldsLastState(recent, job, key);
    var states := GetStates(s.current.jobs, job, keys);
    if key !in states {
      assert key in keys - states.Keys;
    }
  }

  /** Whatever flushes began, succeeded or failed: a local read returns a value for each
      state that has an unacknowledged write, and any value it returns is the newest that
      this worker wrote. */
  lemma LocalReadsAreNeverStale(first: Server, ns: Namespaces, ss: seq<System>, es: seq<Event>,
                                job: JobId, keys: set<StateKey>, key: StateKey)
    requires Execution(first, ns, ss, es) && Proper(ss[|es|].writes) && key in keys
    ensures var s, read := ss[|es|], LocalStates(ss[|es|].store, job, keys);
            && Unacknowledged(s) <= |s.writes|
            && (LastState(s.writes[Unacknowledged(s)..], job, key).Some? ==> key in read)
            && (key in read ==> LastState(s.writes, job, key) == Some(read[key]))
  {
    BuffersAlways(first, ns, ss, es, |es|);
    var s := ss[|es|];
    var old_, flushed, recent := s.writes[..s.from], s.writes[s.from..s.start], s.writes[s.start..];
    assert s.writes[s.from..] == flushed + recent;
    assert s.writes == old_ + (flushed + recent);
    hide LocalStates, Fold, LastState, Next, Enabled;
    ReadLocally(s.store, job, keys, key, flushed, recent);
    LastStateSplit(flushed, recent, job, key);
    LastStateSplit(old_, flushed + recent, job, key);
  }

  // ----- Exactly when batching is faithful -----

  function BatchRows(server: Server, batch: Jobs): map<JobId, Row> {
    map j | j in server.jobs :: UpdateRow(server.jobs[j], Get(batch, j))
  }

  /** The jobs table after one flush of any first part of the writes is that of the writes one
      by one, if and only if no job that failed is completed afterwards. */
  lemma OneFlushIsFaithfulIff(server: Server, ws: seq<Write>, ns: Namespaces)
    requires Proper(ws)
    requires forall i :: 0 <= i < |ws| ==> ws[i].job in server.jobs && server.jobs[ws[i].job].error == None
    ensures (forall n :: 0 <= n <= |ws| ==> BatchRows(server, Fold(ws[..n])) == WriteThrough(server, ws[..n], ns).jobs)
            <==> NoCompleteAfterFail(ws)
  {
    hide WriteThrough;
    if NoCompleteAfterFail(ws) {
      forall n | 0 <= n <= |ws|
        ensures BatchRows(server, Fold(ws[..n])) == WriteThrough(server, ws[..n], ns).jobs
      {
        RowsOfBatch(server, ws[..n], ns);
      }
    } else {
      var i, k :| 0 <= i < k < |ws| && ws[i].Fail? && ws[k].Complete? && ws[i].job == ws[k].job;
      HiddenError(server, ws[..k + 1], ns, i);
      assert BatchRows(server, Fold(ws[..k + 1])) != WriteThrough(server, ws[..k + 1], ns).jobs;
    }
  }

  lemma RowsOfBatch(server: Server, ws: seq<Write>, ns: Namespaces)
    requires Proper(ws) && NoCompleteAfterFail(ws)
    ensures BatchRows(server, Fold(ws)) == WriteThrough(server, ws, ns).jobs
  {
    hide WriteThrough, Fold, UpdateRow;
    SameJobs(server, ws, ns);
    forall j | j in server.jobs
      ensures WriteThrough(server, ws, ns).jobs[j] == UpdateRow(server.jobs[j], Get(Fold(ws), j))
    {
      RowsThrough(server, ws, ns, j);
    }
  }

  lemma HiddenError(server: Server, ws: seq<Write>, ns: Namespaces, i: nat)
    requires i + 1 < |ws| && ws[i].Fail? && ws[|ws| - 1].Complete? && ws[i].job == ws[|ws| - 1].job
    requires ws[i].job in server.jobs && server.jobs[ws[i].job].error == None
    ensures BatchRows(server, Fold(ws)) != WriteThrough(server, ws, ns).jobs
  {
    hide WriteThrough;
    var j := ws[i].job;
    RowIsPatched(server, ws, ns, j);
    ErrorIsPatched(ws, i);
    assert Get(Fold(ws), j).completion == Some(Completion(ws[|ws| - 1].at, None));
    assert BatchRows(server, Fold(ws))[j].error == None;
  }

  lemma {:induction false} ErrorIsPatched(ws: seq<Write>, i: nat)
    requires i < |ws| && ws[i].Fail?
    ensures PatchOf(ws, ws[i].job).error.Some?
  {
    if i < |ws| - 1 {
      ErrorIsPatched(ws[..|ws| - 1], i);
    }
  }

  /** Two jobs that share a namespace: the server ends with a write that was overwritten. */
  lemma SharedNamespaceReorders(server: Server, i: JobId, j: JobId, ns: Namespaces)
    requires i != j && ns(i) == ns(j)
    ensures var ws := [SetState(j, "k", "1"), SetState(i, "k", "2"), SetState(j, "k", "3")];
            && Lookup(Sent(server, BufferOf(ws), ns).states, (ns(j), "k")) == Some("2")
            && Lookup(WriteThrough(server, ws, ns).states, (ns(j), "k")) == Some("3")
  {
    var ws := [SetState(j, "k", "1"), SetState(i, "k", "2"), SetState(j, "k", "3")];
    assert ws[..2][..1] == ws[..1] && ws[..1][..0] == [];
    assert FirstSeen(ws[..0]) == [] && FirstSeen(ws[..1]) == [j];
    assert FirstSeen(ws[..2]) == Seen(FirstSeen(ws[..1]), ws[..2][1].job) == [j, i];
    assert FirstSeen(ws) == [j, i];
    FoldHoldsLastState(ws, i, "k");
    StateRowsLookup(Fold(ws), [j, i], ns, (ns(j), "k"));
    WriteThroughLookup(server, ws, ns, (ns(j), "k"));
  }
}
