/** `sync_jobs_states`, stores/jobs_store.py, over the tables it changes in place. */
module JobsStore {
  import opened Options
  import opened JobStates
  import opened StateSync

  /** The columns of a row that a batch sets. */
  datatype JobValues = JobValues(name: JobId, cursor: Option<string>, completedAt: Option<int>, error: Option<string>)

  function ValuesOf(job: JobId, s: JobState): JobValues {
    JobValues(job, if Truthy(s.cursor) then s.cursor else None,
              if s.completion.Some? then Some(s.completion.value.at) else None,
              if s.completion.Some? then s.completion.value.error else None)
  }

  predicate HasValues(s: JobState) {
    Truthy(s.cursor) || s.completion.Some?
  }

  /** The update of a row, and of its queue when the job is over. */
  function SetColumns(row: Row, v: JobValues): Row {
    Row(if v.cursor.Some? then v.cursor else row.cursor,
        if v.completedAt.Some? then v.completedAt else row.completedAt,
        if v.error.Some? then v.error else row.error, row.enabled)
  }

  /** The table after an upsert of the rows, one after the other. */
  function Upserted(rows: seq<(Slot, string)>): map<Slot, string> {
    if rows == [] then map[] else Upserted(rows[..|rows| - 1])[rows[|rows| - 1].0 := rows[|rows| - 1].1]
  }

  /** The lists that the loop over the batch fills. */
  datatype Lists = Lists(jobs: seq<JobValues>, cursors: seq<(Slot, string)>, queues: seq<JobId>)

  /** The jobs with columns to set, in the order of the batch. */
  function AllValues(batch: Jobs, order: seq<JobId>): seq<JobValues> {
    if order == [] then []
    else
      var job := order[|order| - 1];
      AllValues(batch, order[..|order| - 1])
      + if HasValues(Get(batch, job)) then [ValuesOf(job, Get(batch, job))] else []
  }

  /** The jobs that are over. */
  function AllOver(batch: Jobs, order: seq<JobId>): seq<JobId> {
    if order == [] then []
    else
      var job := order[|order| - 1];
      AllOver(batch, order[..|order| - 1]) + if Get(batch, job).completion.Some? then [job] else []
  }

  lemma {:induction false} ValuesAre(batch: Jobs, order: seq<JobId>)
    ensures forall v :: v in AllValues(batch, order) <==>
              v.name in order && HasValues(Get(batch, v.name)) && v == ValuesOf(v.name, Get(batch, v.name))
    ensures forall j :: j in AllOver(batch, order) <==> j in order && Get(batch, j).completion.Some?
  {
    if order != [] {
      var n := |order| - 1;
      ValuesAre(batch, order[..n]);
      assert order == order[..n] + [order[n]];
    }
  }

  /** The rows with the columns of the first `n` values set. */
  function WithValues(jobs: map<JobId, Row>, values: seq<JobValues>): map<JobId, Row> {
    if values == [] then jobs
    else
      var init, v := WithValues(jobs, values[..|values| - 1]), values[|values| - 1];
      if v.name in init then init[v.name := SetColumns(init[v.name], v)] else init
  }

  /** Setting the same columns again changes nothing. */
  lemma {:induction false} ColumnsSet(jobs: map<JobId, Row>, batch: Jobs, values: seq<JobValues>, j: JobId)
    requires forall v :: v in values ==> v == ValuesOf(v.name, Get(batch, v.name))
    ensures WithValues(jobs, values).Keys == jobs.Keys
    ensures var v := ValuesOf(j, Get(batch, j));
            j in jobs ==> WithValues(jobs, values)[j] == if v in values then SetColumns(jobs[j], v) else jobs[j]
  {
    if values != [] {
      var n := |values| - 1;
      ColumnsSet(jobs, batch, values[..n], j);
      assert values == values[..n] + [values[n]];
      assert values[n] in values;
    }
  }

  lemma OneStateMore(rows: map<Slot, string>, space: Namespace, states: map<StateKey, string>, k: StateKey, x: string)
    ensures rows + Under(space, states[k := x]) == (rows + Under(space, states))[(space, k) := x]
  {
  }

  lemma NoStates(rows: map<Slot, string>, space: Namespace)
    ensures rows + Under(space, map[]) == rows
  {
  }

  lemma OneRowMore(rows: seq<(Slot, string)>, row: (Slot, string))
    ensures Upserted(rows + [row]) == Upserted(rows)[row.0 := row.1]
  {
  }

  lemma AcceptsIff(server: Server, batch: Jobs, order: seq<JobId>)
    requires Orders(order, batch)
    ensures Accepts(server, batch) <==> forall v :: v in AllValues(batch, order) ==> v.name in server.jobs
  {
    ValuesAre(batch, order);
    assert forall j :: j in batch && HasValues(batch[j]) ==> ValuesOf(j, batch[j]) in AllValues(batch, order);
  }

  /** The rows with the columns set, and the queues of the finished jobs disabled, are those after
      the batch. */
  lemma RowsAreUpdated(jobs: map<JobId, Row>, batch: Jobs, order: seq<JobId>, j: JobId)
    requires Orders(order, batch) && j in jobs
    ensures var rows := WithValues(jobs, AllValues(batch, order));
            && j in rows
            && (if j in AllOver(batch, order) then rows[j].(enabled := false) else rows[j])
               == UpdateRow(jobs[j], Get(batch, j))
  {
    ValuesAre(batch, order);
    ColumnsSet(jobs, batch, AllValues(batch, order), j);
    var s := Get(batch, j);
    assert j !in batch ==> s == BLANK;
    assert ValuesOf(j, s) in AllValues(batch, order) <==> j in order && HasValues(s);
  }

  /** The queues of the finished jobs are disabled. */
  function Disabled(rows: map<JobId, Row>, queues: seq<JobId>): map<JobId, Row> {
    map j | j in rows :: if j in queues then rows[j].(enabled := false) else rows[j]
  }

  lemma AllRowsAreUpdated(server: Server, batch: Jobs, order: seq<JobId>, ns: Namespaces)
    requires Orders(order, batch)
    ensures Disabled(WithValues(server.jobs, AllValues(batch, order)), AllOver(batch, order))
         == ApplyBatch(server, batch, order, ns).jobs
  {
    ValuesAre(batch, order);
    ColumnsSet(server.jobs, batch, AllValues(batch, order), "");
    hide AllOver, AllValues, WithValues, UpdateRow, ValuesOf;
    forall j | j in server.jobs
      ensures Disabled(WithValues(server.jobs, AllValues(batch, order)), AllOver(batch, order))[j]
           == UpdateRow(server.jobs[j], Get(batch, j))
    {
      RowsAreUpdated(server.jobs, batch, order, j);
    }
  }

  class Database {
    var jobs: map<JobId, Row>
    var states: map<Slot, string>

    ghost function View(): Server
      reads this
    {
      Server(jobs, states)
    }

    /** The rows of the states of one job. */
    method AppendStates(space: Namespace, states: map<StateKey, string>, rows0: seq<(Slot, string)>)
      returns (rows: seq<(Slot, string)>)
      ensures Upserted(rows) == Upserted(rows0) + Under(space, states)
    {
      rows := rows0;
      var todo := states.Keys;
      ghost var some: map<StateKey, string> := map[];
      NoStates(Upserted(rows0), space);
      hide Upserted, Under;
      while todo != {}
        invariant todo <= states.Keys && some.Keys == states.Keys - todo
        invariant forall k :: k in some ==> some[k] == states[k]
        invariant Upserted(rows) == Upserted(rows0) + Under(space, some)
      {
        var k :| k in todo;
        var row := ((space, k), states[k]);
        OneRowMore(rows, row);
        OneStateMore(Upserted(rows0), space, some, k, states[k]);
        rows := rows + [row];
        todo := todo - {k};
        some := some[k := states[k]];
      }
      assert some == states;
    }

    method Collect(batch: Jobs, order: seq<JobId>, ns: Namespaces) returns (l: Lists)
      ensures l.jobs == AllValues(batch, order) && l.queues == AllOver(batch, order)
      ensures Upserted(l.cursors) == StateRows(batch, order, ns)
    {
      l := Lists([], [], []);
      assert order[..0] == [];
      for k := 0 to |order|
        invariant l.jobs == AllValues(batch, order[..k]) && l.queues == AllOver(batch, order[..k])
        invariant Upserted(l.cursors) == StateRows(batch, order[..k], ns)
      {
        hide *;
        var job := order[k];
        assert order[..k + 1] == order[..k] + [job];
        var state := Get(batch, job);
        if state.completion.Some? {
          l := l.(queues := l.queues + [job]);
        }
        var rows := AppendStates(ns(job), state.states, l.cursors);
        l := l.(cursors := rows);
        if HasValues(state) {
          l := l.(jobs := l.jobs + [ValuesOf(job, state)]);
        }
      }
      assert order[..|order|] == order;
    }

    /** `bulk_update_mappings`, which raises where a row is missing. */
    method UpdateJobs(values: seq<JobValues>, ghost batch: Jobs) returns (ok: bool, rows: map<JobId, Row>)
      requires forall v :: v in values ==> v == ValuesOf(v.name, Get(batch, v.name))
      ensures ok <==> forall v :: v in values ==> v.name in jobs
      ensures ok ==> rows == WithValues(jobs, values)
    {
      rows := jobs;
      for k := 0 to |values|
        invariant rows == WithValues(jobs, values[..k])
        invariant forall i :: 0 <= i < k ==> values[i].name in jobs
      {
        assert values[..k + 1][..k] == values[..k];
        var v := values[k];
        assert v in values;
        ColumnsSet(jobs, batch, values[..k], v.name);
        if v.name !in rows {
          return false, rows;
        }
        rows := rows[v.name := SetColumns(rows[v.name], v)];
      }
      assert values[..|values|] == values;
      ok := true;
    }

    /** The whole call is one transaction: where a row is missing, nothing is applied. */
    method SyncJobsStates(batch: Jobs, order: seq<JobId>, ns: Namespaces) returns (ok: bool)
      requires Orders(order, batch)
      modifies this
      ensures ok <==> Accepts(old(View()), batch)
      ensures View() == if ok then ApplyBatch(old(View()), batch, order, ns) else old(View())
    {
      var l := Collect(batch, order, ns);
      AcceptsIff(View(), batch, order);
      ValuesAre(batch, order);
      AllRowsAreUpdated(View(), batch, order, ns);
      hide Disabled, UpdateRow, ValuesOf, StateRows, Upserted, AllValues, AllOver, WithValues, HasValues, Accepts;
      var rows;
      ok, rows := UpdateJobs(l.jobs, batch);
      if ok {
        jobs, states := Disabled(rows, l.queues), states + Upserted(l.cursors);
      }
    }
  }
}
