/** The coalescing fetch of cursors states: `FormattedRequest` and `CursorsStatesFetcher`,
    worker/services/job_state/service.py. */
module Fetcher {
  import opened Options
  import T = Throttle

  type Job = string
  type Cursor = string
  type Key = string

  datatype Format = Raw | Sha256

  /** How a cursor is turned into the key the server stores; hashing is not interpreted. */
  type Formatting = (Format, Cursor) -> Key

  // ----- FormattedRequest -----

  function KeysOf(c: Cursor, formats: seq<Format>, fmt: Formatting): set<Key> {
    set f | f in formats :: fmt(f, c)
  }

  /** `by_formatted`: of the cursors that share a key, the last one has it. */
  function ByFormatted(cursors: seq<Cursor>, formats: seq<Format>, fmt: Formatting): map<Key, Cursor> {
    if cursors == [] then map[]
    else
      var c := cursors[|cursors| - 1];
      ByFormatted(cursors[..|cursors| - 1], formats, fmt) + map k | k in KeysOf(c, formats, fmt) :: c
  }

  function FormatAll(c: Cursor, formats: seq<Format>, fmt: Formatting): seq<Key> {
    seq(|formats|, i requires 0 <= i < |formats| => fmt(formats[i], c))
  }

  function ByCursor(cursors: seq<Cursor>, formats: seq<Format>, fmt: Formatting): map<Cursor, seq<Key>> {
    if cursors == [] then map[]
    else
      var c := cursors[|cursors| - 1];
      ByCursor(cursors[..|cursors| - 1], formats, fmt)[c := FormatAll(c, formats, fmt)]
  }

  lemma FormattedKeys(c: Cursor, formats: seq<Format>, fmt: Formatting)
    ensures (set k | k in FormatAll(c, formats, fmt)) == KeysOf(c, formats, fmt)
  {
    var formatted := FormatAll(c, formats, fmt);
    forall k | k in KeysOf(c, formats, fmt)
      ensures k in formatted
    {
      var f :| f in formats && k == fmt(f, c);
      var i :| 0 <= i < |formats| && formats[i] == f;
      assert formatted[i] == k;
    }
  }

  /** `from_cursors`, with the two dictionaries it fills. */
  method FromCursors(cursors: seq<Cursor>, formats: seq<Format>, fmt: Formatting)
    returns (byCursor: map<Cursor, seq<Key>>, byFormatted: map<Key, Cursor>)
    ensures byFormatted == ByFormatted(cursors, formats, fmt)
    ensures byCursor == ByCursor(cursors, formats, fmt)
  {
    byCursor, byFormatted := map[], map[];
    for n := 0 to |cursors|
      invariant byFormatted == ByFormatted(cursors[..n], formats, fmt)
      invariant byCursor == ByCursor(cursors[..n], formats, fmt)
    {
      var c := cursors[n];
      var formatted := FormatAll(c, formats, fmt);
      byCursor := byCursor[c := formatted];
      byFormatted := byFormatted + map k | k in formatted :: c;
      NextCursor(cursors, n, formats, fmt);
    }
    assert cursors[..|cursors|] == cursors;
  }

  lemma NextCursor(cursors: seq<Cursor>, n: nat, formats: seq<Format>, fmt: Formatting)
    requires n < |cursors|
    ensures ByFormatted(cursors[..n + 1], formats, fmt)
         == ByFormatted(cursors[..n], formats, fmt) + map k | k in FormatAll(cursors[n], formats, fmt) :: cursors[n]
    ensures ByCursor(cursors[..n + 1], formats, fmt)
         == ByCursor(cursors[..n], formats, fmt)[cursors[n] := FormatAll(cursors[n], formats, fmt)]
  {
    assert cursors[..n + 1][..n] == cursors[..n];
    FormattedKeys(cursors[n], formats, fmt);
    var c := cursors[n];
    assert (map k | k in KeysOf(c, formats, fmt) :: c) == map k | k in FormatAll(c, formats, fmt) :: c;
  }

  /** Every key of a cursor is asked for, and is taken for a cursor that has it. */
  lemma {:induction false} ByFormattedKeys(cursors: seq<Cursor>, formats: seq<Format>, fmt: Formatting, k: Key)
    ensures var m := ByFormatted(cursors, formats, fmt);
            && (k in m <==> exists c :: c in cursors && k in KeysOf(c, formats, fmt))
            && (k in m ==> m[k] in cursors && k in KeysOf(m[k], formats, fmt))
  {
    if cursors != [] {
      ByFormattedKeys(cursors[..|cursors| - 1], formats, fmt, k);
    }
  }

  // ----- The response -----

  /** The states of the response, taken back to cursors: `keys` in the order of the response,
      `answers` the keys for which the server has a state. */
  function Mapped<V>(keys: seq<Key>, answers: map<Key, V>, byFormatted: map<Key, Cursor>): map<Cursor, V> {
    if keys == [] then map[]
    else
      var k := keys[|keys| - 1];
      var r := Mapped(keys[..|keys| - 1], answers, byFormatted);
      if k in answers && k in byFormatted then r[byFormatted[k] := answers[k]] else r
  }

  lemma {:induction false} MappedIff<V>(keys: seq<Key>, answers: map<Key, V>, byFormatted: map<Key, Cursor>, c: Cursor)
    ensures var r := Mapped(keys, answers, byFormatted);
            && (c in r <==> exists k :: k in keys && k in answers && k in byFormatted && byFormatted[k] == c)
            && (c in r ==>
                  exists k :: k in keys && k in answers && k in byFormatted && byFormatted[k] == c
                              && answers[k] == r[c])
  {
    if keys != [] {
      var init := keys[..|keys| - 1];
      MappedIff(init, answers, byFormatted, c);
      assert forall k :: k in keys <==> k in init || k == keys[|keys| - 1];
    }
  }

  /** No key belongs to two cursors. */
  ghost predicate Injective(cursors: seq<Cursor>, formats: seq<Format>, fmt: Formatting) {
    forall c, d, f, g :: c in cursors && d in cursors && f in formats && g in formats && c != d ==>
      fmt(f, c) != fmt(g, d)
  }

  ghost predicate Answered<V>(c: Cursor, formats: seq<Format>, fmt: Formatting, answers: map<Key, V>) {
    exists f :: f in formats && fmt(f, c) in answers
  }

  /** The response lists the keys of the request. */
  ghost predicate Lists(keys: seq<Key>, cursors: seq<Cursor>, formats: seq<Format>, fmt: Formatting) {
    forall k :: k in keys <==> k in ByFormatted(cursors, formats, fmt)
  }

  /** Under injective formatting, a state is returned for a cursor just when the server has one
      under a key of the cursor, and is one of those. */
  lemma FetchAnswersEachCursor<V>(keys: seq<Key>, answers: map<Key, V>, cursors: seq<Cursor>, formats: seq<Format>,
                                  fmt: Formatting, c: Cursor)
    requires Injective(cursors, formats, fmt) && Lists(keys, cursors, formats, fmt) && c in cursors
    ensures var r := Mapped(keys, answers, ByFormatted(cursors, formats, fmt));
            && (c in r <==> Answered(c, formats, fmt, answers))
            && (c in r ==> exists f :: f in formats && fmt(f, c) in answers && answers[fmt(f, c)] == r[c])
  {
    var m := ByFormatted(cursors, formats, fmt);
    var r := Mapped(keys, answers, m);
    MappedIff(keys, answers, m, c);
    if c in r {
      var k :| k in keys && k in answers && k in m && m[k] == c && answers[k] == r[c];
      ByFormattedKeys(cursors, formats, fmt, k);
      var f :| f in formats && k == fmt(f, c);
      assert fmt(f, c) in answers;
    }
    if f :| f in formats && fmt(f, c) in answers {
      KeyOfCursor(cursors, formats, fmt, c, f);
      assert fmt(f, c) in keys;
    }
  }

  lemma KeyOfCursor(cursors: seq<Cursor>, formats: seq<Format>, fmt: Formatting, c: Cursor, f: Format)
    requires Injective(cursors, formats, fmt) && c in cursors && f in formats
    ensures var m := ByFormatted(cursors, formats, fmt); fmt(f, c) in m && m[fmt(f, c)] == c
  {
    var k := fmt(f, c);
    ByFormattedKeys(cursors, formats, fmt, k);
    assert k in KeysOf(c, formats, fmt);
    var m := ByFormatted(cursors, formats, fmt);
    var g :| g in formats && k == fmt(g, m[k]);
  }

  /** Whatever the server holds, each cursor is answered just when the server has a state for
      it, if and only if the formatting is injective on the request. */
  lemma FetchAnswersIff(keys: seq<Key>, cursors: seq<Cursor>, formats: seq<Format>, fmt: Formatting)
    requires Lists(keys, cursors, formats, fmt)
    ensures (forall answers: map<Key, string>, c | c in cursors ::
               c in Mapped(keys, answers, ByFormatted(cursors, formats, fmt)) <==> Answered(c, formats, fmt, answers))
            <==> Injective(cursors, formats, fmt)
  {
    var m := ByFormatted(cursors, formats, fmt);
    if Injective(cursors, formats, fmt) {
      forall answers: map<Key, string>, c | c in cursors
        ensures c in Mapped(keys, answers, m) <==> Answered(c, formats, fmt, answers)
      {
        FetchAnswersEachCursor(keys, answers, cursors, formats, fmt, c);
      }
    } else {
      var c, d, f, g :|
        c in cursors && d in cursors && f in formats && g in formats && c != d && fmt(f, c) == fmt(g, d);
      var k := fmt(f, c);
      var answers := map[k := "state"];
      MappedIff(keys, answers, m, c);
      MappedIff(keys, answers, m, d);
      assert Answered(c, formats, fmt, answers) && Answered(d, formats, fmt, answers);
      assert !(c in Mapped(keys, answers, m) && d in Mapped(keys, answers, m));
    }
  }

  /** Such a request: one cursor is the hash of the other. The server has a state for the first, and
      the result does not. */
  lemma HashedCursorHidesAnother(c: Cursor, keys: seq<Key>, fmt: Formatting)
    requires (forall x :: fmt(Raw, x) == x) && fmt(Sha256, c) != c
    requires Lists(keys, [c, fmt(Sha256, c)], [Raw, Sha256], fmt)
    ensures var cursors, answers := [c, fmt(Sha256, c)], map[fmt(Sha256, c) := "state"];
            && !Injective(cursors, [Raw, Sha256], fmt) && Answered(c, [Raw, Sha256], fmt, answers)
            && c !in Mapped(keys, answers, ByFormatted(cursors, [Raw, Sha256], fmt))
  {
    var d := fmt(Sha256, c);
    var cursors, formats, answers := [c, d], [Raw, Sha256], map[d := "state"];
    assert c in cursors && d in cursors && Raw in formats && Sha256 in formats;
    assert fmt(Sha256, c) == fmt(Raw, d);
    var m := ByFormatted(cursors, formats, fmt);
    assert d in KeysOf(d, formats, fmt);
    assert cursors[|cursors| - 1] == d && m[d] == d;
    MappedIff(keys, answers, m, c);
  }

  // ----- Coalescing -----

  datatype Ask = Ask(job: Job, cursors: set<Cursor>)

  type Queries = map<Job, set<Cursor>>

  /** `pending_queries[job].update(cursors)` */
  function Added(q: Queries, a: Ask): Queries {
    q[a.job := (if a.job in q then q[a.job] else {}) + a.cursors]
  }

  predicate Includes(q: Queries, a: Ask) {
    a.job in q && a.cursors <= q[a.job]
  }

  /** The throttle of `_do_fetch` with the queries.  History: the `asks` that `fetch` made, one
      for each call of the throttle, and the `batches` taken, one for each run. */
  datatype World = World(w: T.World<()>, pending: Queries, asks: seq<Ask>, batches: seq<Queries>)

  datatype Event =
    | Fetch(ask: Ask)
    | Wake(task: nat)     // `_do_fetch` starts, and takes the pending queries
    | Return(task: nat)

  function ThrottleEvent(e: Event): T.Event<()> {
    match e
    case Fetch(_) => T.CallFuture(())
    case Wake(task) => T.Wake(task)
    case Return(task) => T.Return(task)
  }

  function Next(s: World, e: Event): World
    requires T.Enabled(s.w, ThrottleEvent(e))
  {
    var w := T.Next(s.w, ThrottleEvent(e));
    match e
    case Fetch(a) => World(w, Added(s.pending, a), s.asks + [a], s.batches)
    case Wake(_) => World(w, map[], s.asks, s.batches + [s.pending])
    case Return(_) => s.(w := w)
  }

  ghost predicate QueriesInv(s: World) {
    && |s.asks| == |s.w.calls| && |s.batches| == |s.w.runs|
    && (forall i :: 0 <= i < |s.w.calls| ==> s.w.calls[i].future.Some?)
    && (forall i :: T.Covered(s.w) <= i < |s.asks| ==> Includes(s.pending, s.asks[i]))
    && (forall i: nat, r: nat :: i < |s.asks| && T.Covers(s.w.runs, r, i) ==> Includes(s.batches[r], s.asks[i]))
  }

  lemma QueriesStep(s: World, e: Event)
    requires T.Inv(s.w) && QueriesInv(s) && T.Enabled(s.w, ThrottleEvent(e))
    ensures QueriesInv(Next(s, e))
  {
    hide T.OneTask, T.CallsInv, T.FuturesInv;
    var s' := Next(s, e);
    match e
    case Fetch(a) =>
      assert s'.w.runs == s.w.runs;
      assert forall b :: Includes(s.pending, b) ==> Includes(s'.pending, b);
    case Wake(_) =>
      forall i: nat, r: nat | i < |s'.asks| && T.Covers(s'.w.runs, r, i)
        ensures Includes(s'.batches[r], s'.asks[i])
      {
        if r < |s.w.runs| {
          assert T.Covers(s.w.runs, r, i);
        }
      }
    case Return(_) =>
      assert s'.w.runs == s.w.runs && s'.w.calls == s.w.calls;
  }

  /** One of these calls asked for the cursor. */
  ghost predicate Asked(asks: seq<Ask>, from: nat, to: nat, job: Job, c: Cursor) {
    exists i :: from <= i < to <= |asks| && asks[i].job == job && c in asks[i].cursors
  }

  /** The first call that run `r` covers. */
  function Start(runs: seq<T.Run<()>>, r: nat): nat
    requires r <= |runs|
  {
    if r == 0 then 0 else runs[r - 1].after
  }

  /** All that these queries have was asked for by the calls from `from` up to `to`. */
  ghost predicate AllAsked(asks: seq<Ask>, from: nat, to: nat, q: Queries) {
    forall job, c :: job in q && c in q[job] ==> Asked(asks, from, to, job, c)
  }

  /** What is pending was asked for since the last run, and what a batch had for its run. */
  ghost predicate OnlyAsked(s: World) {
    && |s.asks| == |s.w.calls| && |s.batches| == |s.w.runs|
    && AllAsked(s.asks, T.Covered(s.w), |s.asks|, s.pending)
    && (forall r: nat :: r < |s.batches| ==> AllAsked(s.asks, Start(s.w.runs, r), s.w.runs[r].after, s.batches[r]))
  }

  lemma AskedLater(asks: seq<Ask>, a: Ask, from: nat, to: nat, q: Queries)
    requires AllAsked(asks, from, to, q)
    ensures AllAsked(asks + [a], from, to, q)
  {
    forall job, c | job in q && c in q[job]
      ensures Asked(asks + [a], from, to, job, c)
    {
      var i :| from <= i < to <= |asks| && asks[i].job == job && c in asks[i].cursors;
      assert (asks + [a])[i] == asks[i];
    }
  }

  lemma AddedIsAsked(asks: seq<Ask>, a: Ask, from: nat, q: Queries)
    requires AllAsked(asks, from, |asks|, q) && from <= |asks|
    ensures AllAsked(asks + [a], from, |asks| + 1, Added(q, a))
  {
    forall job, c | job in Added(q, a) && c in Added(q, a)[job]
      ensures Asked(asks + [a], from, |asks| + 1, job, c)
    {
      if job in q && c in q[job] {
        var i :| from <= i < |asks| && asks[i].job == job && c in asks[i].cursors;
        assert (asks + [a])[i] == asks[i];
      } else {
        assert (asks + [a])[|asks|] == a;
      }
    }
  }

  lemma FetchIsAsked(s: World, a: Ask)
    requires OnlyAsked(s) && T.Covered(s.w) <= |s.asks|
    ensures OnlyAsked(Next(s, Fetch(a)))
  {
    hide AllAsked, Added;
    AddedIsAsked(s.asks, a, T.Covered(s.w), s.pending);
    forall r: nat | r < |s.batches|
      ensures AllAsked(s.asks + [a], Start(s.w.runs, r), s.w.runs[r].after, s.batches[r])
    {
      AskedLater(s.asks, a, Start(s.w.runs, r), s.w.runs[r].after, s.batches[r]);
    }
  }

  lemma WakeIsAsked(s: World, task: nat)
    requires OnlyAsked(s) && T.Enabled(s.w, T.Wake(task))
    ensures OnlyAsked(Next(s, Wake(task)))
  {
    hide AllAsked, T.Invoked;
    NothingAsked(s.asks);
  }

  lemma OnlyAskedStep(s: World, e: Event)
    requires T.Inv(s.w) && OnlyAsked(s) && T.Enabled(s.w, ThrottleEvent(e))
    ensures OnlyAsked(Next(s, e))
  {
    hide AllAsked, T.OneTask, T.CallsInv, T.FuturesInv, T.NewestParams;
    match e
    case Fetch(a) => FetchIsAsked(s, a);
    case Wake(task) => WakeIsAsked(s, task);
    case Return(_) =>
  }

  lemma NothingAsked(asks: seq<Ask>)
    ensures AllAsked(asks, |asks|, |asks|, map[])
  {
  }

  ghost predicate Execution(ss: seq<World>, es: seq<Event>) {
    && |ss| == |es| + 1
    && ss[0] == World(T.Init(), map[], [], [])
    && forall k :: 0 <= k < |es| ==> T.Enabled(ss[k].w, ThrottleEvent(es[k])) && ss[k + 1] == Next(ss[k], es[k])
  }

  lemma InitInv()
    ensures var w := World(T.Init(), map[], [], []); T.Inv(w.w) && QueriesInv(w) && OnlyAsked(w)
  {
  }

  lemma {:induction false} ExecutionInv(ss: seq<World>, es: seq<Event>, k: nat)
    requires Execution(ss, es) && k <= |es|
    ensures T.Inv(ss[k].w) && QueriesInv(ss[k]) && OnlyAsked(ss[k])
  {
    hide QueriesInv, OnlyAsked, T.Inv, T.Enabled, T.Next;
    if k == 0 {
      InitInv();
    } else {
      ExecutionInv(ss, es, k - 1);
      T.StepInv(ss[k - 1].w, ThrottleEvent(es[k - 1]));
      QueriesStep(ss[k - 1], es[k - 1]);
      OnlyAskedStep(ss[k - 1], es[k - 1]);
    }
  }

  /** A batch asks for exactly what the fetches asked for that it is for: those since the run before. */
  lemma BatchIsItsFetches(ss: seq<World>, es: seq<Event>, r: nat, job: Job, c: Cursor)
    requires Execution(ss, es) && r < |ss[|es|].batches|
    ensures var s := ss[|es|];
            |s.batches| == |s.w.runs| &&
            (job in s.batches[r] && c in s.batches[r][job]
             <==> exists i: nat :: i < |s.asks| && T.Covers(s.w.runs, r, i) && s.asks[i].job == job
                                   && c in s.asks[i].cursors)
  {
    hide T.Inv;
    ExecutionInv(ss, es, |es|);
    var s := ss[|es|];
    if job in s.batches[r] && c in s.batches[r][job] {
      assert AllAsked(s.asks, Start(s.w.runs, r), s.w.runs[r].after, s.batches[r]);
      var i :|
        Start(s.w.runs, r) <= i < s.w.runs[r].after <= |s.asks| && s.asks[i].job == job && c in s.asks[i].cursors;
      assert T.Covers(s.w.runs, r, i);
    }
  }

  /** Every `fetch` is resolved by a run whose batch held all its cursors; and when formatting is
      injective on the batch, what it returns for a cursor is what the server answered for it. */
  lemma CoalescedFetchIsSound<V>(ss: seq<World>, es: seq<Event>, i: nat, c: Cursor,
                                 cursors: seq<Cursor>, formats: seq<Format>, fmt: Formatting,
                                 keys: seq<Key>, answers: map<Key, V>)
    requires Execution(ss, es) && i < |ss[|es|].w.calls|
    requires var future := ss[|es|].w.calls[i].future; future.Some? && future.value in ss[|es|].w.settled
    ensures var s := ss[|es|];
            var r := s.w.settled[s.w.calls[i].future.value];
            && |s.asks| == |s.w.calls| && r < |s.batches| && Includes(s.batches[r], s.asks[i])
            && ((forall d :: d in cursors <==> d in s.batches[r][s.asks[i].job])
                && Injective(cursors, formats, fmt) && Lists(keys, cursors, formats, fmt) && c in s.asks[i].cursors
                ==>
                var result := Mapped(keys, answers, ByFormatted(cursors, formats, fmt));
                && (c in result <==> Answered(c, formats, fmt, answers))
                && (c in result ==>
                      exists f :: f in formats && fmt(f, c) in answers && answers[fmt(f, c)] == result[c]))
  {
    hide Mapped, ByFormatted;
    var s := ss[|es|];
    SettledByItsBatch(ss, es, i);
    if Injective(cursors, formats, fmt) && Lists(keys, cursors, formats, fmt) && c in cursors {
      FetchAnswersEachCursor(keys, answers, cursors, formats, fmt, c);
    }
  }

  lemma SettledByItsBatch(ss: seq<World>, es: seq<Event>, i: nat)
    requires Execution(ss, es) && i < |ss[|es|].w.calls|
    ensures var s := ss[|es|];
            && |s.asks| == |s.w.calls| && |s.batches| == |s.w.runs| && s.w.calls[i].future.Some?
            && var f := s.w.calls[i].future.value;
               f in s.w.settled ==>
                 s.w.settled[f] < |s.batches| && Includes(s.batches[s.w.settled[f]], s.asks[i])
  {
    ExecutionInv(ss, es, |es|);
    var s := ss[|es|];
    if i < T.Covered(s.w) {
      var r := T.FirstRun(s.w.runs, i);
    }
  }
}
