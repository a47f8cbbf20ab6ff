/** One inventory over any number of crashes: `Inventory.run` above `CursorsState`.

    A `World` is what an inventory run and its history amount to between two awaits.  Items
    are named by their index in the source. */
module Resume {
  import opened Options
  import opened Cursors
  import opened Sets

  /** The items a source holds beyond the position `start`. */
  datatype Source = Source(start: Option<Cursor>, items: seq<Item>)

  ghost predicate DistinctIds(items: seq<Item>) {
    forall i, j :: 0 <= i < j < |items| ==> items[i].id != items[j].id
  }

  ghost predicate DistinctCursors(items: seq<Item>) {
    forall i, j :: 0 <= i < j < |items| && Truthy(items[i].cursor) ==> items[i].cursor != items[j].cursor
  }

  /** Distinct objects, distinct usable cursors. */
  ghost predicate WellFormed(src: Source) {
    && DistinctIds(src.items)
    && DistinctCursors(src.items)
    && (src.start.Some? ==> Truthy(src.start))
    && (src.start.Some? ==> forall i :: 0 <= i < |src.items| ==> src.items[i].cursor != src.start)
  }

  /** Every item has a usable cursor. */
  ghost predicate AllNamed(src: Source) {
    forall i :: 0 <= i < |src.items| ==> Truthy(src.items[i].cursor)
  }

  /** The index from which the source goes on when it is asked for what follows `after`. */
  function Position(items: seq<Item>, after: Option<Cursor>): (n: nat)
    ensures n <= |items|
  {
    if items == [] then 0
    else if Truthy(after) && items[|items| - 1].cursor == after then |items|
    else Position(items[..|items| - 1], after)
  }

  /** What a saved position says is finished. */
  ghost predicate Denotes(src: Source, s: State, i: nat) {
    i < |src.items| &&
    (i < Position(src.items, s.after)
     || (Truthy(src.items[i].cursor) && src.items[i].cursor.value in s.partials))
  }

  ghost function Denoted(src: Source, s: State): (r: set<nat>)
    ensures forall i :: i in r <==> Denotes(src, s, i)
  {
    set i: nat | i < |src.items| && Denotes(src, s, i)
  }

  /** The first `n` items but those of `skip`, in source order. */
  function Remaining(n: nat, skip: set<nat>): (r: seq<nat>)
    ensures forall i: nat :: i in r <==> i < n && i !in skip
  {
    if n == 0 then []
    else Remaining(n - 1, skip) + (if n - 1 in skip then [] else [n - 1])
  }

  /** `next` counts the items taken from the source.  The other fields are history: `finished`
      are the items ever finished, `base` what the cursor of the last restart denoted, `done`
      adds to `base` what finished since, and `yielded` is what `run` has yielded since. */
  datatype World = World(cs: State, next: nat, finished: set<nat>,
                         base: set<nat>, done: set<nat>, yielded: seq<nat>)

  datatype Event =
    | Pull                             // `run` takes the next item
    | Finish(i: nat)                   // the context of item i exits
    | Restart(partials: set<Cursor>)   // the process dies; a new one reads the saved cursor

  ghost function Resumed(src: Source, cs: State, finished: set<nat>): World {
    var base := Denoted(src, cs);
    World(cs, Position(src.items, cs.after), finished, base, base, [])
  }

  ghost function Init(src: Source): World {
    Resumed(src, State(src.start, {}, []), {})
  }

  /** The length of the committed prefix. */
  function Committed(w: World): int {
    w.next - |w.cs.pendings|
  }

  ghost predicate Enabled(src: Source, maxPartials: Option<nat>, w: World, e: Event) {
    match e
    case Pull => w.next < |src.items|
    case Finish(i) =>
      Committed(w) <= i < w.next && w.cs.pendings[i - Committed(w)].isPending
    case Restart(p) => MaySave(w.cs, maxPartials, p)
  }

  /** The next item is entered; an item that the cursor names as finished is left at once. */
  function PullWorld(src: Source, w: World): World
    requires w.next < |src.items|
  {
    var item := src.items[w.next];
    var entered := Enter(w.cs, item);
    if Skips(w.cs, item) then
      w.(cs := Exit(entered, item.id), next := w.next + 1)
    else
      w.(cs := entered, next := w.next + 1, yielded := w.yielded + [w.next])
  }

  function FinishWorld(src: Source, w: World, i: nat): World
    requires i < |src.items|
  {
    w.(cs := Exit(w.cs, src.items[i].id), finished := w.finished + {i}, done := w.done + {i})
  }

  ghost function RestartWorld(src: Source, w: World, p: set<Cursor>): World {
    Resumed(src, Load(Save(w.cs.after, p)), w.finished)
  }

  ghost function Next(src: Source, maxPartials: Option<nat>, w: World, e: Event): World
    requires Enabled(src, maxPartials, w, e) && w.next <= |src.items|
  {
    match e
    case Pull => PullWorld(src, w)
    case Finish(i) => FinishWorld(src, w, i)
    case Restart(p) => RestartWorld(src, w, p)
  }

  /** The entries of the items from `c` up to `n`, done or not as the history says. */
  function Entries(items: seq<Item>, c: nat, n: nat, done: set<nat>): (p: seq<Pending>)
    requires c <= n <= |items|
    ensures |p| == n - c
  {
    seq(n - c, j requires 0 <= j < n - c => Pending(c + j !in done, items[c + j]))
  }

  /** The pending entries are the last items taken, from `c` on. */
  ghost predicate PendingsAgree(src: Source, cs: State, c: int, n: nat, done: set<nat>) {
    0 <= c <= n <= |src.items| && cs.pendings == Entries(src.items, c, n, done)
  }

  /** `after` is the last cursor within the longest finished prefix of the items taken. */
  ghost predicate PrefixCommitted(src: Source, cs: State, c: int, n: nat, done: set<nat>) {
    && 0 <= c <= |src.items|
    && (forall i: nat :: i < c ==> i in done)
    && (c < n ==> c !in done)
    && cs.after == LastCursor(src.items[..c], src.start)
  }

  ghost predicate RunAgrees(src: Source, cs: State, n: nat, done: set<nat>) {
    var c := n - |cs.pendings|;
    PendingsAgree(src, cs, c, n, done) && PrefixCommitted(src, cs, c, n, done)
  }

  /** The partials still held name the items ahead that an earlier run finished. */
  ghost predicate PartialsAgree(src: Source, w: World) {
    && (forall i :: 0 <= i < |src.items| && Truthy(src.items[i].cursor) ==>
          (src.items[i].cursor.value in w.cs.partials <==> w.next <= i && i in w.done))
    && (forall i :: w.next <= i && i in w.done ==>
          i in w.base && i < |src.items| && Truthy(src.items[i].cursor))
  }

  /** Every partial is the cursor of an item. */
  ghost predicate PartialsKnown(src: Source, partials: set<Cursor>) {
    forall x :: x in partials ==> Names(src, x)
  }

  ghost predicate Names(src: Source, x: Cursor) {
    exists i :: 0 <= i < |src.items| && src.items[i].cursor == Some(x)
  }

  ghost predicate HistoryAgrees(w: World) {
    && w.base <= w.done <= w.finished
    && w.yielded == Remaining(w.next, w.base)
  }

  ghost predicate Inv(src: Source, w: World) {
    && RunAgrees(src, w.cs, w.next, w.done)
    && PartialsAgree(src, w) && PartialsKnown(src, w.cs.partials)
    && HistoryAgrees(w)
  }

  // ----- Positions -----

  lemma {:induction false} PositionOfIndex(items: seq<Item>, after: Option<Cursor>, k: nat)
    requires k < |items| && Truthy(after) && items[k].cursor == after
    requires forall j :: k < j < |items| ==> items[j].cursor != after
    ensures Position(items, after) == k + 1
  {
    if k < |items| - 1 {
      PositionOfIndex(items[..|items| - 1], after, k);
    }
  }

  lemma {:induction false} PositionUnknown(items: seq<Item>, after: Option<Cursor>)
    requires forall j :: 0 <= j < |items| ==> items[j].cursor != after || !Truthy(after)
    ensures Position(items, after) == 0
  {
    if items != [] {
      PositionUnknown(items[..|items| - 1], after);
    }
  }

  /** The committed cursor is that of an item, or still the starting one. */
  lemma {:induction false} LastCursorIndex(items: seq<Item>, default: Option<Cursor>) returns (k: nat)
    ensures k <= |items|
    ensures k == 0 ==> LastCursor(items, default) == default
    ensures k > 0 ==> Truthy(items[k - 1].cursor) && LastCursor(items, default) == items[k - 1].cursor
    ensures forall j :: k <= j < |items| ==> !Truthy(items[j].cursor)
  {
    k := 0;
    if items != [] {
      if Truthy(items[|items| - 1].cursor) {
        k := |items|;
      } else {
        k := LastCursorIndex(items[..|items| - 1], default);
      }
    }
  }

  /** Resuming from the cursor committed at `c` goes back to an index `k` no later than `c`,
      with no usable cursor in between, where the same cursor is committed. */
  lemma PositionOfCommitted(src: Source, c: nat) returns (k: nat)
    requires WellFormed(src) && c <= |src.items|
    ensures k == Position(src.items, LastCursor(src.items[..c], src.start)) <= c
    ensures LastCursor(src.items[..k], src.start) == LastCursor(src.items[..c], src.start)
    ensures forall j :: k <= j < c ==> !Truthy(src.items[j].cursor)
  {
    k := LastCursorIndex(src.items[..c], src.start);
    var after := LastCursor(src.items[..c], src.start);
    if k == 0 {
      PositionUnknown(src.items, after);
    } else {
      assert src.items[..k][k - 1] == src.items[k - 1];
      forall j | k - 1 < j < |src.items|
        ensures src.items[j].cursor != after
      {
      }
      PositionOfIndex(src.items, after, k - 1);
    }
  }

  lemma {:induction false} LastCursorSplit(a: seq<Item>, b: seq<Item>, default: Option<Cursor>)
    ensures LastCursor(a + b, default) == LastCursor(b, LastCursor(a, default))
  {
    if b == [] {
      assert a + b == a;
    } else {
      assert (a + b)[..|a + b| - 1] == a + b[..|b| - 1];
      LastCursorSplit(a, b[..|b| - 1], default);
    }
  }

  /** A plain cursor, from before partials were saved, or of another tool: everything up to its item is
      done, and nothing else. */
  lemma PlainCursor(src: Source, i: nat)
    requires WellFormed(src) && i < |src.items| && Truthy(src.items[i].cursor) && src.items[i].cursor.value.Text?
    ensures forall k :: k in Denoted(src, Load(src.items[i].cursor)) <==> 0 <= k <= i
  {
    PositionOfIndex(src.items, src.items[i].cursor, i);
  }

  /** The saved cursor of a join, read by a plain inventory: the parents with a record count as partials. */
  lemma CursorOfAJoin(root: Option<Cursor>, subs: map<Cursor, Cursor>)
    ensures Load(Some(JoinDoc(root, subs))) == Load(Some(Doc(root, subs.Keys)))
  {
  }

  // ----- What a step keeps -----

  /** A restart, from any saved position whose denotation is finished, starts well. */
  lemma ResumedInv(src: Source, c: nat, partials: set<Cursor>, finished: set<nat>)
    requires WellFormed(src) && c <= |src.items|
    requires var cs := State(LastCursor(src.items[..c], src.start), partials, []);
             Denoted(src, cs) <= finished
    requires forall i :: 0 <= i < c && Truthy(src.items[i].cursor) ==> src.items[i].cursor.value !in partials
    requires PartialsKnown(src, partials)
    ensures Inv(src, Resumed(src, State(LastCursor(src.items[..c], src.start), partials, []), finished))
  {
    var cs := State(LastCursor(src.items[..c], src.start), partials, []);
    var k := PositionOfCommitted(src, c);
    var w := Resumed(src, cs, finished);
    RemainingNone(k, w.base);
  }

  /** Source order, each once. */
  lemma {:induction false} RemainingIsIncreasing(n: nat, skip: set<nat>, a: nat, b: nat)
    requires a < b < |Remaining(n, skip)|
    ensures Remaining(n, skip)[a] < Remaining(n, skip)[b] < n
  {
    var rest := Remaining(n - 1, skip);
    if b < |rest| {
      RemainingIsIncreasing(n - 1, skip, a, b);
    } else {
      assert rest[a] in rest;
    }
  }

  lemma {:induction false} RemainingNone(n: nat, skip: set<nat>)
    requires forall i: nat :: i < n ==> i in skip
    ensures Remaining(n, skip) == []
  {
    if n > 0 {
      RemainingNone(n - 1, skip);
    }
  }

  lemma InitInv(src: Source)
    requires WellFormed(src)
    ensures Inv(src, Init(src)) && Indexed(src, Init(src).finished) && Init(src).done == Init(src).finished
  {
    PositionUnknown(src.items, src.start);
    assert src.items[..0] == [];
    assert Denoted(src, State(src.start, {}, [])) == {};
    ResumedInv(src, 0, {}, {});
  }

  lemma MarkEntries(items: seq<Item>, c: nat, n: nat, done: set<nat>, i: nat)
    requires c <= i < n <= |items|
    requires DistinctIds(items)
    ensures MarkDone(Entries(items, c, n, done), items[i].id) == Entries(items, c, n, done + {i})
  {
  }

  /** Dropping the done prefix of the entries from `c` leaves the entries from a later `d`. */
  lemma DropEntries(items: seq<Item>, c: nat, n: nat, done: set<nat>) returns (d: nat)
    requires c <= n <= |items|
    ensures c <= d <= n && d == c + DonePrefix(Entries(items, c, n, done))
    ensures Entries(items, c, n, done)[d - c..] == Entries(items, d, n, done)
    ensures ItemsOf(Entries(items, c, n, done)[..d - c]) == items[c..d]
    ensures forall j :: c <= j < d ==> j in done
    ensures d < n ==> d !in done
  {
    var p := Entries(items, c, n, done);
    d := c + DonePrefix(p);
    forall j | c <= j < d
      ensures j in done
    {
      assert !p[j - c].isPending;
    }
    assert d < n ==> p[d - c].isPending;
  }

  /** Leaving an item of the run: it is marked, and the done prefix is committed. */
  lemma ExitKeeps(src: Source, cs: State, n: nat, done: set<nat>, i: nat)
    requires DistinctIds(src.items)
    requires RunAgrees(src, cs, n, done) && n - |cs.pendings| <= i < n
    ensures RunAgrees(src, Exit(cs, src.items[i].id), n, done + {i})
  {
    var c := n - |cs.pendings|;
    MarkEntries(src.items, c, n, done, i);
    var p := Entries(src.items, c, n, done + {i});
    assert Exit(cs, src.items[i].id)
        == State(LastCursor(ItemsOf(p[..DonePrefix(p)]), cs.after), cs.partials, p[DonePrefix(p)..]);
    DropKeeps(src, cs, c, n, done + {i});
  }

  lemma DropKeeps(src: Source, cs: State, c: nat, n: nat, done: set<nat>)
    requires c <= n <= |src.items|
    requires forall i: nat :: i < c ==> i in done
    requires cs.after == LastCursor(src.items[..c], src.start)
    ensures var p := Entries(src.items, c, n, done);
            RunAgrees(src, State(LastCursor(ItemsOf(p[..DonePrefix(p)]), cs.after), cs.partials, p[DonePrefix(p)..]),
                      n, done)
  {
    hide LastCursor, DonePrefix, ItemsOf, Entries;
    var d := DropEntries(src.items, c, n, done);
    CommitMore(src, c, d);
    var p := Entries(src.items, c, n, done);
    var cs' := State(LastCursor(ItemsOf(p[..d - c]), cs.after), cs.partials, p[d - c..]);
    assert n - |cs'.pendings| == d;
    assert PendingsAgree(src, cs', d, n, done);
  }

  lemma CommitMore(src: Source, c: nat, d: nat)
    requires c <= d <= |src.items|
    ensures LastCursor(src.items[c..d], LastCursor(src.items[..c], src.start)) == LastCursor(src.items[..d], src.start)
  {
    assert src.items[..d] == src.items[..c] + src.items[c..d];
    LastCursorSplit(src.items[..c], src.items[c..d], src.start);
  }

  /** Entering the next item of the run, under any history that agrees on the items before. */
  lemma EnterKeeps(src: Source, cs: State, n: nat, done: set<nat>, done': set<nat>)
    requires RunAgrees(src, cs, n, done) && n < |src.items| && n !in done'
    requires forall i: nat :: i < n ==> (i in done' <==> i in done)
    ensures RunAgrees(src, Enter(cs, src.items[n]), n + 1, done')
  {
  }

  lemma PullKeepsRun(src: Source, w: World)
    requires DistinctIds(src.items)
    requires RunAgrees(src, w.cs, w.next, w.done) && w.next < |src.items|
    requires Skips(w.cs, src.items[w.next]) <==> w.next in w.done
    ensures var w' := PullWorld(src, w); RunAgrees(src, w'.cs, w'.next, w'.done)
  {
    hide RunAgrees;
    var done := w.done - {w.next};
    EnterKeeps(src, w.cs, w.next, w.done, done);
    if w.next in w.done {
      ExitKeeps(src, Enter(w.cs, src.items[w.next]), w.next + 1, done, w.next);
      assert done + {w.next} == w.done;
    } else {
      assert done == w.done;
    }
  }

  lemma PullInv(src: Source, w: World)
    requires WellFormed(src) && Inv(src, w) && w.next < |src.items|
    ensures Inv(src, PullWorld(src, w))
  {
    PullKeepsRun(src, w);
    PullKeepsPartials(src, w);
    PulledPartials(src, w);
  }

  lemma PullKeepsPartials(src: Source, w: World)
    requires DistinctCursors(src.items) && PartialsAgree(src, w) && w.next < |src.items|
    requires HistoryAgrees(w)
    ensures PartialsAgree(src, PullWorld(src, w)) && HistoryAgrees(PullWorld(src, w))
  {
    hide Exit, Enter;
    PulledPartials(src, w);
  }

  lemma PulledPartials(src: Source, w: World)
    requires w.next < |src.items|
    ensures var item := src.items[w.next];
            PullWorld(src, w).cs.partials
            == if Skips(w.cs, item) then w.cs.partials - {item.cursor.value} else w.cs.partials
  {
  }

  lemma FinishInv(src: Source, w: World, i: nat)
    requires WellFormed(src) && Inv(src, w)
    requires Committed(w) <= i < w.next
    ensures Inv(src, FinishWorld(src, w, i))
  {
    ExitKeeps(src, w.cs, w.next, w.done, i);
  }

  // ----- What the saved cursor denotes -----

  lemma DoneEntries(items: seq<Item>, c: nat, n: nat, done: set<nat>, x: Cursor)
    requires c <= n <= |items|
    ensures x in DoneCursors(Entries(items, c, n, done)) <==>
            exists i :: c <= i < n && i in done && items[i].cursor == Some(x)
  {
    var p := Entries(items, c, n, done);
    DoneCursorsMembers(p, x);
    if i :| c <= i < n && i in done && items[i].cursor == Some(x) {
      assert !p[i - c].isPending && p[i - c].item.cursor == Some(x);
    }
  }

  lemma MaySaveBound(s: State, maxPartials: Option<nat>, p: set<Cursor>)
    requires MaySave(s, maxPartials, p)
    ensures p <= s.partials + Elements(DoneCursors(s.pendings))
  {
  }

  /** A saved partial names an item beyond the committed prefix that was finished. */
  lemma SavedPartial(src: Source, w: World, p: set<Cursor>, i: nat)
    requires DistinctCursors(src.items) && RunAgrees(src, w.cs, w.next, w.done) && PartialsAgree(src, w)
    requires p <= w.cs.partials + Elements(DoneCursors(w.cs.pendings))
    requires i < |src.items| && Truthy(src.items[i].cursor) && src.items[i].cursor.value in p
    ensures i in w.done && Committed(w) <= i
  {
    DoneEntries(src.items, Committed(w), w.next, w.done, src.items[i].cursor.value);
  }

  /** Whatever is saved was finished. */
  lemma SavedSound(src: Source, maxPartials: Option<nat>, w: World, p: set<Cursor>)
    requires WellFormed(src) && Inv(src, w) && MaySave(w.cs, maxPartials, p)
    ensures Denoted(src, Load(Save(w.cs.after, p))) <= w.done
    ensures forall i :: 0 <= i < Committed(w) && Truthy(src.items[i].cursor) ==>
              src.items[i].cursor.value !in p
  {
    hide Inv, WellFormed, Position, MaySave, Save, Load, DoneCursors;
    SaveThenLoad(w.cs.after, p);
    MaySaveBound(w.cs, maxPartials, p);
    forall i | 0 <= i < |src.items| && Truthy(src.items[i].cursor) && src.items[i].cursor.value in p
      ensures i in w.done && Committed(w) <= i
    {
      KnownPartial(src, w, p, i);
    }
    BeforeCommitted(src, w);
  }

  lemma KnownPartial(src: Source, w: World, p: set<Cursor>, i: nat)
    requires WellFormed(src) && Inv(src, w) && p <= w.cs.partials + Elements(DoneCursors(w.cs.pendings))
    requires i < |src.items| && Truthy(src.items[i].cursor) && src.items[i].cursor.value in p
    ensures i in w.done && Committed(w) <= i
  {
    hide RunAgrees, PartialsAgree, DoneCursors;
    SavedPartial(src, w, p, i);
  }

  /** A run resumes no later than its committed prefix, which is done. */
  lemma BeforeCommitted(src: Source, w: World)
    requires WellFormed(src) && Inv(src, w)
    ensures 0 <= Committed(w) <= w.next <= |src.items| && w.cs.after == LastCursor(src.items[..Committed(w)], src.start)
    ensures Position(src.items, w.cs.after) <= Committed(w)
    ensures (forall i: nat :: i < Committed(w) ==> i in w.done) && (Committed(w) < w.next ==> Committed(w) !in w.done)
    ensures w.done <= w.finished
    ensures forall j :: Position(src.items, w.cs.after) <= j < Committed(w) ==> !Truthy(src.items[j].cursor)
  {
    hide PartialsAgree, WellFormed, Position;
    var k := PositionOfCommitted(src, Committed(w));
  }

  /** With a cursor on every item, all that is finished is saved where the limit has room for it. */
  lemma SavedComplete(src: Source, maxPartials: Option<nat>, w: World, p: set<Cursor>, i: nat)
    requires WellFormed(src) && AllNamed(src) && Inv(src, w)
    requires MaySave(w.cs, maxPartials, p) && Fits(w.cs, maxPartials)
    requires i in w.done && i < |src.items|
    ensures Denotes(src, Load(Save(w.cs.after, p)), i)
  {
    hide WellFormed, Position, MaySave, Save, Load, DoneCursors;
    SaveThenLoad(w.cs.after, p);
    FitSavesAll(w.cs, maxPartials, p);
    BeforeCommitted(src, w);
    if Committed(w) <= i < w.next {
      DoneEntries(src.items, Committed(w), w.next, w.done, src.items[i].cursor.value);
    }
  }

  lemma SavedKnown(src: Source, maxPartials: Option<nat>, w: World, p: set<Cursor>)
    requires Inv(src, w) && MaySave(w.cs, maxPartials, p)
    ensures PartialsKnown(src, p)
  {
    MaySaveBound(w.cs, maxPartials, p);
    forall x | x in p
      ensures Names(src, x)
    {
      DoneEntries(src.items, Committed(w), w.next, w.done, x);
    }
  }

  // ----- What a limit forgets -----

  lemma {:induction false} DoneOnce(src: Source, c: nat, n: nat, done: set<nat>)
    requires WellFormed(src) && AllNamed(src) && c <= n <= |src.items|
    ensures NoneTwice(DoneCursors(Entries(src.items, c, n, done)))
    decreases n - c
  {
    if c < n {
      var all, init := Entries(src.items, c, n, done), Entries(src.items, c, n - 1, done);
      DoneOnce(src, c, n - 1, done);
      assert all == init + [Pending(n - 1 !in done, src.items[n - 1])];
      DoneCursorsSplit(init, [Pending(n - 1 !in done, src.items[n - 1])]);
      DoneEntries(src.items, c, n - 1, done, src.items[n - 1].cursor.value);
    }
  }

  /** What there is to save beyond the committed prefix: each finished item of it once. */
  lemma ToSave(src: Source, w: World)
    requires WellFormed(src) && AllNamed(src) && Inv(src, w)
    ensures NoneTwice(DoneCursors(w.cs.pendings)) && w.cs.partials !! Elements(DoneCursors(w.cs.pendings))
    ensures forall x :: x in w.cs.partials + Elements(DoneCursors(w.cs.pendings)) ==>
              exists i: nat :: i < |src.items| && src.items[i].cursor == Some(x) && Committed(w) <= i && i in w.done
  {
    DoneOnce(src, Committed(w), w.next, w.done);
    forall x | x in w.cs.partials + Elements(DoneCursors(w.cs.pendings))
      ensures exists i: nat :: i < |src.items| && src.items[i].cursor == Some(x) && Committed(w) <= i && i in w.done
      ensures x in w.cs.partials ==> x !in DoneCursors(w.cs.pendings)
    {
      DoneEntries(src.items, Committed(w), w.next, w.done, x);
      if x in w.cs.partials {
        assert Names(src, x);
      }
    }
  }

  /** What does not fit is forgotten: some finished item is not named. */
  lemma UnfitForgets(src: Source, m: nat, w: World, p: set<Cursor>) returns (i: nat)
    requires WellFormed(src) && AllNamed(src) && Inv(src, w)
    requires MaySave(w.cs, Some(m), p) && !Fits(w.cs, Some(m))
    ensures i in w.done && !Denotes(src, Load(Save(w.cs.after, p)), i)
  {
    hide Inv, Denotes, MaySave, WellFormed, AllNamed;
    var done := DoneCursors(w.cs.pendings);
    ToSave(src, w);
    AsManyElements(done);
    SavesUpToTheLimit(w.cs, m, p);
    if w.cs.partials + Elements(done) <= p {
      Fewer(w.cs.partials + Elements(done), p);
    }
    var x :| x in w.cs.partials + Elements(done) && x !in p;
    i :| i < |src.items| && src.items[i].cursor == Some(x) && Committed(w) <= i && i in w.done;
    NotDenoted(src, w, p, i);
  }

  lemma NotDenoted(src: Source, w: World, p: set<Cursor>, i: nat)
    requires WellFormed(src) && Inv(src, w) && Committed(w) <= i < |src.items|
    requires src.items[i].cursor.Some? && src.items[i].cursor.value !in p
    ensures !Denotes(src, Load(Save(w.cs.after, p)), i)
  {
    var k := PositionOfCommitted(src, Committed(w));
    SaveThenLoad(w.cs.after, p);
  }

  /** With a cursor on every item, a saved cursor names exactly what is done, if and only if the
      limit had room for it. */
  lemma SavedExactIff(src: Source, maxPartials: Option<nat>, w: World, p: set<Cursor>)
    requires WellFormed(src) && AllNamed(src) && Inv(src, w) && Indexed(src, w.done)
    requires MaySave(w.cs, maxPartials, p)
    ensures Denoted(src, Load(Save(w.cs.after, p))) == w.done <==> Fits(w.cs, maxPartials)
  {
    if Fits(w.cs, maxPartials) {
      SavedExact(src, maxPartials, w, p);
    } else {
      var i := UnfitForgets(src, maxPartials.value, w, p);
    }
  }

  lemma RestartInv(src: Source, maxPartials: Option<nat>, w: World, p: set<Cursor>)
    requires WellFormed(src) && Inv(src, w) && MaySave(w.cs, maxPartials, p)
    ensures Inv(src, RestartWorld(src, w, p))
  {
    hide Inv, WellFormed, Position, MaySave, Save, Load, Denoted, Resumed;
    BeforeCommitted(src, w);
    SavedSound(src, maxPartials, w, p);
    SaveThenLoad(w.cs.after, p);
    SavedKnown(src, maxPartials, w, p);
    ResumedInv(src, Committed(w), p, w.finished);
  }

  // ----- Whole runs -----

  ghost predicate Execution(src: Source, maxPartials: Option<nat>, ws: seq<World>, es: seq<Event>) {
    && |ws| == |es| + 1
    && ws[0] == Init(src)
    && forall k :: 0 <= k < |es| ==>
         && ws[k].next <= |src.items|
         && Enabled(src, maxPartials, ws[k], es[k])
         && ws[k + 1] == Next(src, maxPartials, ws[k], es[k])
  }

  lemma StepInv(src: Source, maxPartials: Option<nat>, w: World, e: Event)
    requires WellFormed(src) && Inv(src, w) && Enabled(src, maxPartials, w, e)
    ensures Inv(src, Next(src, maxPartials, w, e))
  {
    match e
    case Pull => PullInv(src, w);
    case Finish(i) => FinishInv(src, w, i);
    case Restart(p) => RestartInv(src, maxPartials, w, p);
  }

  /** With a cursor on every item, a restart forgets no finished item where the limit had room. */
  lemma StepRemembers(src: Source, maxPartials: Option<nat>, w: World, e: Event)
    requires WellFormed(src) && AllNamed(src) && Inv(src, w) && Enabled(src, maxPartials, w, e)
    requires e.Restart? ==> Fits(w.cs, maxPartials)
    requires Indexed(src, w.finished) && w.done == w.finished
    ensures var w' := Next(src, maxPartials, w, e);
            Indexed(src, w'.finished) && w'.done == w'.finished
  {
    if e.Restart? {
      SavedExact(src, maxPartials, w, e.partials);
    }
  }

  /** Every restart before event `n` found all that there was to save in the saved cursor. */
  ghost predicate AllSaved(maxPartials: Option<nat>, ws: seq<World>, es: seq<Event>, n: nat)
    requires n <= |es| <= |ws|
  {
    forall k :: 0 <= k < n && es[k].Restart? ==> Fits(ws[k].cs, maxPartials)
  }

  ghost predicate Indexed(src: Source, s: set<nat>) {
    forall i :: i in s ==> i < |src.items|
  }

  lemma SavedExact(src: Source, maxPartials: Option<nat>, w: World, p: set<Cursor>)
    requires WellFormed(src) && AllNamed(src) && Inv(src, w) && Indexed(src, w.done)
    requires MaySave(w.cs, maxPartials, p) && Fits(w.cs, maxPartials)
    ensures Denoted(src, Load(Save(w.cs.after, p))) == w.done
  {
    SavedSound(src, maxPartials, w, p);
    forall i | i in w.done
      ensures Denotes(src, Load(Save(w.cs.after, p)), i)
    {
      SavedComplete(src, maxPartials, w, p, i);
    }
  }

  lemma {:induction false} ExecutionInv(src: Source, maxPartials: Option<nat>, ws: seq<World>, es: seq<Event>, k: nat)
    requires WellFormed(src) && Execution(src, maxPartials, ws, es) && k <= |es|
    ensures Inv(src, ws[k])
    ensures AllNamed(src) && AllSaved(maxPartials, ws, es, k) ==>
              Indexed(src, ws[k].finished) && ws[k].done == ws[k].finished
  {
    hide Inv, WellFormed, Next, Enabled, Init;
    if k == 0 {
      InitInv(src);
    } else {
      ExecutionInv(src, maxPartials, ws, es, k - 1);
      StepInv(src, maxPartials, ws[k - 1], es[k - 1]);
      if AllNamed(src) && AllSaved(maxPartials, ws, es, k) {
        StepRemembers(src, maxPartials, ws[k - 1], es[k - 1]);
      }
    }
  }

  /** Whatever the order in which items finish, the number of crashes, the limit, and the items
      that lack a cursor: the committed cursor is the last one of a prefix that is finished
      and that is the longest such among the items taken; no more partials are saved than the
      limit; and a resumed run skips only what was finished. */
  lemma BoundedPartialsAreSafe(src: Source, maxPartials: Option<nat>, ws: seq<World>, es: seq<Event>, p: set<Cursor>)
    requires WellFormed(src) && Execution(src, maxPartials, ws, es)
    requires var w := ws[|es|]; MaySave(w.cs, maxPartials, p)
    ensures var w := ws[|es|]; var c := Committed(w);
            && 0 <= c <= w.next <= |src.items|
            && w.cs.after == LastCursor(src.items[..c], src.start)
            && (forall i: nat :: i < c ==> i in w.finished)
            && (c < w.next ==> c !in w.done)
    ensures maxPartials.Some? ==> |p| <= maxPartials.value
    ensures Denoted(src, Load(Save(ws[|es|].cs.after, p))) <= ws[|es|].finished
  {
    hide Inv, WellFormed, Position, Denoted, Save, Load, MaySave;
    ExecutionInv(src, maxPartials, ws, es, |es|);
    SavedSound(src, maxPartials, ws[|es|], p);
    BeforeCommitted(src, ws[|es|]);
    if maxPartials.Some? {
      SavedWithinLimit(ws[|es|].cs, maxPartials.value, p);
    }
  }

  /** With a cursor on every item, and restarts from cursors that had room for all, the cursor saved
      at any moment denotes exactly what is finished, if and only if it has room for all, too. */
  lemma SavedCursorIsExactIff(src: Source, maxPartials: Option<nat>, ws: seq<World>, es: seq<Event>, p: set<Cursor>)
    requires WellFormed(src) && AllNamed(src) && Execution(src, maxPartials, ws, es)
    requires AllSaved(maxPartials, ws, es, |es|) && MaySave(ws[|es|].cs, maxPartials, p)
    ensures Denoted(src, Load(Save(ws[|es|].cs.after, p))) == ws[|es|].finished <==> Fits(ws[|es|].cs, maxPartials)
  {
    ExecutionInv(src, maxPartials, ws, es, |es|);
    SavedExactIff(src, maxPartials, ws[|es|], p);
  }

  /** What `run` has yielded since the last restart is, in source order, each item it took that
      the cursor did not name as finished, once. */
  lemma ResumeYieldsTheRest(src: Source, maxPartials: Option<nat>, ws: seq<World>, es: seq<Event>, k: nat, n: nat)
    requires WellFormed(src) && Execution(src, maxPartials, ws, es)
    requires k < n <= |es| && es[k].Restart?
    requires forall j :: k < j < n ==> !es[j].Restart?
    ensures ws[n].yielded == Remaining(ws[n].next, Denoted(src, Load(Save(ws[k].cs.after, es[k].partials))))
    ensures AllNamed(src) && AllSaved(maxPartials, ws, es, k + 1) ==>
              ws[n].yielded == Remaining(ws[n].next, ws[k].finished)
  {
    ExecutionInv(src, maxPartials, ws, es, n);
    BaseSinceRestart(src, maxPartials, ws, es, k, n);
    if AllNamed(src) && AllSaved(maxPartials, ws, es, k + 1) {
      var ws', es' := ws[..k + 1], es[..k];
      assert Execution(src, maxPartials, ws', es');
      SavedCursorIsExactIff(src, maxPartials, ws', es', es[k].partials);
    }
  }

  lemma {:induction false} BaseSinceRestart(src: Source, maxPartials: Option<nat>, ws: seq<World>, es: seq<Event>,
                                            k: nat, n: nat)
    requires Execution(src, maxPartials, ws, es)
    requires k < n <= |es| && es[k].Restart?
    requires forall j :: k < j < n ==> !es[j].Restart?
    ensures ws[n].base == Denoted(src, Load(Save(ws[k].cs.after, es[k].partials)))
  {
    if k + 1 < n {
      BaseSinceRestart(src, maxPartials, ws, es, k, n - 1);
    }
  }

  // ----- Progress -----

  /** The first entry of a run that has any is pending. */
  lemma FirstIsPending(src: Source, limit: Option<nat>, w: World)
    requires WellFormed(src) && Inv(src, w) && w.cs.pendings != []
    ensures 0 <= Committed(w) && Enabled(src, limit, w, Finish(Committed(w)))
  {
  }

  /** A run goes on to the end of its source, and until every item that it took has finished. */
  lemma GoesOn(src: Source, maxPartials: Option<nat>, ws: seq<World>, es: seq<Event>) returns (e: Event)
    requires WellFormed(src) && Execution(src, maxPartials, ws, es)
    requires ws[|es|].next < |src.items| || ws[|es|].cs.pendings != []
    ensures !e.Restart? && Enabled(src, maxPartials, ws[|es|], e)
    ensures ws[|es|].next < |src.items| ==> e == Pull
  {
    hide Inv, WellFormed;
    ExecutionInv(src, maxPartials, ws, es, |es|);
    if ws[|es|].next < |src.items| {
      e := Pull;
    } else {
      FirstIsPending(src, maxPartials, ws[|es|]);
      e := Finish(Committed(ws[|es|]));
    }
  }

  /** And at any moment it can end, and be resumed from what it saved. */
  lemma CanRestart(src: Source, maxPartials: Option<nat>, w: World) returns (p: set<Cursor>)
    ensures Enabled(src, maxPartials, w, Restart(p))
  {
    p := SomethingToSave(w.cs, maxPartials);
  }
}
