/** Two-level resume: worker/inventories/joined.py above worker/inventories/multi.py.

    A join walks a root inventory and, for each parent it yields, an inventory of children.  The
    saved cursor holds the cursor of the root and one cursor for each unfinished parent. */
module Join {
  import opened Options
  import opened Cursors
  import opened Resume

  // ----- MultiCursorsState -----

  /** The value of a `MultiCursorsState` object. */
  datatype Multi = Multi(after: Option<Cursor>, partials: map<Cursor, Cursor>)

  /** `as_cursor` */
  function SaveMulti(m: Multi): Cursor {
    JoinDoc(m.after, m.partials)
  }

  /** `from_cursor` */
  function LoadMulti(raw: Option<Cursor>): Multi
    requires !IsListed(raw)
  {
    if !Truthy(raw) then Multi(None, map[])
    else
      match raw.value
      case Text(_) => Multi(raw, map[])
      case Doc(after, _) => Multi(after, map[])
      case JoinDoc(root, subs) => Multi(root, subs)
  }

  /** Leaving `RootCursors.process`: the root cursor is taken over, the parent is settled. */
  function RootExit(m: Multi, rootCursor: Option<Cursor>, parent: Item): Multi {
    Multi(rootCursor, if parent.cursor.Some? then m.partials - {parent.cursor.value} else m.partials)
  }

  /** Leaving `SubCursors.process`: the cursor of the parent's children is recorded. */
  function SubExit(m: Multi, parent: Item, subCursor: Option<Cursor>): Multi {
    if parent.cursor.Some? && subCursor.Some? then
      m.(partials := m.partials[parent.cursor.value := subCursor.value])
    else m
  }

  /** `SubCursors.cursor`: from where the children of a parent resume. */
  function SubCursor(m: Multi, parent: Item): Option<Cursor> {
    if parent.cursor.Some? && parent.cursor.value in m.partials then Some(m.partials[parent.cursor.value]) else None
  }

  /** The cursor of a plain inventory that has partials, which are a list and not a dictionary. */
  predicate IsListed(raw: Option<Cursor>) {
    raw.Some? && raw.value.Doc? && raw.value.partials != {}
  }

  /** The `partials` of the object: whatever the text that was loaded has there. */
  datatype Partials = Dict(m: map<Cursor, Cursor>) | Listed(cursors: set<Cursor>)

  class MultiCursorsState {
    var after: Option<Cursor>
    var partials: Partials

    ghost function View(): Multi
      reads this
      requires partials.Dict?
    {
      Multi(after, partials.m)
    }

    constructor FromCursor(raw: Option<Cursor>)
      ensures if IsListed(raw) then after == raw.value.after && partials == Listed(raw.value.partials)
              else partials.Dict? && View() == LoadMulti(raw)
    {
      if raw.Some? && raw.value.Doc? && raw.value.partials != {} {
        after, partials := raw.value.after, Listed(raw.value.partials);
      } else {
        var m := LoadMulti(raw);
        after, partials := m.after, Dict(m.partials);
      }
    }

    /** The `finally` of `RootCursors.process`; with a list it raises, after it took the root cursor. */
    method ProcessRoot(rootCursor: Option<Cursor>, parent: Item) returns (ok: bool)
      modifies this
      ensures ok <==> old(partials).Dict? || parent.cursor.None?
      ensures old(partials).Dict? ==> partials.Dict? && View() == RootExit(old(View()), rootCursor, parent)
      ensures old(partials).Dict? && parent.cursor.Some? ==> parent.cursor.value !in partials.m
      ensures old(partials).Dict? ==> after == rootCursor && forall x :: Some(x) != parent.cursor ==>
                (x in partials.m <==> x in old(partials).m) && (x in partials.m ==> partials.m[x] == old(partials).m[x])
      ensures old(partials).Listed? ==> partials == old(partials) && after == rootCursor
    {
      after := rootCursor;
      if parent.cursor.Some? {
        if partials.Listed? {
          return false;
        }
        partials := Dict(partials.m - {parent.cursor.value});
      }
      return true;
    }

    /** The `finally` of `SubCursors.process`; with a list it raises and changes nothing. */
    method ProcessSub(parent: Item, subCursor: Option<Cursor>) returns (ok: bool)
      modifies this
      ensures ok <==> old(partials).Dict? || parent.cursor.None? || subCursor.None?
      ensures old(partials).Dict? ==> partials.Dict? && View() == SubExit(old(View()), parent, subCursor)
      ensures old(partials).Dict? && parent.cursor.Some? && subCursor.Some? ==>
                parent.cursor.value in partials.m && partials.m[parent.cursor.value] == subCursor.value
      ensures old(partials).Dict? ==> after == old(after) && forall x :: Some(x) != parent.cursor ==>
                (x in partials.m <==> x in old(partials).m) && (x in partials.m ==> partials.m[x] == old(partials).m[x])
      ensures old(partials).Listed? ==> partials == old(partials) && after == old(after)
    {
      if parent.cursor.Some? && subCursor.Some? {
        if partials.Listed? {
          return false;
        }
        partials := Dict(partials.m[parent.cursor.value := subCursor.value]);
      }
      return true;
    }

    /** `SubCursors.cursor`; a list has no `get`. */
    method CursorOf(parent: Item) returns (ok: bool, c: Option<Cursor>)
      ensures ok <==> partials.Dict? || parent.cursor.None?
      ensures partials.Dict? ==> c == SubCursor(View(), parent)
      ensures partials.Listed? ==> c == None
    {
      if parent.cursor.None? {
        return true, None;
      }
      if partials.Listed? {
        return false, None;
      }
      c := if parent.cursor.value in partials.m then Some(partials.m[parent.cursor.value]) else None;
      return true, c;
    }

    /** What is dumped is loaded again as the same state; a list is dumped as the list it is. */
    method AsCursor() returns (c: Cursor)
      ensures partials.Dict? ==> c.JoinDoc? && LoadMulti(Some(c)) == View()
      ensures partials.Listed? ==> c == Doc(after, partials.cursors)
    {
      match partials
      case Dict(m) => c := SaveMulti(Multi(after, m));
      case Listed(cursors) => c := Doc(after, cursors);
    }
  }

  // ----- The state machine -----

  /** The parents, and the children of each. */
  datatype Joined = Joined(root: Source, children: seq<Source>)

  ghost predicate WellFormedJoin(j: Joined) {
    && WellFormed(j.root) && j.root.start == None
    && |j.children| == |j.root.items|
    && (forall p :: 0 <= p < |j.children| ==> WellFormed(j.children[p]) && j.children[p].start == None)
    && (forall p, q :: 0 <= p < q < |j.root.items| && j.root.items[p].cursor.Some? ==>
          j.root.items[p].cursor != j.root.items[q].cursor)
  }

  ghost predicate AllNamedJoin(j: Joined) {
    AllNamed(j.root) && forall p :: 0 <= p < |j.children| ==> AllNamed(j.children[p])
  }

  datatype Limits = Limits(root: Option<nat>, sub: Option<nat>, concurrency: nat)

  /** `waiting` is a parent that waits for the semaphore, `scheduled` are parents that hold a
      permit and whose generator has not started, `subs` the runs of children under way.
      History: `finished` holds for each parent the children ever finished, `base` the saved
      cursors of the last restart, `closed` the runs that ended since. */
  datatype Join = Join(multi: Multi, root: World, waiting: Option<nat>, scheduled: set<nat>,
                       subs: map<nat, World>, finished: seq<set<nat>>, base: Multi, closed: map<nat, World>)

  datatype Event =
    | RootPull
    | Acquire
    | Open(p: nat)
    | SubPull(p: nat)
    | FinishChild(p: nat, c: nat, partials: set<Cursor>)
    | FinishParent(p: nat, partials: set<Cursor>)
    | Crash

  ghost function ResumedJoin(j: Joined, m: Multi, parents: set<nat>, finished: seq<set<nat>>): Join {
    Join(m, Resumed(j.root, Load(m.after), parents), None, {}, map[], finished, m, map[])
  }

  ghost function InitJoin(j: Joined): Join {
    ResumedJoin(j, LoadMulti(None), {}, seq(|j.root.items|, _ => {}))
  }

  ghost predicate Shape(j: Joined, w: Join) {
    && |w.finished| == |j.root.items| == |j.children|
    && w.root.next <= |j.root.items|
    && (forall p :: p in w.subs || p in w.scheduled || p in w.closed || w.waiting == Some(p) ==> p < |j.root.items|)
    && (forall p :: p in w.subs ==> w.subs[p].next <= |j.children[p].items|)
  }

  ghost predicate Enabled(j: Joined, l: Limits, w: Join, e: Event)
    requires Shape(j, w)
  {
    match e
    case RootPull => w.waiting == None && w.root.next < |j.root.items|
    case Acquire => w.waiting.Some? && |w.scheduled| + |w.subs| < l.concurrency
    case Open(p) => p in w.scheduled
    case SubPull(p) => p in w.subs && w.subs[p].next < |j.children[p].items|
    case FinishChild(p, c, q) =>
      && p in w.subs && Resume.Enabled(j.children[p], l.sub, w.subs[p], Finish(c))
      && MaySave(FinishWorld(j.children[p], w.subs[p], c).cs, l.sub, q)
    case FinishParent(p, q) =>
      // The generator is exhausted and `join` has returned.
      && p in w.subs && w.subs[p].next == |j.children[p].items| && w.subs[p].cs.pendings == []
      && MaySave(FinishWorld(j.root, w.root, p).cs, l.root, q)
    case Crash => true
  }

  ghost function Next(j: Joined, l: Limits, w: Join, e: Event): Join
    requires Shape(j, w) && Enabled(j, l, w, e)
  {
    match e
    case RootPull =>
      w.(root := PullWorld(j.root, w.root),
         waiting := if Skips(w.root.cs, j.root.items[w.root.next]) then None else Some(w.root.next))
    case Acquire => w.(waiting := None, scheduled := w.scheduled + {w.waiting.value})
    case Open(p) =>
      w.(scheduled := w.scheduled - {p},
         subs := w.subs[p := Resumed(j.children[p], Load(SubCursor(w.multi, j.root.items[p])), w.finished[p])])
    case SubPull(p) => w.(subs := w.subs[p := PullWorld(j.children[p], w.subs[p])])
    case FinishChild(p, c, q) =>
      var sub := FinishWorld(j.children[p], w.subs[p], c);
      w.(subs := w.subs[p := sub],
         multi := SubExit(w.multi, j.root.items[p], Save(sub.cs.after, q)),
         finished := w.finished[p := w.finished[p] + {c}])
    case FinishParent(p, q) =>
      var root := FinishWorld(j.root, w.root, p);
      w.(root := root,
         multi := RootExit(w.multi, Save(root.cs.after, q), j.root.items[p]),
         subs := w.subs - {p},
         closed := w.closed[p := w.subs[p]])
    case Crash => ResumedJoin(j, LoadMulti(Some(SaveMulti(w.multi))), w.root.finished, w.finished)
  }

  // ----- The invariant -----

  /** A saved cursor from which a run of `src` starts well, when `finished` was finished. */
  ghost predicate GoodCursor(src: Source, raw: Option<Cursor>, finished: set<nat>) {
    Inv(src, Resumed(src, Load(raw), finished))
  }

  ghost predicate RootInv(j: Joined, w: Join) {
    && Inv(j.root, w.root) && GoodCursor(j.root, w.multi.after, w.root.finished)
    && w.root.base == Denoted(j.root, Load(w.base.after))
  }

  ghost predicate ParentInv(j: Joined, w: Join, p: nat)
    requires Shape(j, w) && p < |j.root.items|
  {
    && (forall c :: c in w.finished[p] ==> c < |j.children[p].items|)
    && (p in w.root.finished ==> forall c: nat :: c < |j.children[p].items| ==> c in w.finished[p])
    && GoodCursor(j.children[p], SubCursor(w.multi, j.root.items[p]), w.finished[p])
    && (p in w.subs ==> Inv(j.children[p], w.subs[p]) && w.subs[p].finished == w.finished[p])
  }

  /** A parent that was yielded is in one place. */
  ghost predicate Active(w: Join, p: nat) {
    w.waiting == Some(p) || p in w.scheduled || p in w.subs
  }

  ghost predicate PlacesInv(w: Join) {
    && (forall p: nat :: Active(w, p) ==> p < w.root.next && p !in w.root.done && p !in w.closed)
    && (forall p: nat :: p in w.closed ==> p in w.root.done)
    && (forall p: nat :: p in w.scheduled ==> p !in w.subs && w.waiting != Some(p))
    && (forall p: nat :: p in w.subs ==> w.waiting != Some(p))
    && (forall p: nat :: p in w.root.yielded <==> Active(w, p) || p in w.closed)
  }

  /** A parent holds a permit of the semaphore while it is scheduled or run. */
  ghost predicate PermitsInv(l: Limits, w: Join) {
    w.scheduled !! w.subs.Keys && |w.scheduled| + |w.subs| <= l.concurrency
  }

  /** What the runs of children since the last restart started from, and have yielded. */
  ghost predicate HistoryInv(j: Joined, w: Join, p: nat)
    requires Shape(j, w) && p < |j.root.items|
  {
    var start := Denoted(j.children[p], Load(SubCursor(w.base, j.root.items[p])));
    && (p in w.subs ==> w.subs[p].base == start)
    && (p in w.closed ==> w.closed[p].yielded == Remaining(|j.children[p].items|, start))
    && (p !in w.subs && p !in w.closed ==>
          SubCursor(w.multi, j.root.items[p]) == SubCursor(w.base, j.root.items[p]))
  }

  ghost predicate ParentOk(j: Joined, w: Join, p: nat)
    requires Shape(j, w) && p < |j.root.items|
  {
    ParentInv(j, w, p) && HistoryInv(j, w, p)
  }

  ghost predicate JoinInv(j: Joined, l: Limits, w: Join) {
    && Shape(j, w) && RootInv(j, w) && PlacesInv(w) && PermitsInv(l, w)
    && (forall p: nat :: p < |j.root.items| ==> ParentOk(j, w, p))
  }

  // ----- Lemmas on one run -----

  lemma FreshCursor(src: Source, finished: set<nat>)
    requires WellFormed(src) && src.start == None
    ensures GoodCursor(src, None, finished)
    ensures Denoted(src, Load(None)) == {}
  {
    PositionUnknown(src.items, None);
    assert Denoted(src, Load(None)) == {};
    assert src.items[..0] == [];
    ResumedInv(src, 0, {}, finished);
  }

  /** A join that starts from the cursor of a plain inventory without partials: the root goes on from it, and
      no parent has a record. */
  lemma PlainRootCursor(src: Source, raw: Option<Cursor>, parent: Item)
    requires raw.Some? ==> raw.value.Text? || (raw.value.Doc? && raw.value.partials == {}
                                               && (raw.value.after.Some? ==> raw.value.after.value.Text?))
    ensures Denoted(src, Load(LoadMulti(raw).after)) == Denoted(src, Load(raw))
    ensures SubCursor(LoadMulti(raw), parent) == None
  {
    if raw.Some? && raw.value.Doc? && raw.value.after == Some(Text("")) {
      PositionUnknown(src.items, None);
      PositionUnknown(src.items, raw.value.after);
    }
  }

  lemma GoodCursorGrows(src: Source, raw: Option<Cursor>, finished: set<nat>, more: set<nat>)
    requires GoodCursor(src, raw, finished) && finished <= more
    ensures GoodCursor(src, raw, more)
  {
  }

  /** What a run saves is a good cursor. */
  lemma SavedCursorIsGood(src: Source, limit: Option<nat>, w: World, q: set<Cursor>)
    requires WellFormed(src) && Inv(src, w) && MaySave(w.cs, limit, q)
    ensures GoodCursor(src, Save(w.cs.after, q), w.finished)
  {
    RestartInv(src, limit, w, q);
  }

  /** A run that took all its items and has none pending has finished them all. */
  lemma ExhaustedIsFinished(src: Source, w: World)
    requires Inv(src, w) && w.next == |src.items| && w.cs.pendings == []
    ensures forall i: nat :: i < |src.items| ==> i in w.finished
  {
  }

  // ----- What a step keeps -----

  /** A parent that a step does not concern. */
  lemma ParentUntouched(j: Joined, w: Join, w': Join, p: nat)
    requires Shape(j, w) && Shape(j, w') && p < |j.root.items|
    requires ParentOk(j, w, p)
    requires w'.finished[p] == w.finished[p] && w'.base == w.base
    requires SubCursor(w'.multi, j.root.items[p]) == SubCursor(w.multi, j.root.items[p])
    requires p in w'.root.finished ==> p in w.root.finished
    requires (p in w'.subs <==> p in w.subs) && (p in w.subs ==> w'.subs[p] == w.subs[p])
    requires (p in w'.closed <==> p in w.closed) && (p in w.closed ==> w'.closed[p] == w.closed[p])
    ensures ParentOk(j, w', p)
  {
  }

  /** An exit changes the recorded cursor of no other parent. */
  lemma OtherCursors(j: Joined, m: Multi, p: nat, q: nat)
    requires WellFormedJoin(j) && p < |j.root.items| && q < |j.root.items| && p != q
    ensures forall raw :: SubCursor(SubExit(m, j.root.items[p], raw), j.root.items[q]) == SubCursor(m, j.root.items[q])
    ensures forall raw :: SubCursor(RootExit(m, raw, j.root.items[p]), j.root.items[q]) == SubCursor(m, j.root.items[q])
  {
  }

  /** An item that was taken and is not done is pending in the run. */
  lemma UndoneIsPending(src: Source, w: World, i: nat)
    requires Inv(src, w) && i < w.next && i !in w.done
    ensures Resume.Enabled(src, None, w, Finish(i))
  {
  }

  lemma RootStep(j: Joined, l: Limits, w: Join, e: Event)
    requires WellFormedJoin(j) && Shape(j, w) && RootInv(j, w) && Enabled(j, l, w, e)
    requires e.FinishParent? ==> e.p < w.root.next && e.p !in w.root.done
    ensures RootInv(j, Next(j, l, w, e))
  {
    hide Inv;
    match e
    case RootPull => PullInv(j.root, w.root);
    case FinishParent(p, q) => RootFinishes(j, l, w, p, q);
    case _ =>
  }

  lemma RootFinishes(j: Joined, l: Limits, w: Join, p: nat, q: set<Cursor>)
    requires WellFormedJoin(j) && Shape(j, w) && RootInv(j, w) && Enabled(j, l, w, FinishParent(p, q))
    requires p < w.root.next && p !in w.root.done
    ensures RootInv(j, Next(j, l, w, FinishParent(p, q)))
  {
    hide Inv, GoodCursor;
    var root := FinishWorld(j.root, w.root, p);
    UndoneIsPending(j.root, w.root, p);
    FinishInv(j.root, w.root, p);
    SavedCursorIsGood(j.root, l.root, root, q);
  }

  lemma PullPlaces(j: Joined, l: Limits, w: Join)
    requires Shape(j, w) && PlacesInv(w) && Enabled(j, l, w, RootPull)
    requires forall i :: w.root.next <= i ==> i !in w.root.yielded
    requires Skips(w.root.cs, j.root.items[w.root.next]) <==> w.root.next in w.root.done
    ensures PlacesInv(Next(j, l, w, RootPull))
  {
    var w' := Next(j, l, w, RootPull);
    assert w.root.next !in w.root.yielded;
    assert forall q: nat :: Active(w', q) <==> Active(w, q) || (q == w.root.next && q !in w.root.done);
    if w.root.next !in w.root.done {
      assert w'.root.yielded == w.root.yielded + [w.root.next];
    }
  }

  lemma OpenPlaces(j: Joined, l: Limits, w: Join, p: nat)
    requires Shape(j, w) && PlacesInv(w) && Enabled(j, l, w, Open(p))
    ensures PlacesInv(Next(j, l, w, Open(p)))
  {
    hide Resumed, SubCursor, Load;
    var w' := Next(j, l, w, Open(p));
    assert w'.subs.Keys == w.subs.Keys + {p};
    assert forall q: nat :: Active(w', q) <==> Active(w, q);
  }

  lemma RunningPlaces(j: Joined, l: Limits, w: Join, e: Event)
    requires Shape(j, w) && PlacesInv(w) && Enabled(j, l, w, e) && (e.SubPull? || e.FinishChild?)
    ensures Shape(j, Next(j, l, w, e)) && PlacesInv(Next(j, l, w, e))
  {
    var w' := Next(j, l, w, e);
    assert w'.subs.Keys == w.subs.Keys;
    assert forall q: nat :: Active(w', q) <==> Active(w, q);
  }

  lemma FinishParentPlaces(j: Joined, l: Limits, w: Join, p: nat, q: set<Cursor>)
    requires Shape(j, w) && PlacesInv(w) && Enabled(j, l, w, FinishParent(p, q))
    ensures Shape(j, Next(j, l, w, FinishParent(p, q))) && PlacesInv(Next(j, l, w, FinishParent(p, q)))
  {
    var w' := Next(j, l, w, FinishParent(p, q));
    assert Active(w, p);
    assert w'.subs.Keys == w.subs.Keys - {p};
    assert forall q: nat :: Active(w', q) <==> Active(w, q) && q != p;
  }

  lemma AcquirePlaces(j: Joined, l: Limits, w: Join)
    requires Shape(j, w) && PlacesInv(w) && Enabled(j, l, w, Acquire)
    ensures Shape(j, Next(j, l, w, Acquire)) && PlacesInv(Next(j, l, w, Acquire))
  {
    var w' := Next(j, l, w, Acquire);
    assert forall q: nat :: Active(w', q) <==> Active(w, q);
  }

  lemma PermitsStep(j: Joined, l: Limits, w: Join, e: Event)
    requires Shape(j, w) && PermitsInv(l, w) && Enabled(j, l, w, e)
    requires e.Acquire? ==> w.waiting.value !in w.subs
    ensures PermitsInv(l, Next(j, l, w, e))
  {
  }

  /** The parents are handed from the root run to the semaphore, and on to a run of children. */
  lemma PlacesStep(j: Joined, l: Limits, w: Join, e: Event)
    requires Shape(j, w) && PlacesInv(w) && Enabled(j, l, w, e)
    requires forall i :: w.root.next <= i ==> i !in w.root.yielded
    requires e.RootPull? ==> (Skips(w.root.cs, j.root.items[w.root.next]) <==> w.root.next in w.root.done)
    ensures Shape(j, Next(j, l, w, e)) && PlacesInv(Next(j, l, w, e))
  {
    hide PlacesInv;
    match e
    case RootPull => PullPlaces(j, l, w);
    case Acquire => AcquirePlaces(j, l, w);
    case Open(p) => OpenPlaces(j, l, w, p);
    case SubPull(_) => RunningPlaces(j, l, w, e);
    case FinishChild(_, _, _) => RunningPlaces(j, l, w, e);
    case FinishParent(p, q) => FinishParentPlaces(j, l, w, p, q);
    case Crash => CrashPlaces(j, l, w);
  }

  lemma CrashPlaces(j: Joined, l: Limits, w: Join)
    requires Shape(j, w)
    ensures Shape(j, Next(j, l, w, Crash)) && PlacesInv(Next(j, l, w, Crash))
  {
  }

  lemma UntouchedStep(j: Joined, l: Limits, w: Join, e: Event, p: nat)
    requires WellFormedJoin(j) && Shape(j, w) && p < |j.root.items| && ParentOk(j, w, p) && Enabled(j, l, w, e)
    requires Shape(j, Next(j, l, w, e))
    requires !e.Crash? && ((e.Open? || e.SubPull? || e.FinishChild? || e.FinishParent?) ==> p != e.p)
    ensures ParentOk(j, Next(j, l, w, e), p)
  {
    hide ParentOk, Enabled, Inv, GoodCursor;
    if e.FinishChild? || e.FinishParent? {
      OtherCursors(j, w.multi, e.p, p);
    }
    ParentUntouched(j, w, Next(j, l, w, e), p);
  }

  lemma ParentStep(j: Joined, l: Limits, w: Join, e: Event, p: nat)
    requires WellFormedJoin(j) && Shape(j, w) && p < |j.root.items| && ParentOk(j, w, p) && Enabled(j, l, w, e)
    requires Shape(j, Next(j, l, w, e))
    requires p in w.scheduled ==> p !in w.subs && p !in w.closed
    requires p in w.subs ==> p !in w.closed
    ensures ParentOk(j, Next(j, l, w, e), p)
  {
    if e.Crash? {
    } else if (e.Open? || e.SubPull? || e.FinishChild? || e.FinishParent?) && e.p == p {
      OwnStep(j, l, w, e, p);
    } else {
      UntouchedStep(j, l, w, e, p);
    }
  }

  lemma OwnStep(j: Joined, l: Limits, w: Join, e: Event, p: nat)
    requires WellFormedJoin(j) && Shape(j, w) && p < |j.root.items| && ParentOk(j, w, p) && Enabled(j, l, w, e)
    requires Shape(j, Next(j, l, w, e))
    requires p in w.scheduled ==> p !in w.subs && p !in w.closed
    requires p in w.subs ==> p !in w.closed
    requires (e.Open? || e.SubPull? || e.FinishChild? || e.FinishParent?) && e.p == p
    ensures ParentOk(j, Next(j, l, w, e), p)
  {
    hide Inv, GoodCursor;
    match e
    case SubPull(_) => PullInv(j.children[p], w.subs[p]);
    case FinishChild(_, c, q) => FinishChildParent(j, l, w, p, c, q);
    case FinishParent(_, q) =>
      ExhaustedIsFinished(j.children[p], w.subs[p]);
      FreshCursor(j.children[p], w.finished[p]);
      FinishParentParent(j, l, w, p, q);
    case Open(_) => OpenParent(j, l, w, p);
  }

  lemma OpenParent(j: Joined, l: Limits, w: Join, p: nat)
    requires Shape(j, w) && p < |j.root.items| && ParentOk(j, w, p) && Enabled(j, l, w, Open(p))
    requires p !in w.subs && p !in w.closed && Shape(j, Next(j, l, w, Open(p)))
    ensures ParentOk(j, Next(j, l, w, Open(p)), p)
  {
    hide Inv;
  }

  lemma FinishChildHistory(j: Joined, l: Limits, w: Join, p: nat, c: nat, q: set<Cursor>)
    requires Shape(j, w) && p < |j.root.items| && HistoryInv(j, w, p) && Enabled(j, l, w, FinishChild(p, c, q))
    requires Shape(j, Next(j, l, w, FinishChild(p, c, q))) && p !in w.closed
    ensures HistoryInv(j, Next(j, l, w, FinishChild(p, c, q)), p)
  {
    hide Denoted;
  }

  lemma FinishChildParent(j: Joined, l: Limits, w: Join, p: nat, c: nat, q: set<Cursor>)
    requires WellFormedJoin(j) && Shape(j, w) && p < |j.root.items|
    requires ParentOk(j, w, p) && Enabled(j, l, w, FinishChild(p, c, q))
    requires Shape(j, Next(j, l, w, FinishChild(p, c, q))) && p !in w.closed
    ensures ParentOk(j, Next(j, l, w, FinishChild(p, c, q)), p)
  {
    hide Inv, GoodCursor, HistoryInv, WellFormedJoin, MaySave, Save, Exit;
    FinishChildHistory(j, l, w, p, c, q);
    SubFinishes(j, l, w, p, c, q);
  }

  lemma SubFinishes(j: Joined, l: Limits, w: Join, p: nat, c: nat, q: set<Cursor>)
    requires WellFormedJoin(j) && Shape(j, w) && p < |j.root.items| && p in w.subs
    requires ParentInv(j, w, p) && Enabled(j, l, w, FinishChild(p, c, q))
    ensures c < |j.children[p].items|
    ensures var src, sub := j.children[p], FinishWorld(j.children[p], w.subs[p], c);
            && Inv(src, sub) && GoodCursor(src, Save(sub.cs.after, q), sub.finished)
            && GoodCursor(src, SubCursor(w.multi, j.root.items[p]), sub.finished)
  {
    hide Inv, GoodCursor;
    var sub := FinishWorld(j.children[p], w.subs[p], c);
    FinishInv(j.children[p], w.subs[p], c);
    SavedCursorIsGood(j.children[p], l.sub, sub, q);
    GoodCursorGrows(j.children[p], SubCursor(w.multi, j.root.items[p]), w.finished[p], sub.finished);
  }

  lemma FinishParentParent(j: Joined, l: Limits, w: Join, p: nat, q: set<Cursor>)
    requires Shape(j, w) && p < |j.root.items| && ParentOk(j, w, p) && Enabled(j, l, w, FinishParent(p, q))
    requires Shape(j, Next(j, l, w, FinishParent(p, q))) && p !in w.closed
    requires GoodCursor(j.children[p], None, w.finished[p])
    requires forall c: nat :: c < |j.children[p].items| ==> c in w.finished[p]
    ensures ParentOk(j, Next(j, l, w, FinishParent(p, q)), p)
  {
    hide GoodCursor;
  }

  lemma StepInv(j: Joined, l: Limits, w: Join, e: Event)
    requires WellFormedJoin(j) && JoinInv(j, l, w) && Enabled(j, l, w, e)
    ensures Shape(j, Next(j, l, w, e)) && JoinInv(j, l, Next(j, l, w, e))
  {
    if e.FinishParent? {
      assert Active(w, e.p);
    }
    PlacesStep(j, l, w, e);
    PermitsStep(j, l, w, e);
    RootStep(j, l, w, e);
    forall p: nat | p < |j.root.items|
      ensures ParentOk(j, Next(j, l, w, e), p)
    {
      assert p in w.scheduled || p in w.subs ==> Active(w, p);
      ParentStep(j, l, w, e, p);
    }
  }

  lemma InitJoinInv(j: Joined, l: Limits)
    requires WellFormedJoin(j)
    ensures JoinInv(j, l, InitJoin(j))
  {
    FreshCursor(j.root, {});
    RemainingNone(Position(j.root.items, None), {});
    forall p: nat | p < |j.root.items|
      ensures ParentOk(j, InitJoin(j), p)
    {
      FreshCursor(j.children[p], {});
    }
  }

  // ----- Where the limits have room, nothing finished is forgotten -----

  ghost predicate ExactRoot(j: Joined, w: Join) {
    && Indexed(j.root, w.root.finished) && w.root.done == w.root.finished
    && Denoted(j.root, Load(w.multi.after)) == w.root.finished
  }

  ghost predicate ExactParent(j: Joined, w: Join, p: nat)
    requires Shape(j, w) && p < |j.root.items|
  {
    && (p !in w.root.finished ==>
          Denoted(j.children[p], Load(SubCursor(w.multi, j.root.items[p]))) == w.finished[p])
    && (p in w.subs ==> w.subs[p].done == w.subs[p].finished)
  }

  /** The limit has room for all that the event saves. */
  ghost predicate SaveFits(j: Joined, l: Limits, w: Join, e: Event)
    requires Shape(j, w) && Enabled(j, l, w, e)
  {
    match e
    case FinishChild(p, c, q) => Fits(FinishWorld(j.children[p], w.subs[p], c).cs, l.sub)
    case FinishParent(p, q) => Fits(FinishWorld(j.root, w.root, p).cs, l.root)
    case _ => true
  }

  lemma ExactRootStep(j: Joined, l: Limits, w: Join, e: Event)
    requires WellFormedJoin(j) && AllNamedJoin(j) && JoinInv(j, l, w) && Enabled(j, l, w, e) && SaveFits(j, l, w, e)
    requires ExactRoot(j, w)
    ensures ExactRoot(j, Next(j, l, w, e))
  {
    hide Inv, ParentOk, GoodCursor;
    if e.FinishParent? {
      assert Active(w, e.p);
      ExactRootFinishes(j, l, w, e.p, e.partials);
    } else {
      hide PlacesInv, Denoted, WellFormedJoin;
    }
  }

  lemma ExactRootFinishes(j: Joined, l: Limits, w: Join, p: nat, q: set<Cursor>)
    requires WellFormedJoin(j) && AllNamedJoin(j) && Shape(j, w) && RootInv(j, w) && ExactRoot(j, w)
    requires Enabled(j, l, w, FinishParent(p, q)) && SaveFits(j, l, w, FinishParent(p, q))
    requires p < w.root.next && p !in w.root.done
    ensures ExactRoot(j, Next(j, l, w, FinishParent(p, q)))
  {
    hide Inv, GoodCursor, Denoted, Denotes, Remaining, Save, Load;
    UndoneIsPending(j.root, w.root, p);
    FinishInv(j.root, w.root, p);
    SavedExact(j.root, l.root, FinishWorld(j.root, w.root, p), q);
  }

  lemma ExactChildFinishes(j: Joined, l: Limits, w: Join, p: nat, c: nat, q: set<Cursor>)
    requires WellFormedJoin(j) && AllNamedJoin(j) && Shape(j, w) && p < |j.root.items| && ParentOk(j, w, p)
    requires Enabled(j, l, w, FinishChild(p, c, q)) && SaveFits(j, l, w, FinishChild(p, c, q))
    requires ExactParent(j, w, p)
    requires Shape(j, Next(j, l, w, FinishChild(p, c, q)))
    ensures ExactParent(j, Next(j, l, w, FinishChild(p, c, q)), p)
  {
    hide Inv, HistoryInv, Denoted;
    var src, sub := j.children[p], FinishWorld(j.children[p], w.subs[p], c);
    FinishInv(src, w.subs[p], c);
    SavedExact(src, l.sub, sub, q);
    FreshCursor(src, {});
    assert c in sub.done;
  }

  lemma ExactParentStep(j: Joined, l: Limits, w: Join, e: Event, p: nat)
    requires WellFormedJoin(j) && AllNamedJoin(j) && Shape(j, w) && Enabled(j, l, w, e) && SaveFits(j, l, w, e)
    requires Shape(j, Next(j, l, w, e))
    requires p < |j.root.items| && ParentOk(j, w, p) && ExactParent(j, w, p)
    requires p in w.scheduled ==> p !in w.root.finished
    ensures ExactParent(j, Next(j, l, w, e), p)
  {
    hide ParentOk;
    if e.FinishChild? && e.p == p {
      ExactChildFinishes(j, l, w, p, e.c, e.partials);
    } else if e.FinishChild? || e.FinishParent? {
      ExactOther(j, l, w, e, p);
    } else {
      hide FinishWorld, Enabled;
    }
  }

  lemma ExactOther(j: Joined, l: Limits, w: Join, e: Event, p: nat)
    requires WellFormedJoin(j) && Shape(j, w) && Enabled(j, l, w, e) && (e.FinishChild? || e.FinishParent?)
    requires Shape(j, Next(j, l, w, e)) && p < |j.root.items| && ExactParent(j, w, p)
    requires e.FinishChild? ==> e.p != p
    ensures ExactParent(j, Next(j, l, w, e), p)
  {
    hide Denoted, Load, Save, Exit;
    if e.p != p {
      OtherCursors(j, w.multi, e.p, p);
    }
  }

  ghost predicate ExactInv(j: Joined, w: Join) {
    && Shape(j, w) && ExactRoot(j, w)
    && (forall p: nat :: p < |j.root.items| ==> ExactParent(j, w, p))
  }

  lemma ExactStep(j: Joined, l: Limits, w: Join, e: Event)
    requires WellFormedJoin(j) && AllNamedJoin(j) && JoinInv(j, l, w) && Enabled(j, l, w, e) && SaveFits(j, l, w, e)
    requires ExactInv(j, w)
    ensures Shape(j, Next(j, l, w, e)) && ExactInv(j, Next(j, l, w, e))
  {
    StepInv(j, l, w, e);
    ExactRootStep(j, l, w, e);
    forall p: nat | p < |j.root.items|
      ensures ExactParent(j, Next(j, l, w, e), p)
    {
      assert p in w.scheduled ==> Active(w, p);
      ExactParentStep(j, l, w, e, p);
    }
  }

  lemma ExactInit(j: Joined)
    requires WellFormedJoin(j)
    ensures ExactInv(j, InitJoin(j))
  {
    FreshCursor(j.root, {});
    forall p: nat | p < |j.root.items|
      ensures ExactParent(j, InitJoin(j), p)
    {
      FreshCursor(j.children[p], {});
    }
  }

  // ----- The records are those of unfinished parents -----

  ghost predicate IsUnfinished(j: Joined, done: set<nat>, x: Cursor) {
    exists p :: 0 <= p < |j.root.items| && j.root.items[p].cursor == Some(x) && p !in done
  }

  /** Every record is that of a parent that is not done, also after a restart from the saved cursor. */
  ghost predicate RecordsInv(j: Joined, w: Join) {
    && Denoted(j.root, Load(w.multi.after)) <= w.root.done
    && forall x :: x in w.multi.partials ==> IsUnfinished(j, w.root.done, x)
  }

  lemma RecordsInit(j: Joined)
    requires WellFormedJoin(j)
    ensures RecordsInv(j, InitJoin(j))
  {
    FreshCursor(j.root, {});
  }

  lemma SavedRoot(j: Joined, l: Limits, w: Join, p: nat, q: set<Cursor>)
    requires WellFormedJoin(j) && JoinInv(j, l, w) && p < |j.root.items| && Enabled(j, l, w, FinishParent(p, q))
    ensures var root := FinishWorld(j.root, w.root, p);
            Denoted(j.root, Load(Save(root.cs.after, q))) <= root.done
  {
    hide Inv, Denoted, GoodCursor, ParentOk;
    assert Active(w, p);
    UndoneIsPending(j.root, w.root, p);
    FinishInv(j.root, w.root, p);
    SavedSound(j.root, l.root, FinishWorld(j.root, w.root, p), q);
  }

  lemma FinishParentRecords(j: Joined, l: Limits, w: Join, p: nat, q: set<Cursor>)
    requires WellFormedJoin(j) && JoinInv(j, l, w) && RecordsInv(j, w) && Enabled(j, l, w, FinishParent(p, q))
    ensures RecordsInv(j, Next(j, l, w, FinishParent(p, q)))
  {
    hide Inv, Denoted, GoodCursor, ParentOk, MaySave, Save, Load, Exit;
    assert Active(w, p);
    SavedRoot(j, l, w, p, q);
    ExitRecords(j, w.multi, Save(FinishWorld(j.root, w.root, p).cs.after, q), p, w.root.done);
    hide RootExit, IsUnfinished;
  }

  lemma ExitRecords(j: Joined, m: Multi, raw: Option<Cursor>, p: nat, done: set<nat>)
    requires p < |j.root.items| && forall x :: x in m.partials ==> IsUnfinished(j, done, x)
    ensures forall x :: x in RootExit(m, raw, j.root.items[p]).partials ==> IsUnfinished(j, done + {p}, x)
  {
    forall x | x in RootExit(m, raw, j.root.items[p]).partials
      ensures IsUnfinished(j, done + {p}, x)
    {
      var r :| 0 <= r < |j.root.items| && j.root.items[r].cursor == Some(x) && r !in done;
      assert r != p;
    }
  }

  lemma OtherRecords(j: Joined, l: Limits, w: Join, e: Event)
    requires JoinInv(j, l, w) && RecordsInv(j, w) && Enabled(j, l, w, e) && !e.FinishParent?
    ensures RecordsInv(j, Next(j, l, w, e))
  {
    hide Inv, Denoted, GoodCursor;
    var w' := Next(j, l, w, e);
    assert e.FinishChild? ==> Active(w, e.p);
    forall x | x in w'.multi.partials
      ensures IsUnfinished(j, w'.root.done, x)
    {
      if x in w.multi.partials {
        var r :| 0 <= r < |j.root.items| && j.root.items[r].cursor == Some(x) && r !in w.root.done;
        assert r !in w'.root.done;
      } else {
        assert j.root.items[e.p].cursor == Some(x) && e.p !in w'.root.done;
      }
    }
  }

  lemma RecordsStep(j: Joined, l: Limits, w: Join, e: Event)
    requires WellFormedJoin(j) && JoinInv(j, l, w) && RecordsInv(j, w) && Enabled(j, l, w, e)
    ensures RecordsInv(j, Next(j, l, w, e))
  {
    hide JoinInv, RecordsInv, Next, Enabled;
    if e.FinishParent? {
      FinishParentRecords(j, l, w, e.p, e.partials);
    } else {
      OtherRecords(j, l, w, e);
    }
  }

  // ----- Whole runs -----

  ghost predicate Execution(j: Joined, l: Limits, ws: seq<Join>, es: seq<Event>) {
    && |ws| == |es| + 1
    && ws[0] == InitJoin(j)
    && forall k :: 0 <= k < |es| ==>
         Shape(j, ws[k]) && Enabled(j, l, ws[k], es[k]) && ws[k + 1] == Next(j, l, ws[k], es[k])
  }

  /** Every save before event `n` had room for all that there was. */
  ghost predicate AllSaved(j: Joined, l: Limits, ws: seq<Join>, es: seq<Event>, n: nat)
    requires Execution(j, l, ws, es) && n <= |es|
  {
    forall k :: 0 <= k < n ==> SaveFits(j, l, ws[k], es[k])
  }

  lemma {:induction false} ExecutionInv(j: Joined, l: Limits, ws: seq<Join>, es: seq<Event>, k: nat)
    requires WellFormedJoin(j) && Execution(j, l, ws, es) && k <= |es|
    ensures JoinInv(j, l, ws[k])
    ensures RecordsInv(j, ws[k])
    ensures AllNamedJoin(j) && AllSaved(j, l, ws, es, k) ==> ExactInv(j, ws[k])
  {
    hide JoinInv, ExactInv, RecordsInv;
    if k == 0 {
      InitJoinInv(j, l);
      ExactInit(j);
      RecordsInit(j);
    } else {
      ExecutionInv(j, l, ws, es, k - 1);
      StepInv(j, l, ws[k - 1], es[k - 1]);
      RecordsStep(j, l, ws[k - 1], es[k - 1]);
      if AllNamedJoin(j) && AllSaved(j, l, ws, es, k) {
        ExactStep(j, l, ws[k - 1], es[k - 1]);
      }
    }
  }

  /** What the saved cursor of a join says of child `c` of parent `p`: the root cursor names
      the parent as finished, or the cursor recorded for the parent names the child. */
  ghost predicate PairDenoted(j: Joined, m: Multi, p: nat, c: nat)
    requires p < |j.root.items| == |j.children|
  {
    c < |j.children[p].items|
    && (p in Denoted(j.root, Load(m.after))
        || c in Denoted(j.children[p], Load(SubCursor(m, j.root.items[p]))))
  }

  ghost function DenotedChildren(j: Joined, m: Multi, p: nat): (r: set<nat>)
    requires p < |j.root.items| == |j.children|
    ensures forall c :: c in r <==> PairDenoted(j, m, p, c)
  {
    set c: nat | c < |j.children[p].items| && PairDenoted(j, m, p, c)
  }

  lemma NamesOneParent(j: Joined, w: Join, p: nat)
    requires WellFormedJoin(j) && p < |j.root.items| && j.root.items[p].cursor.Some?
    ensures IsUnfinished(j, w.root.done, j.root.items[p].cursor.value) ==> p !in w.root.done
  {
    if r :| 0 <= r < |j.root.items| && j.root.items[r].cursor == j.root.items[p].cursor && r !in w.root.done {
      assert r == p;
    }
  }

  /** Whatever the limits and the order of events: the cursor has a record of no parent that is
      done, and each record is that of a parent that is not. */
  lemma OnlyUnfinishedParents(j: Joined, l: Limits, ws: seq<Join>, es: seq<Event>)
    requires WellFormedJoin(j) && Execution(j, l, ws, es)
    ensures var w := ws[|es|];
            && (forall p :: p in w.root.done && p < |j.root.items| && j.root.items[p].cursor.Some? ==>
                  j.root.items[p].cursor.value !in w.multi.partials)
            && (forall x :: x in w.multi.partials ==>
                  exists p :: 0 <= p < |j.root.items| && j.root.items[p].cursor == Some(x) && p !in w.root.done)
  {
    ExecutionInv(j, l, ws, es, |es|);
    hide JoinInv, Denoted;
    var w := ws[|es|];
    forall p | p in w.root.done && p < |j.root.items| && j.root.items[p].cursor.Some?
      ensures j.root.items[p].cursor.value !in w.multi.partials
    {
      NamesOneParent(j, w, p);
    }
    assert forall x :: x in w.multi.partials ==> IsUnfinished(j, w.root.done, x);
  }

  /** Whatever the limits and the order of events: a pair that the saved cursor names as
      finished was finished; and no more parents are under way than the limit. */
  lemma JoinSavedSound(j: Joined, l: Limits, ws: seq<Join>, es: seq<Event>, p: nat, c: nat)
    requires WellFormedJoin(j) && Execution(j, l, ws, es) && p < |j.root.items|
    requires PairDenoted(j, ws[|es|].multi, p, c)
    ensures p < |ws[|es|].finished| && c in ws[|es|].finished[p]
    ensures |ws[|es|].scheduled| + |ws[|es|].subs| <= l.concurrency
  {
    ExecutionInv(j, l, ws, es, |es|);
    var w := ws[|es|];
    assert ParentOk(j, w, p);
  }

  /** With a cursor on every item, and as long as the limits have room, the saved cursor names
      exactly the finished pairs. */
  lemma JoinSavedExact(j: Joined, l: Limits, ws: seq<Join>, es: seq<Event>, p: nat)
    requires WellFormedJoin(j) && AllNamedJoin(j) && Execution(j, l, ws, es) && p < |j.root.items|
    requires AllSaved(j, l, ws, es, |es|)
    ensures p < |ws[|es|].finished| && DenotedChildren(j, ws[|es|].multi, p) == ws[|es|].finished[p]
  {
    hide Inv, GoodCursor, PlacesInv, Next, Enabled;
    ExecutionInv(j, l, ws, es, |es|);
    var w := ws[|es|];
    assert ParentOk(j, w, p) && ExactParent(j, w, p);
  }

  /** The root is exhausted and all that it yielded is done. */
  ghost predicate Complete(j: Joined, w: Join) {
    w.root.next == |j.root.items| && forall p: nat :: !Active(w, p)
  }

  /** The children of `p` yielded since the last restart, in order. */
  function YieldedChildren(w: Join, p: nat): seq<nat> {
    if p in w.subs then w.subs[p].yielded
    else if p in w.closed then w.closed[p].yielded
    else []
  }

  /** A resumed join that completes has yielded, parent by parent and in the order of the
      source, exactly the pairs that the cursor it started from does not name, once each;
      which, where the limits had room, are exactly the pairs that were not finished when it was saved. */
  lemma JoinResumeYieldsTheRest(j: Joined, l: Limits, ws: seq<Join>, es: seq<Event>, k: nat, n: nat, p: nat)
    requires WellFormedJoin(j) && Execution(j, l, ws, es) && p < |j.root.items|
    requires k < n <= |es| && es[k] == Crash
    requires forall i :: k < i < n ==> es[i] != Crash
    requires Complete(j, ws[n])
    ensures YieldedChildren(ws[n], p)
         == Remaining(|j.children[p].items|, DenotedChildren(j, ws[k].multi, p))
    ensures p < |ws[k].finished|
    ensures AllNamedJoin(j) && AllSaved(j, l, ws, es, k) ==>
              YieldedChildren(ws[n], p) == Remaining(|j.children[p].items|, ws[k].finished[p])
  {
    hide JoinInv, Complete, Next, Enabled;
    ExecutionInv(j, l, ws, es, n);
    BaseSinceCrash(j, l, ws, es, k, n);
    CompleteYields(j, l, ws[n], p);
    if AllNamedJoin(j) && AllSaved(j, l, ws, es, k) {
      assert Execution(j, l, ws[..k + 1], es[..k]);
      JoinSavedExact(j, l, ws[..k + 1], es[..k], p);
    }
  }

  lemma CompleteYields(j: Joined, l: Limits, w: Join, p: nat)
    requires WellFormedJoin(j) && JoinInv(j, l, w) && Complete(j, w) && p < |j.root.items|
    ensures YieldedChildren(w, p) == Remaining(|j.children[p].items|, DenotedChildren(j, w.base, p))
  {
    hide GoodCursor, Denotes;
    assert !Active(w, p) && ParentOk(j, w, p);
    RootIsHistory(j, w);
    var children := DenotedChildren(j, w.base, p);
    if p in w.root.base {
      assert p !in w.root.yielded;
      RemainingNone(|j.children[p].items|, children);
    } else {
      assert p in w.root.yielded;
      assert children == Denoted(j.children[p], Load(SubCursor(w.base, j.root.items[p])));
    }
  }

  lemma RootIsHistory(j: Joined, w: Join)
    requires RootInv(j, w)
    ensures w.root.yielded == Remaining(w.root.next, w.root.base)
    ensures w.root.base == Denoted(j.root, Load(w.base.after))
  {
  }

  lemma {:induction false} BaseSinceCrash(j: Joined, l: Limits, ws: seq<Join>, es: seq<Event>, k: nat, n: nat)
    requires Execution(j, l, ws, es)
    requires k < n <= |es| && es[k] == Crash
    requires forall i :: k < i < n ==> es[i] != Crash
    ensures ws[n].base == ws[k].multi
  {
    if k + 1 < n {
      BaseSinceCrash(j, l, ws, es, k, n - 1);
    }
  }

  // ----- Progress -----

  /** A run of children goes on, or its parent is done. */
  lemma SubProgress(j: Joined, l: Limits, w: Join, p: nat) returns (e: Event)
    requires WellFormedJoin(j) && Shape(j, w) && p in w.subs && Inv(j.children[p], w.subs[p])
    ensures e != Crash && Enabled(j, l, w, e)
  {
    hide Inv, WellFormed, MaySave;
    var src, sub := j.children[p], w.subs[p];
    if sub.next < |src.items| {
      e := SubPull(p);
    } else if sub.cs.pendings == [] {
      var q := SomethingToSave(FinishWorld(j.root, w.root, p).cs, l.root);
      e := FinishParent(p, q);
    } else {
      FirstIsPending(src, l.sub, sub);
      hide FinishWorld;
      var c := Committed(sub);
      var q := SomethingToSave(FinishWorld(src, sub, c).cs, l.sub);
      e := FinishChild(p, c, q);
    }
  }

  /** A state of the join at the end of a run, and one more event. */
  lemma OneMore(j: Joined, l: Limits, ws: seq<Join>, es: seq<Event>, e: Event)
    requires Execution(j, l, ws, es) && Shape(j, ws[|es|]) && Enabled(j, l, ws[|es|], e)
    ensures Execution(j, l, ws + [Next(j, l, ws[|es|], e)], es + [e])
  {
    hide Shape, Enabled, Next, InitJoin;
    var all, events := ws + [Next(j, l, ws[|es|], e)], es + [e];
    forall k | 0 <= k < |events|
      ensures Shape(j, all[k]) && Enabled(j, l, all[k], events[k]) && all[k + 1] == Next(j, l, all[k], events[k])
    {
      if k < |es| {
        assert all[k] == ws[k] && all[k + 1] == ws[k + 1] && events[k] == es[k];
      }
    }
  }

  /** The first `n` parents run, and nothing else has happened. */
  ghost predicate FirstRun(w: Join, n: nat) {
    && w.root.next == n && w.root.cs.partials == {} && w.waiting == None && w.scheduled == {} && |w.subs| == n
    && forall p :: p in w.subs ==> p < n
  }

  lemma OneParentMore(j: Joined, l: Limits, w: Join, n: nat)
    requires Shape(j, w) && FirstRun(w, n) && n < l.concurrency && n < |j.root.items|
    ensures Enabled(j, l, w, RootPull)
    ensures var pulled := Next(j, l, w, RootPull); Shape(j, pulled) && Enabled(j, l, pulled, Acquire)
    ensures var taken := Next(j, l, Next(j, l, w, RootPull), Acquire); Shape(j, taken) && Enabled(j, l, taken, Open(n))
    ensures var runs := Next(j, l, Next(j, l, Next(j, l, w, RootPull), Acquire), Open(n));
            Shape(j, runs) && FirstRun(runs, n + 1)
  {
    hide Position, Denoted, Load;
  }

  /** As many runs of children as there are permits can be under way at once. */
  lemma {:induction false} RunsAtOnce(j: Joined, l: Limits, n: nat) returns (ws: seq<Join>, es: seq<Event>)
    requires WellFormedJoin(j) && n <= l.concurrency && n <= |j.root.items|
    ensures Execution(j, l, ws, es) && Shape(j, ws[|es|]) && FirstRun(ws[|es|], n) && |ws[|es|].subs| == n
  {
    if n == 0 {
      ws, es := [InitJoin(j)], [];
      PositionUnknown(j.root.items, None);
    } else {
      hide Shape, Enabled, Next, FirstRun, InitJoin, WellFormedJoin;
      ws, es := RunsAtOnce(j, l, n - 1);
      var w := ws[|es|];
      OneParentMore(j, l, w, n - 1);
      var pulled := Next(j, l, w, RootPull);
      var taken := Next(j, l, pulled, Acquire);
      OneMore(j, l, ws, es, RootPull);
      OneMore(j, l, ws + [pulled], es + [RootPull], Acquire);
      OneMore(j, l, ws + [pulled] + [taken], es + [RootPull] + [Acquire], Open(n - 1));
      ws := ws + [pulled] + [taken] + [Next(j, l, taken, Open(n - 1))];
      es := es + [RootPull] + [Acquire] + [Open(n - 1)];
      AsManyAsRun(ws[|es|], n);
    }
  }

  lemma AsManyAsRun(w: Join, n: nat)
    requires FirstRun(w, n)
    ensures |w.subs| == n
  {
  }

  /** A join with a permit to give never comes to a halt: until it is complete, some event other
      than a crash can happen. */
  lemma NeverHalts(j: Joined, l: Limits, ws: seq<Join>, es: seq<Event>) returns (e: Event)
    requires WellFormedJoin(j) && Execution(j, l, ws, es) && l.concurrency >= 1
    requires !Complete(j, ws[|es|])
    ensures Shape(j, ws[|es|]) && e != Crash && Enabled(j, l, ws[|es|], e)
  {
    ExecutionInv(j, l, ws, es, |es|);
    var w := ws[|es|];
    if p :| p in w.subs {
      assert ParentOk(j, w, p);
      e := SubProgress(j, l, w, p);
    } else if p :| p in w.scheduled {
      e := Open(p);
    } else if w.waiting.Some? {
      assert w.scheduled == {} && w.subs.Keys == {};
      e := Acquire;
    } else {
      e := RootPull;
    }
  }
}
