/** The position an inventory saves: worker/inventory.py, `CursorsState`.

    A source names its items by cursors.  `CursorsState` follows the items that were taken
    from the source, commits the finished prefix to `after`, and saves what finished beyond
    the prefix as partials. */
module Cursors {
  import opened Options

  /** A cursor is a text.  The texts that a state dumps as JSON are kept parsed, which is to
      treat dump and load as inverse: `Doc` is a dump of `CursorsState`, `JoinDoc` a dump of
      `MultiCursorsState`, and `Text` is any text that is neither. */
  datatype Cursor =
    | Text(text: string)
    | Doc(after: Option<Cursor>, partials: set<Cursor>)
    | JoinDoc(root: Option<Cursor>, subs: map<Cursor, Cursor>)

  /** `id` stands for the identity of the item object. */
  datatype Item = Item(id: nat, cursor: Option<Cursor>)

  datatype Pending = Pending(isPending: bool, item: Item)

  /** The value of a `CursorsState` object. */
  datatype State = State(after: Option<Cursor>, partials: set<Cursor>, pendings: seq<Pending>)

  /** Neither missing nor the empty text. */
  predicate Truthy(c: Option<Cursor>) {
    c.Some? && c.value != Text("")
  }

  predicate UniqueIds(p: seq<Pending>) {
    forall i, j :: 0 <= i < j < |p| ==> p[i].item.id != p[j].item.id
  }

  /** The last usable cursor of a stretch of items. */
  function LastCursor(items: seq<Item>, default: Option<Cursor>): Option<Cursor> {
    if items == [] then default
    else
      var last := items[|items| - 1];
      if Truthy(last.cursor) then last.cursor else LastCursor(items[..|items| - 1], default)
  }

  function ItemsOf(p: seq<Pending>): (items: seq<Item>)
    ensures |items| == |p|
    ensures forall k :: 0 <= k < |p| ==> items[k] == p[k].item
  {
    seq(|p|, k requires 0 <= k < |p| => p[k].item)
  }

  /** The length of the longest prefix of entries that are all done. */
  function DonePrefix(p: seq<Pending>): (n: nat)
    ensures n <= |p|
    ensures forall k :: 0 <= k < n ==> !p[k].isPending
    ensures n < |p| ==> p[n].isPending
  {
    if p == [] || p[0].isPending then 0 else 1 + DonePrefix(p[1..])
  }

  /** Store the entry of `id` as done, where it stands in the insertion order. */
  function MarkDone(p: seq<Pending>, id: nat): (q: seq<Pending>)
    ensures |q| == |p|
    ensures forall k :: 0 <= k < |p| ==> q[k].item == p[k].item
    ensures forall k :: 0 <= k < |p| ==> (q[k].isPending <==> p[k].isPending && p[k].item.id != id)
  {
    seq(|p|, k requires 0 <= k < |p| =>
      if p[k].item.id == id then Pending(false, p[k].item) else p[k])
  }

  /** The entries but those of `id`. */
  function Without(p: seq<Pending>, id: nat): seq<Pending> {
    if p == [] then []
    else if p[0].item.id == id then Without(p[1..], id)
    else [p[0]] + Without(p[1..], id)
  }

  /** The cursors of the done entries, in insertion order. */
  function DoneCursors(p: seq<Pending>): seq<Cursor> {
    if p == [] then []
    else
      (if !p[0].isPending && p[0].item.cursor.Some? then [p[0].item.cursor.value] else [])
      + DoneCursors(p[1..])
  }

  function Elements(s: seq<Cursor>): (r: set<Cursor>)
    ensures forall c :: c in r <==> c in s
  {
    set c | c in s
  }

  function First(s: seq<Cursor>, n: nat): seq<Cursor> {
    if n < |s| then s[..n] else s
  }

  /** The item was finished by an earlier run. */
  predicate Skips(s: State, item: Item) {
    Truthy(item.cursor) && item.cursor.value in s.partials
  }

  /** Entering `process_item`. */
  function Enter(s: State, item: Item): State {
    State(s.after,
          if Skips(s, item) then s.partials - {item.cursor.value} else s.partials,
          s.pendings + [Pending(true, item)])
  }

  /** Leaving `process_item`. */
  function Exit(s: State, id: nat): State {
    var p := MarkDone(s.pendings, id);
    var n := DonePrefix(p);
    State(LastCursor(ItemsOf(p[..n]), s.after), s.partials, p[n..])
  }

  /** The sets of partials that `as_dict` may save.  Only the order in which a Python set is
      walked leaves it a choice, and only under a limit. */
  ghost predicate MaySave(s: State, maxPartials: Option<nat>, p: set<Cursor>) {
    var done := DoneCursors(s.pendings);
    match maxPartials
    case None => p == s.partials + Elements(done)
    case Some(m) =>
      if m == 0 then p == {}
      else
        var recent := Elements(First(done, m));
        exists older: set<Cursor> :: older <= s.partials && p == older + recent
          && |older| == if m - |recent| < |s.partials| then m - |recent| else |s.partials|
  }

  /** `as_cursor`: the dump, or nothing when there is nothing to say. */
  function Save(after: Option<Cursor>, partials: set<Cursor>): Option<Cursor> {
    if after == None && partials == {} then None else Some(Doc(after, partials))
  }

  /** `from_cursor`: a dump is read back, and any other text is a plain position. */
  function Load(raw: Option<Cursor>): State {
    if !Truthy(raw) then State(None, {}, [])
    else
      match raw.value
      case Text(_) => State(raw, {}, [])
      case Doc(after, partials) => State(after, partials, [])
      case JoinDoc(root, subs) => State(root, subs.Keys, [])
  }

  /** What is saved is what is read back. */
  lemma SaveThenLoad(after: Option<Cursor>, partials: set<Cursor>)
    ensures Load(Save(after, partials)) == State(after, partials, [])
  {
  }

  lemma ElementsOfFirst(s: seq<Cursor>, n: nat)
    ensures |Elements(First(s, n))| <= n
    ensures Elements(First(s, n)) <= Elements(s)
  {
    SetOfSeqSize(First(s, n));
  }

  lemma {:induction false} SetOfSeqSize(s: seq<Cursor>)
    ensures |Elements(s)| <= |s|
  {
    if s != [] {
      SetOfSeqSize(s[1..]);
      assert Elements(s) == Elements(s[1..]) + {s[0]};
    }
  }

  /** A saved set never holds more than the limit, and only cursors of the state. */
  lemma SavedWithinLimit(s: State, m: nat, p: set<Cursor>)
    requires MaySave(s, Some(m), p)
    ensures |p| <= m
    ensures p <= s.partials + Elements(DoneCursors(s.pendings))
  {
  }

  /** The limit has room for all that there is to save. */
  predicate Fits(s: State, maxPartials: Option<nat>) {
    maxPartials.Some? ==> |s.partials| + |DoneCursors(s.pendings)| <= maxPartials.value
  }

  /** Then all of it is saved. */
  lemma FitSavesAll(s: State, maxPartials: Option<nat>, p: set<Cursor>)
    requires MaySave(s, maxPartials, p) && Fits(s, maxPartials)
    ensures p == s.partials + Elements(DoneCursors(s.pendings))
  {
    var done := DoneCursors(s.pendings);
    if maxPartials.Some? && maxPartials.value > 0 {
      var m, recent := maxPartials.value, Elements(First(done, maxPartials.value));
      SetOfSeqSize(done);
      var older: set<Cursor> :| older <= s.partials && p == older + recent
        && |older| == if m - |recent| < |s.partials| then m - |recent| else |s.partials|;
      SameSize(older, s.partials);
    }
  }

  lemma SameSize(a: set<Cursor>, b: set<Cursor>)
    requires a <= b && |a| == |b|
    ensures a == b
  {
    assert |b - a| == 0;
  }

  /** The first of the finished items are saved, as many as the limit allows. */
  lemma SavesTheFirst(s: State, m: nat, p: set<Cursor>, k: nat)
    requires MaySave(s, Some(m), p) && k < m && k < |DoneCursors(s.pendings)|
    ensures DoneCursors(s.pendings)[k] in p
  {
    assert DoneCursors(s.pendings)[k] == First(DoneCursors(s.pendings), m)[k];
  }

  /** There is always a set of partials to save. */
  lemma SomethingToSave(s: State, limit: Option<nat>) returns (q: set<Cursor>)
    ensures MaySave(s, limit, q)
  {
    var done := DoneCursors(s.pendings);
    match limit
    case None => q := s.partials + Elements(done);
    case Some(m) =>
      if m == 0 {
        q := {};
      } else {
        var recent := Elements(First(done, m));
        ElementsOfFirst(done, m);
        var older := SubsetOfSize(s.partials, if m - |recent| < |s.partials| then m - |recent| else |s.partials|);
        q := older + recent;
      }
  }

  lemma SubsetOfSize(s: set<Cursor>, n: nat) returns (t: set<Cursor>)
    requires n <= |s|
    ensures t <= s && |t| == n
  {
    if n == 0 {
      t := {};
    } else {
      var x :| x in s;
      t := SubsetOfSize(s - {x}, n - 1);
      t := t + {x};
    }
  }

  predicate NoneTwice(s: seq<Cursor>) {
    forall i, j :: 0 <= i < j < |s| ==> s[i] != s[j]
  }

  lemma {:induction false} AsManyElements(s: seq<Cursor>)
    requires NoneTwice(s)
    ensures |Elements(s)| == |s|
  {
    if s != [] {
      AsManyElements(s[1..]);
      assert Elements(s) == Elements(s[1..]) + {s[0]};
      assert s[0] !in s[1..];
    }
  }

  /** Where there is more to save than the limit allows, the saved set is as large as the limit. */
  lemma SavesUpToTheLimit(s: State, m: nat, p: set<Cursor>)
    requires MaySave(s, Some(m), p) && !Fits(s, Some(m))
    requires NoneTwice(DoneCursors(s.pendings)) && s.partials !! Elements(DoneCursors(s.pendings))
    ensures |p| == m
  {
    var done := DoneCursors(s.pendings);
    if m > 0 {
      var recent := Elements(First(done, m));
      AsManyElements(First(done, m));
      var older: set<Cursor> :| older <= s.partials && p == older + recent
        && |older| == if m - |recent| < |s.partials| then m - |recent| else |s.partials|;
      ElementsOfFirst(done, m);
      assert older !! recent;
    }
  }

  lemma {:induction false} DoneCursorsSplit(p: seq<Pending>, q: seq<Pending>)
    ensures DoneCursors(p + q) == DoneCursors(p) + DoneCursors(q)
  {
    if p == [] {
      assert p + q == q;
    } else {
      assert (p + q)[1..] == p[1..] + q;
      DoneCursorsSplit(p[1..], q);
    }
  }

  /** The cursors gathered from the done entries are those of the done entries. */
  lemma {:induction false} DoneCursorsMembers(p: seq<Pending>, c: Cursor)
    ensures c in DoneCursors(p) <==>
            exists k :: 0 <= k < |p| && !p[k].isPending && p[k].item.cursor == Some(c)
  {
    if p != [] {
      DoneCursorsMembers(p[1..], c);
      if k :| 0 <= k < |p| && !p[k].isPending && p[k].item.cursor == Some(c) {
        assert k > 0 ==> p[1..][k - 1] == p[k];
      }
    }
  }

  /** Deleting the first key of the dictionary drops the first entry. */
  lemma {:induction false} WithoutFirst(p: seq<Pending>)
    requires p != [] && UniqueIds(p)
    ensures Without(p, p[0].item.id) == p[1..]
  {
    WithoutAbsent(p[1..], p[0].item.id);
  }

  lemma WithoutDone(marked: seq<Pending>, j: nat)
    requires UniqueIds(marked) && j < DonePrefix(marked)
    ensures Without(marked[j..], ItemsOf(marked[..DonePrefix(marked)])[j].id) == marked[j + 1..]
  {
    WithoutFirst(marked[j..]);
  }

  lemma UniqueBehind(p: seq<Pending>, n: nat)
    requires UniqueIds(p) && n <= |p|
    ensures UniqueIds(p[n..])
  {
  }

  lemma {:induction false} WithoutAbsent(p: seq<Pending>, id: nat)
    requires forall k :: 0 <= k < |p| ==> p[k].item.id != id
    ensures Without(p, id) == p
  {
    if p != [] {
      WithoutAbsent(p[1..], id);
    }
  }

  class CursorsState {
    var after: Option<Cursor>
    var partials: set<Cursor>
    const maxPartials: Option<nat>
    var pendings: seq<Pending>

    ghost predicate Valid()
      reads this
    {
      UniqueIds(pendings)
    }

    ghost function View(): State
      reads this
    {
      State(after, partials, pendings)
    }

    constructor FromCursor(raw: Option<Cursor>, maxPartials: Option<nat>)
      ensures Valid() && View() == Load(raw)
      ensures this.maxPartials == maxPartials
    {
      var s := Load(raw);
      after := s.after;
      partials := s.partials;
      pendings := [];
      this.maxPartials := maxPartials;
    }

    /** The first half of `process_item`: up to the `yield`, whose value is `process`. */
    method EnterItem(item: Item) returns (process: bool)
      requires Valid()
      requires forall k :: 0 <= k < |pendings| ==> pendings[k].item.id != item.id
      modifies this
      ensures Valid() && View() == Enter(old(View()), item)
      ensures process == !Skips(old(View()), item)
    {
      pendings := pendings + [Pending(true, item)];
      if Truthy(item.cursor) && item.cursor.value in partials {
        partials := partials - {item.cursor.value};
        process := false;
      } else {
        process := true;
      }
    }

    /** The `finally` of `process_item`. */
    method ExitItem(item: Item)
      requires Valid()
      requires exists k :: 0 <= k < |pendings| && pendings[k].item == item
      modifies this
      ensures Valid() && View() == Exit(old(View()), item.id)
    {
      pendings := MarkDone(pendings, item.id);
      var marked := pendings;
      assert UniqueIds(marked);
      hide MarkDone, DonePrefix, ItemsOf, Without, UniqueIds;
      var itemsDone := CollectDone(marked);
      for j := 0 to |itemsDone|
        invariant pendings == marked[j..] && after == old(after) && partials == old(partials)
      {
        WithoutDone(marked, j);
        pendings := Without(pendings, itemsDone[j].id);
      }
      UniqueBehind(marked, |itemsDone|);

      after := CommitLast(itemsDone, after);
    }

    /** `as_dict`: the two saved fields. */
    method AsDict() returns (a: Option<Cursor>, p: set<Cursor>)
      ensures a == after && MaySave(View(), maxPartials, p)
    {
      a := after;
      p := {};
      if maxPartials != Some(0) {
        var done := DoneCursors(pendings);
        if maxPartials.Some? {
          var recent := Elements(First(done, maxPartials.value));
          ElementsOfFirst(done, maxPartials.value);
          var older := TakeSome(partials, maxPartials.value - |recent|);
          p := older + recent;
        } else {
          p := partials + Elements(done);
        }
      }
    }

    method AsCursor() returns (c: Option<Cursor>)
      ensures exists p :: MaySave(View(), maxPartials, p) && c == Save(after, p)
    {
      var a, p := AsDict();
      c := Save(a, p);
    }
  }

  /** Collect the series of done items from the beginning. */
  method CollectDone(pendings: seq<Pending>) returns (itemsDone: seq<Item>)
    ensures itemsDone == ItemsOf(pendings[..DonePrefix(pendings)])
  {
    itemsDone := [];
    while |itemsDone| < |pendings| && !pendings[|itemsDone|].isPending
      invariant |itemsDone| <= |pendings|
      invariant forall k :: 0 <= k < |itemsDone| ==>
        itemsDone[k] == pendings[k].item && !pendings[k].isPending
    {
      itemsDone := itemsDone + [pendings[|itemsDone|].item];
    }
  }

  /** Commit the last usable cursor of the finished stretch. */
  method CommitLast(itemsDone: seq<Item>, after: Option<Cursor>) returns (committed: Option<Cursor>)
    ensures committed == LastCursor(itemsDone, after)
  {
    var j := |itemsDone|;
    assert itemsDone[..j] == itemsDone;
    while j > 0
      invariant 0 <= j <= |itemsDone|
      invariant LastCursor(itemsDone, after) == LastCursor(itemsDone[..j], after)
    {
      j := j - 1;
      assert itemsDone[..j + 1][..j] == itemsDone[..j];
      if Truthy(itemsDone[j].cursor) {
        return itemsDone[j].cursor;
      }
    }
    return after;
  }

  /** `set(islice(s, n))`: some `n` elements, or all when there are fewer. */
  method TakeSome(s: set<Cursor>, n: nat) returns (t: set<Cursor>)
    ensures t <= s && |t| == if n < |s| then n else |s|
  {
    t := {};
    var rest := s;
    while rest != {} && |t| < n
      invariant t !! rest && t + rest == s && |t| <= n
      decreases rest
    {
      var c :| c in rest;
      t, rest := t + {c}, rest - {c};
    }
    assert |t| + |rest| == |s| by {
      assert t + rest == s;
    }
  }
}
