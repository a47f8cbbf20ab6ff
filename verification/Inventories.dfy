/** The sources below a run, and the run itself: worker/inventory.py, `Inventory.iterate` and
    `Inventory.run`, with worker/inventories/static.py as the concrete source. */
module Inventories {
  import opened Options
  import opened Cursors
  import opened Resume

  // ----- Paginated sources -----

  /** The source law: a batch is a non-empty stretch of what follows `after`, while there is any. */
  function NextBatch(items: seq<Item>, size: nat, after: Option<Cursor>): seq<Item> {
    var begin := Position(items, after);
    if begin + size < |items| then items[begin..begin + size] else items[begin..]
  }

  function Stretch(items: seq<Item>, begin: nat, end: nat): seq<Item>
    requires begin <= end <= |items|
  {
    items[begin..end]
  }

  function BatchEnd(items: seq<Item>, size: nat, p: nat): nat
    requires p <= |items|
  {
    if p + size < |items| then p + size else |items|
  }

  /** A batch is the next stretch, and, when its last item has a cursor, leads to the position behind
      it; only at the end of the source is it empty. */
  lemma BatchAdvances(src: Source, size: nat, after: Option<Cursor>)
    requires size > 0 && WellFormed(src)
    ensures var p, batch := Position(src.items, after), NextBatch(src.items, size, after);
            if batch == [] then p == |src.items|
            else
              && p + |batch| == BatchEnd(src.items, size, p) && batch == Stretch(src.items, p, p + |batch|)
              && (Truthy(batch[|batch| - 1].cursor) ==>
                    Position(src.items, batch[|batch| - 1].cursor) == p + |batch|)
  {
    var p, batch := Position(src.items, after), NextBatch(src.items, size, after);
    if batch != [] && Truthy(batch[|batch| - 1].cursor) {
      PositionOfIndex(src.items, batch[|batch| - 1].cursor, p + |batch| - 1);
    }
  }

  /** After a batch whose last item has no cursor, the source is asked from its start again. */
  lemma NamelessEndRestarts(items: seq<Item>, size: nat, after: Option<Cursor>)
    requires var batch := NextBatch(items, size, after); batch != [] && !Truthy(batch[|batch| - 1].cursor)
    ensures var batch := NextBatch(items, size, after);
            NextBatch(items, size, batch[|batch| - 1].cursor) == NextBatch(items, size, None)
  {
    PositionUnknown(items, None);
    PositionUnknown(items, NextBatch(items, size, after)[|NextBatch(items, size, after)| - 1].cursor);
  }

  /** The last item of every batch from `p` on has a cursor. */
  predicate EndsNamed(items: seq<Item>, size: nat, p: nat)
    requires size > 0 && p <= |items|
    decreases |items| - p
  {
    p == |items| ||
    var q := BatchEnd(items, size, p);
    Truthy(items[q - 1].cursor) && EndsNamed(items, size, q)
  }

  lemma {:induction false} AllNamedEndsNamed(src: Source, size: nat, p: nat)
    requires size > 0 && p <= |src.items| && AllNamed(src)
    ensures EndsNamed(src.items, size, p)
    decreases |src.items| - p
  {
    if p < |src.items| {
      AllNamedEndsNamed(src, size, BatchEnd(src.items, size, p));
    }
  }

  /** The items of the first `k` batches, each asked for with the cursor of the item before it. */
  function Pages(items: seq<Item>, size: nat, after: Option<Cursor>, k: nat): seq<Item>
    decreases k
  {
    var batch := NextBatch(items, size, after);
    if k == 0 || batch == [] then [] else batch + Pages(items, size, batch[|batch| - 1].cursor, k - 1)
  }

  lemma NoPage(items: seq<Item>, size: nat, after: Option<Cursor>, k: nat)
    ensures k == 0 || NextBatch(items, size, after) == [] ==> Pages(items, size, after, k) == []
  {
  }

  lemma OneMorePage(items: seq<Item>, size: nat, after: Option<Cursor>, k: nat)
    requires NextBatch(items, size, after) != []
    ensures var batch := NextBatch(items, size, after);
            Pages(items, size, after, k + 1) == batch + Pages(items, size, batch[|batch| - 1].cursor, k)
  {
  }

  /** What follows `after`. */
  function Rest(items: seq<Item>, after: Option<Cursor>): seq<Item> {
    items[Position(items, after)..]
  }

  /** Behind a batch that ends with a cursor, the rest is the rest of what was left before it. */
  lemma RestAfterBatch(src: Source, size: nat, after: Option<Cursor>)
    requires size > 0 && WellFormed(src)
    ensures var batch := NextBatch(src.items, size, after);
            if batch == [] then Rest(src.items, after) == []
            else Truthy(batch[|batch| - 1].cursor) ==>
                   Rest(src.items, after) == batch + Rest(src.items, batch[|batch| - 1].cursor)
  {
    BatchAdvances(src, size, after);
    hide Position, NextBatch, WellFormed;
  }

  lemma NamedAfterBatch(src: Source, size: nat, after: Option<Cursor>)
    requires size > 0 && WellFormed(src)
    ensures var items, batch := src.items, NextBatch(src.items, size, after);
            batch != [] && Truthy(batch[|batch| - 1].cursor) ==>
              EndsNamed(items, size, Position(items, after))
              == EndsNamed(items, size, Position(items, batch[|batch| - 1].cursor))
  {
    BatchAdvances(src, size, after);
    hide Position, NextBatch, WellFormed;
  }

  lemma NamelessEnd(src: Source, size: nat, after: Option<Cursor>)
    requires size > 0 && WellFormed(src)
    ensures var batch := NextBatch(src.items, size, after);
            if batch == [] then EndsNamed(src.items, size, Position(src.items, after))
            else EndsNamed(src.items, size, Position(src.items, after)) ==> Truthy(batch[|batch| - 1].cursor)
  {
    BatchAdvances(src, size, after);
    hide Position, NextBatch, WellFormed;
  }

  lemma PrefixBehind(batch: seq<Item>, a: seq<Item>, b: seq<Item>)
    ensures batch + a <= batch + b <==> a <= b
  {
    assert (batch + a)[|batch|..] == a && (batch + b)[|batch|..] == b;
    if batch + a <= batch + b {
      assert (batch + b)[..|batch + a|][|batch|..] == b[..|a|];
    }
  }

  /** As long as every batch ends with a cursor, the batches are what follows `after`. */
  lemma {:induction false} NamedPages(src: Source, size: nat, after: Option<Cursor>, k: nat)
    requires size > 0 && WellFormed(src) && EndsNamed(src.items, size, Position(src.items, after))
    ensures Pages(src.items, size, after, k) <= Rest(src.items, after)
    ensures k >= |Rest(src.items, after)| ==> Pages(src.items, size, after, k) == Rest(src.items, after)
    decreases k
  {
    hide *;
    var batch := NextBatch(src.items, size, after);
    RestAfterBatch(src, size, after);
    NamedAfterBatch(src, size, after);
    NamelessEnd(src, size, after);
    NoPage(src.items, size, after, k);
    if k > 0 && batch != [] {
      var next := batch[|batch| - 1].cursor;
      OneMorePage(src.items, size, after, k - 1);
      NamedPages(src, size, next, k - 1);
      PrefixBehind(batch, Pages(src.items, size, next, k - 1), Rest(src.items, next));
    }
  }

  /** After a batch that ends without one, the first item of the source comes out of order. */
  lemma NamelessPages(src: Source, size: nat, after: Option<Cursor>)
    requires size > 0 && WellFormed(src)
    requires var batch := NextBatch(src.items, size, after); batch != [] && !Truthy(batch[|batch| - 1].cursor)
    ensures !(Pages(src.items, size, after, 2) <= Rest(src.items, after))
  {
    var items, batch := src.items, NextBatch(src.items, size, after);
    var p, again := Position(items, after), NextBatch(items, size, batch[|batch| - 1].cursor);
    BatchAdvances(src, size, after);
    PositionUnknown(items, batch[|batch| - 1].cursor);
    assert Pages(items, size, batch[|batch| - 1].cursor, 1) == again;
    assert again[0] == items[0];
    hide Position, NextBatch;
    NextInPrefix(batch, again, Rest(items, after));
  }

  lemma NextInPrefix(a: seq<Item>, b: seq<Item>, s: seq<Item>)
    requires b != [] && (|a| < |s| ==> s[|a|] != b[0])
    ensures !(a + b <= s)
  {
    assert (a + b)[|a|] == b[0];
  }

  lemma {:induction false} SomePages(src: Source, size: nat, after: Option<Cursor>) returns (k: nat)
    requires size > 0 && WellFormed(src) && !EndsNamed(src.items, size, Position(src.items, after))
    ensures !(Pages(src.items, size, after, k) <= Rest(src.items, after))
    decreases |Rest(src.items, after)|
  {
    hide *;
    var batch := NextBatch(src.items, size, after);
    RestAfterBatch(src, size, after);
    NamedAfterBatch(src, size, after);
    NamelessEnd(src, size, after);
    if !Truthy(batch[|batch| - 1].cursor) {
      NamelessPages(src, size, after);
      return 2;
    }
    var next := batch[|batch| - 1].cursor;
    k := SomePages(src, size, next);
    OneMorePage(src.items, size, after, k);
    PrefixBehind(batch, Pages(src.items, size, next, k), Rest(src.items, next));
    k := k + 1;
  }

  /** However far it is read, the source gives each item behind `after` once and in order, if and
      only if every batch ends with an item that has a cursor. */
  lemma PagesAreInOrderIff(src: Source, size: nat, after: Option<Cursor>)
    requires size > 0 && WellFormed(src)
    ensures (forall k: nat :: Pages(src.items, size, after, k) <= Rest(src.items, after))
       <==> EndsNamed(src.items, size, Position(src.items, after))
  {
    if EndsNamed(src.items, size, Position(src.items, after)) {
      forall k: nat
        ensures Pages(src.items, size, after, k) <= Rest(src.items, after)
      {
        NamedPages(src, size, after, k);
      }
    } else {
      var k := SomePages(src, size, after);
    }
  }

  /** The run that shows it: one item without a cursor is given again and again, without an end. */
  lemma {:induction false} NamelessItemRepeats(item: Item, size: nat, k: nat)
    requires size > 0 && !Truthy(item.cursor)
    ensures WellFormed(Source(None, [item])) && !EndsNamed([item], size, 0)
    ensures Pages([item], size, None, k) == Pages([item], size, item.cursor, k) == seq(k, i => item)
  {
    assert NextBatch([item], size, None) == NextBatch([item], size, item.cursor) == [item];
    if k > 0 {
      NamelessItemRepeats(item, size, k - 1);
      assert seq(k, i => item) == [item] + seq(k - 1, i => item);
    }
  }

  /** What one call of `next_batch` does: it answers, or raises `RetryBatch`. */
  datatype Call = Answer | Retry(maxRetries: nat)

  /** The calls right before call `k` that raised `RetryBatch`, one after the other. */
  function RetriesBefore(calls: seq<Call>, k: nat): nat {
    if 0 < k <= |calls| && calls[k - 1].Retry? then 1 + RetriesBefore(calls, k - 1) else 0
  }

  /** Call `k` raises, and so did as many calls right before it as it allows retries. */
  predicate GivesUp(calls: seq<Call>, k: nat) {
    && k < |calls| && calls[k].Retry? && calls[k].maxRetries <= k
    && forall j :: k - calls[k].maxRetries <= j < k ==> calls[j].Retry?
  }

  /** None of the first `n` calls does. */
  predicate NoneGivesUp(calls: seq<Call>, n: nat) {
    forall k :: 0 <= k < n ==> !GivesUp(calls, k)
  }

  lemma {:induction false} RetriesAre(calls: seq<Call>, k: nat, m: nat)
    requires k <= |calls|
    ensures RetriesBefore(calls, k) >= m <==> m <= k && forall j :: k - m <= j < k ==> calls[j].Retry?
  {
    if m > 0 && k > 0 {
      RetriesAre(calls, k - 1, m - 1);
    }
  }

  /** How many of the first `n` calls answer, with calls beyond the list all answering. */
  function Answers(calls: seq<Call>, n: nat): nat {
    if n == 0 then 0 else Answers(calls, n - 1) + if CallAt(calls, n - 1).Answer? then 1 else 0
  }

  /** `m` more batches, asked for with `position`, make the first `read + m` of `out`. */
  ghost predicate Continues(items: seq<Item>, size: nat, after: Option<Cursor>, read: nat, out: seq<Item>,
                            position: Option<Cursor>, m: nat) {
    out + Pages(items, size, position, m) == Pages(items, size, after, read + m)
  }

  /** `out` are the first `read` batches, and `position` is the cursor with which to go on. */
  ghost predicate ReadSoFar(items: seq<Item>, size: nat, after: Option<Cursor>, read: nat, out: seq<Item>,
                            position: Option<Cursor>) {
    forall m: nat :: Continues(items, size, after, read, out, position, m)
  }

  lemma Continued(items: seq<Item>, size: nat, after: Option<Cursor>, read: nat, out: seq<Item>,
                  position: Option<Cursor>, m: nat, batch: seq<Item>, next: Option<Cursor>)
    requires batch == NextBatch(items, size, position) != [] && next == batch[|batch| - 1].cursor
    ensures Continues(items, size, after, read, out, position, m + 1)
         == Continues(items, size, after, read + 1, out + batch, next, m)
  {
    OneMorePage(items, size, position, m);
    hide NextBatch, Pages;
  }

  lemma ReadMore(items: seq<Item>, size: nat, after: Option<Cursor>, read: nat, out: seq<Item>,
                 position: Option<Cursor>)
    requires ReadSoFar(items, size, after, read, out, position) && NextBatch(items, size, position) != []
    ensures var batch := NextBatch(items, size, position);
            ReadSoFar(items, size, after, read + 1, out + batch, batch[|batch| - 1].cursor)
  {
    hide Continues, NextBatch;
    var batch := NextBatch(items, size, position);
    var more, all, next := read + 1, out + batch, batch[|batch| - 1].cursor;
    forall m: nat
      ensures Continues(items, size, after, more, all, next, m)
    {
      Continued(items, size, after, read, out, position, m, batch, next);
    }
  }

  lemma ReadAll(items: seq<Item>, size: nat, after: Option<Cursor>, read: nat, out: seq<Item>,
                position: Option<Cursor>)
    requires ReadSoFar(items, size, after, read, out, position)
    ensures out == Pages(items, size, after, read)
    ensures NextBatch(items, size, position) == [] ==> forall k :: k >= read ==> Pages(items, size, after, k) == out
  {
    assert Continues(items, size, after, read, out, position, 0);
    if NextBatch(items, size, position) == [] {
      forall k | k >= read
        ensures Pages(items, size, after, k) == out
      {
        assert Continues(items, size, after, read, out, position, k - read);
      }
    }
  }

  /** Call `k`; beyond the list, every call answers. */
  function CallAt(calls: seq<Call>, k: nat): Call {
    if k < |calls| then calls[k] else Answer
  }

  lemma OneMoreCall(calls: seq<Call>, k: nat)
    requires NoneGivesUp(calls, k)
    ensures var c, retries := CallAt(calls, k), RetriesBefore(calls, k);
            if c.Answer? then RetriesBefore(calls, k + 1) == 0 && NoneGivesUp(calls, k + 1)
            else if retries >= c.maxRetries then k < |calls| && GivesUp(calls, k)
            else k < |calls| && RetriesBefore(calls, k + 1) == retries + 1 && NoneGivesUp(calls, k + 1)
    ensures Answers(calls, k + 1) == Answers(calls, k) + if CallAt(calls, k).Answer? then 1 else 0
  {
    if k < |calls| && calls[k].Retry? {
      RetriesAre(calls, k, calls[k].maxRetries);
    }
  }

  /** `iterate` until it has given `pages` batches, with calls beyond `calls` all answering.
      Whatever the batch size and the retries, the items are those of the batches in turn, one for
      each call that answers; it ends where a batch is empty, and fails exactly at the first call
      that was retried as often as it allows. */
  method Iterate(items: seq<Item>, size: nat, after: Option<Cursor>, calls: seq<Call>, pages: nat)
    returns (out: seq<Item>, read: nat, ended: bool, failed: bool, made: nat)
    ensures read <= pages && read <= |out| && out == Pages(items, size, after, read)
    ensures ended ==> forall k :: k >= read ==> Pages(items, size, after, k) == out
    ensures if failed then !ended && made > 0 && GivesUp(calls, made - 1) && NoneGivesUp(calls, made - 1)
            else NoneGivesUp(calls, made)
    ensures Answers(calls, made) == read + if ended then 1 else 0
    ensures !ended && !failed ==> read == pages
  {
    out, read, ended, failed := [], 0, false, false;
    var position, retries := after, 0;
    made := 0;
    while read < pages
      invariant read <= pages && read <= |out| && ReadSoFar(items, size, after, read, out, position)
      invariant retries == RetriesBefore(calls, made) && Answers(calls, made) == read
      invariant NoneGivesUp(calls, made) && !ended && !failed
      decreases pages - read, |calls| - made
    {
      hide *;
      var outcome := CallAt(calls, made);
      OneMoreCall(calls, made);
      made := made + 1;
      if outcome.Retry? {
        if retries >= outcome.maxRetries {
          failed := true;
          break;
        }
        retries := retries + 1;
      } else {
        retries := 0;
        var batch := NextBatch(items, size, position);
        if batch == [] {
          ended := true;
          break;
        }
        ReadMore(items, size, after, read, out, position);
        out := out + batch;
        read := read + 1;
        position := batch[|batch| - 1].cursor;
      }
    }
    ReadAll(items, size, after, read, out, position);
  }

  /** Where every batch ends with a cursor, the items given are those that follow `after`, in order,
      and the end comes with the last of them. */
  lemma IterateGivesTheRest(src: Source, size: nat, after: Option<Cursor>, read: nat, ended: bool)
    requires size > 0 && WellFormed(src) && EndsNamed(src.items, size, Position(src.items, after))
    requires read <= |Pages(src.items, size, after, read)|
    requires ended ==>
               forall k :: k >= read ==> Pages(src.items, size, after, k) == Pages(src.items, size, after, read)
    ensures Pages(src.items, size, after, read) <= Rest(src.items, after)
    ensures ended ==> Pages(src.items, size, after, read) == Rest(src.items, after)
    ensures read <= |Rest(src.items, after)|
  {
    NamedPages(src, size, after, read);
    NamedPages(src, size, after, read + |Rest(src.items, after)|);
  }

  // ----- StaticInventory -----

  /** `int(s)` of a text of digits. */
  function Parse(s: string): int {
    if s == [] then 0 else 10 * Parse(s[..|s| - 1]) + (s[|s| - 1] as int - '0' as int)
  }

  /** `str(n)` of a natural number, which `int` reads back. */
  function Decimal(n: nat): (s: string)
    ensures s != [] && Parse(s) == n
  {
    var digit := '0' + (n % 10) as char;
    if n < 10 then assert [digit][..0] == []; [digit]
    else
      var high := Decimal(n / 10);
      assert (high + [digit])[..|high + [digit]| - 1] == high;
      high + [digit]
  }

  /** The items of a static inventory are named by their index. */
  function StaticItem(i: nat): Item {
    Item(i, Some(Text(Decimal(i))))
  }

  /** The items from `b` up to `n`. */
  function StaticItems(b: nat, n: nat): (items: seq<Item>)
    requires b <= n
    ensures |items| == n - b && forall k :: 0 <= k < n - b ==> items[k] == StaticItem(b + k)
  {
    seq(n - b, k requires 0 <= k < n - b => StaticItem(b + k))
  }

  function StaticSource(n: nat): Source {
    Source(None, StaticItems(0, n))
  }

  /** `StaticInventory.next_batch` over `n` items; `None` is the division by zero of an empty
      repeating inventory. */
  function StaticBatch(n: nat, repeat: bool, after: Option<string>): Option<seq<Item>>
    requires after.Some? ==> Parse(after.value) >= 0
  {
    var begin := if after.Some? then Parse(after.value) + 1 else 0;
    if repeat && after.Some? && after.value != [] && n == 0 then None
    else
      var b := if repeat && after.Some? && after.value != [] then begin % n else begin;
      Some(if b <= n then StaticItems(b, n) else [])
  }

  lemma StaticSourceIsWellFormed(n: nat)
    ensures WellFormed(StaticSource(n)) && AllNamed(StaticSource(n))
  {
  }

  /** A static inventory obeys the source law from its start. */
  lemma StaticObeysSourceLawAtStart(n: nat)
    ensures StaticBatch(n, false, None) == Some(NextBatch(StaticSource(n).items, n, None))
  {
    var items := StaticSource(n).items;
    PositionUnknown(items, None);
    assert items[0..] == items;
  }

  /** A static inventory obeys the source law, whatever cursor of its own it resumes from. */
  lemma StaticObeysSourceLaw(n: nat, i: nat)
    requires i < n
    ensures StaticBatch(n, false, Some(Decimal(i)))
         == Some(NextBatch(StaticSource(n).items, n, Some(Text(Decimal(i)))))
  {
    hide Position;
    StaticPositions(n, i);
    assert StaticItems(i + 1, n) == StaticSource(n).items[i + 1..];
  }

  lemma StaticPositions(n: nat, i: nat)
    requires i < n
    ensures Position(StaticSource(n).items, Some(Text(Decimal(i)))) == i + 1
  {
    StaticSourceIsWellFormed(n);
    var items := StaticSource(n).items;
    assert items[i].cursor == Some(Text(Decimal(i)));
    PositionOfIndex(items, items[i].cursor, i);
  }

  /** A repeating inventory that holds anything never ends: behind the last item comes the whole list
      again. */
  lemma RepeatingNeverEnds(n: nat, i: nat)
    requires n > 0
    ensures StaticBatch(n, true, None) == Some(StaticSource(n).items)
    ensures var b := StaticBatch(n, true, Some(Decimal(i)));
            b.Some? && b.value != [] && b.value == StaticSource(n).items[(i + 1) % n..]
  {
    hide StaticItem;
    StaticTail(n, 0);
    StaticTail(n, (i + 1) % n);
  }

  lemma StaticTail(n: nat, b: nat)
    requires b <= n
    ensures StaticItems(b, n) == StaticSource(n).items[b..]
  {
  }

  // ----- run -----

  /** Pull until an item is to be yielded, or the source is exhausted. */
  ghost function PullToYield(src: Source, w: World): World
    decreases |src.items| - w.next
  {
    if w.next >= |src.items| then w
    else if Skips(w.cs, src.items[w.next]) then PullToYield(src, PullWorld(src, w))
    else PullWorld(src, w)
  }

  class InventoryRun {
    const src: Source
    const cursors: CursorsState
    var next: nat
    ghost var world: World

    ghost predicate Valid()
      reads this, cursors
    {
      && DistinctIds(src.items) && Follows(src, world)
      && cursors.View() == world.cs && next == world.next
    }

    constructor (src: Source, raw: Option<Cursor>, maxPartials: Option<nat>)
      requires DistinctIds(src.items)
      ensures Valid() && fresh(cursors) && cursors.maxPartials == maxPartials
      ensures world == Resumed(src, Load(raw), Denoted(src, Load(raw))) && this.src == src
    {
      var cs := new CursorsState.FromCursor(raw, maxPartials);
      this.src := src;
      cursors := cs;
      next := Position(src.items, cs.after);
      world := Resumed(src, Load(raw), Denoted(src, Load(raw)));
    }

    /** Take the next item and enter it; an item already processed is left at once. */
    method Pull() returns (process: bool)
      requires Valid() && next < |src.items|
      modifies this, cursors
      ensures Valid() && world == PullWorld(src, old(world))
      ensures process == !Skips(old(world).cs, src.items[old(next)])
    {
      var item := src.items[next];
      PullFollows(src, world);
      process := cursors.EnterItem(item);
      if !process {
        assert cursors.pendings[|cursors.pendings| - 1].item == item;
        cursors.ExitItem(item);
      }
      next := next + 1;
      world := PullWorld(src, world);
    }

    /** One turn of the generator: the next item to process. */
    method Next() returns (r: Option<Item>)
      requires Valid()
      modifies this, cursors
      ensures Valid() && world == PullToYield(src, old(world))
      ensures r.Some? ==> next > old(next) && r.value == src.items[next - 1]
      ensures r.Some? ==> world.yielded == old(world.yielded) + [next - 1]
      ensures r.None? ==> next == |src.items| && world.yielded == old(world.yielded)
    {
      while next < |src.items|
        invariant Valid() && next >= old(next)
        invariant PullToYield(src, world) == PullToYield(src, old(world))
        invariant world.yielded == old(world.yielded)
      {
        var process := Pull();
        if process {
          return Some(src.items[next - 1]);
        }
      }
      return None;
    }

    /** The context of a yielded item exits. */
    method Finish(i: nat)
      requires Valid()
      requires Committed(world) <= i < next <= |src.items| && world.cs.pendings[i - Committed(world)].isPending
      modifies this, cursors
      ensures Valid() && world == FinishWorld(src, old(world), i)
      ensures next == old(next)
    {
      FinishFollows(src, world, i);
      assert cursors.pendings[i - Committed(world)].item == src.items[i];
      cursors.ExitItem(src.items[i]);
      world := FinishWorld(src, world, i);
    }
  }

  /** The pending entries of a run are the last items taken, from whatever cursor it started. */
  ghost predicate Follows(src: Source, w: World) {
    && 0 <= Committed(w) <= w.next <= |src.items|
    && forall k :: 0 <= k < |w.cs.pendings| ==> w.cs.pendings[k].item == src.items[Committed(w) + k]
  }

  lemma ExitFollows(src: Source, w: World, id: nat)
    requires Follows(src, w)
    ensures Follows(src, w.(cs := Exit(w.cs, id)))
  {
    hide LastCursor, DonePrefix;
  }

  lemma PullFollows(src: Source, w: World)
    requires Follows(src, w) && w.next < |src.items|
    ensures Follows(src, PullWorld(src, w))
  {
    var item := src.items[w.next];
    var entered := w.(cs := Enter(w.cs, item), next := w.next + 1);
    assert Follows(src, entered);
    ExitFollows(src, entered, item.id);
    hide Exit, Enter;
  }

  lemma FinishFollows(src: Source, w: World, i: nat)
    requires Follows(src, w) && i < |src.items|
    ensures Follows(src, FinishWorld(src, w, i))
  {
    hide Exit;
    ExitFollows(src, w, src.items[i].id);
  }
}
