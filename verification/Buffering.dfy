/** `async_buffered`, utils/iterators.py. */
module Buffering {
  import opened Options

  /** All items of the batches, in order. */
  function Flat<T>(batches: seq<seq<T>>): seq<T> {
    if batches == [] then [] else batches[0] + Flat(batches[1..])
  }

  /** What an asynchronous generator has to give; it may raise before item `raisesAt`, or after all
      of them, and gives nothing more then. */
  datatype Generator<T> = Generator(items: seq<T>, raisesAt: Option<nat>)
  {
    predicate Raises() {
      raisesAt.Some? && raisesAt.value <= |items|
    }

    function Given(): seq<T> {
      if Raises() then items[..raisesAt.value] else items
    }
  }

  /** The task of a slice: it goes on, the buffer is full, or the generator has ended or raised. */
  datatype Slice = Runs | Full | Ended | Raised

  /** Until the loop of `async_buffered` wakes up, the slice appends `more` items. */
  datatype Turn = Turn(more: nat, slice: Slice)
  {
    predicate Done() {
      !slice.Runs?
    }
  }

  /** A slice ends with the item that fills the buffer, which is one even where the size is less. */
  function Capacity(size: int): (c: nat)
    ensures c >= 1 && c >= size
  {
    if size < 1 then 1 else size
  }

  predicate Fills(size: Option<int>, n: nat) {
    size.Some? && n == Capacity(size.value)
  }

  /** With `left` items before it ends, or `raises`. */
  predicate Possible(size: Option<int>, left: nat, raises: bool, turn: Turn) {
    && turn.more <= left && (size.Some? ==> turn.more <= Capacity(size.value))
    && turn.slice.Full? == Fills(size, turn.more)
    && (turn.slice.Ended? ==> turn.more == left && !raises)
    && (turn.slice.Raised? ==> turn.more == left && raises)
  }

  predicate AllPossible(size: Option<int>, left: nat, raises: bool, turns: seq<Turn>) {
    turns == [] ||
    (Possible(size, left, raises, turns[0])
     && AllPossible(size, left - turns[0].more, raises && !turns[0].slice.Raised?, turns[1..]))
  }

  function Dones(turns: seq<Turn>): nat {
    if turns == [] then 0 else (if turns[0].Done() then 1 else 0) + Dones(turns[1..])
  }

  function Read(turns: seq<Turn>): nat {
    if turns == [] then 0 else turns[0].more + Read(turns[1..])
  }

  /** The batches of a buffer: what each turn has appended, up to a slice that is done with nothing. */
  function Batches<T>(given: seq<T>, turns: seq<Turn>): seq<seq<T>> {
    if turns == [] || turns[0].more > |given| || EndsAt(turns[0]) then []
    else With(given[..turns[0].more], Batches(given[turns[0].more..], turns[1..]))
  }

  /** An empty batch is not given. */
  function With<T>(batch: seq<T>, rest: seq<seq<T>>): seq<seq<T>> {
    if batch == [] then rest else [batch] + rest
  }

  predicate EndsAt(turn: Turn) {
    turn.Done() && turn.more == 0
  }

  /** The loop has come to its end. */
  predicate Ends(turns: seq<Turn>) {
    turns != [] && (EndsAt(turns[0]) || Ends(turns[1..]))
  }

  lemma {:induction false} ReadIsPossible(size: Option<int>, left: nat, raises: bool, turns: seq<Turn>)
    requires AllPossible(size, left, raises, turns)
    ensures Read(turns) <= left && (Ends(turns) ==> Read(turns) == left)
    ensures Dones(turns) > left ==> Ends(turns)
  {
    if turns != [] {
      ReadIsPossible(size, left - turns[0].more, raises && !turns[0].slice.Raised?, turns[1..]);
    }
  }

  lemma {:induction false} BatchesAreRead<T>(size: Option<int>, given: seq<T>, raises: bool, turns: seq<Turn>)
    requires AllPossible(size, |given|, raises, turns) && Read(turns) <= |given|
    ensures Flat(Batches(given, turns)) == given[..Read(turns)]
  {
    if turns != [] && !EndsAt(turns[0]) {
      var n := turns[0].more;
      BatchesAreRead(size, given[n..], raises && !turns[0].slice.Raised?, turns[1..]);
    }
  }

  lemma {:induction false} BatchesFit<T>(size: Option<int>, given: seq<T>, raises: bool, turns: seq<Turn>)
    requires AllPossible(size, |given|, raises, turns)
    ensures forall b :: b in Batches(given, turns) ==> b != [] && (size.Some? ==> |b| <= Capacity(size.value))
  {
    if turns != [] && !EndsAt(turns[0]) {
      BatchesFit(size, given[turns[0].more..], raises && !turns[0].slice.Raised?, turns[1..]);
    }
  }

  /** Whenever the timeouts are: the batches are the input up to what was read, none is empty or
      larger than the buffer, the loop ends only after all that the generator gave, and with more
      slices than there are items it has ended. */
  lemma BatchesAre<T>(size: Option<int>, given: seq<T>, raises: bool, turns: seq<Turn>)
    requires AllPossible(size, |given|, raises, turns)
    ensures Read(turns) <= |given| && Flat(Batches(given, turns)) == given[..Read(turns)]
    ensures forall b :: b in Batches(given, turns) ==> b != [] && (size.Some? ==> |b| <= size.value || |b| == 1)
    ensures Ends(turns) ==> Flat(Batches(given, turns)) == given
    ensures Dones(turns) > |given| ==> Ends(turns)
  {
    ReadIsPossible(size, |given|, raises, turns);
    BatchesAreRead(size, given, raises, turns);
    BatchesFit(size, given, raises, turns);
  }

  /** A loop that has ended gave everything there is, if and only if the generator did not raise
      before its last item. */
  lemma EndedHasAllIff<T>(size: Option<int>, it: Generator<T>, turns: seq<Turn>)
    requires AllPossible(size, |it.Given()|, it.Raises(), turns) && Ends(turns)
    ensures Flat(Batches(it.Given(), turns)) == it.items
       <==> it.raisesAt.None? || it.raisesAt.value >= |it.items|
  {
    BatchesAre(size, it.Given(), it.Raises(), turns);
  }

  /** The turns as they are for a generator that ends where this one raises. */
  function Silenced(turns: seq<Turn>): (r: seq<Turn>)
    ensures |r| == |turns|
  {
    if turns == [] then []
    else [if turns[0].slice.Raised? then turns[0].(slice := Ended) else turns[0]] + Silenced(turns[1..])
  }

  /** The turns as they are for a generator that raises where this one ends. */
  function Raising(turns: seq<Turn>): (r: seq<Turn>)
    ensures |r| == |turns|
  {
    if turns == [] then []
    else if turns[0].slice.Ended? then [turns[0].(slice := Raised)] + turns[1..]
    else [turns[0]] + Raising(turns[1..])
  }

  /** A generator that raises gives the same batches, and the same end, as one that ends there. */
  lemma {:induction false} ErrorIsSilent<T>(size: Option<int>, given: seq<T>, raises: bool, turns: seq<Turn>)
    requires AllPossible(size, |given|, raises, turns)
    ensures AllPossible(size, |given|, false, Silenced(turns))
    ensures Batches(given, Silenced(turns)) == Batches(given, turns) && Ends(Silenced(turns)) == Ends(turns)
  {
    if turns != [] {
      var n := turns[0].more;
      ErrorIsSilent(size, given[n..], raises && !turns[0].slice.Raised?, turns[1..]);
      assert Silenced(turns)[1..] == Silenced(turns[1..]);
    }
  }

  /** And the other way round: whatever comes out of a generator that ends can come out of one that
      raises there. */
  lemma {:induction false} EndMayBeError<T>(size: Option<int>, given: seq<T>, turns: seq<Turn>)
    requires AllPossible(size, |given|, false, turns)
    ensures AllPossible(size, |given|, true, Raising(turns))
    ensures Batches(given, Raising(turns)) == Batches(given, turns) && Ends(Raising(turns)) == Ends(turns)
  {
    if turns != [] {
      var n := turns[0].more;
      if !turns[0].slice.Ended? {
        EndMayBeError(size, given[n..], turns[1..]);
      }
      assert Raising(turns)[1..] == if turns[0].slice.Ended? then turns[1..] else Raising(turns[1..]);
    }
  }

  /** A run that shows it: of two items the second is lost, as the generator raises before it, and
      the loop ends as after all. */
  lemma ErrorLosesItems()
    ensures var it, turns := Generator([1, 2], Some(1)), [Turn(1, Raised), Turn(0, Ended)];
            && AllPossible(None, |it.Given()|, it.Raises(), turns)
            && Batches(it.Given(), turns) == [[1]] && Ends(turns)
  {
    var it, turns := Generator([1, 2], Some(1)), [Turn(1, Raised), Turn(0, Ended)];
    assert turns[1..] == [Turn(0, Ended)] && turns[1..][1..] == [];
    assert it.Given() == [1] && [1][1..] == [] && [1][..1] == [1];
  }

  lemma OneTurn<T>(given: seq<T>, turns: seq<Turn>, pos: nat, k: nat)
    requires k < |turns| && pos + turns[k].more <= |given|
    ensures Batches(given[pos..], turns[k..])
         == if EndsAt(turns[k]) then []
            else With(given[pos..pos + turns[k].more], Batches(given[pos + turns[k].more..], turns[k + 1..]))
    ensures Ends(turns[k..]) == (EndsAt(turns[k]) || Ends(turns[k + 1..]))
  {
    var n := turns[k].more;
    assert turns[k..][0] == turns[k] && turns[k..][1..] == turns[k + 1..];
    assert given[pos..][..n] == given[pos..pos + n] && given[pos..][n..] == given[pos + n..];
  }

  lemma OneMore<T>(batches: seq<seq<T>>, batch: seq<T>, rest: seq<seq<T>>)
    ensures batches + With(batch, rest) == (if batch == [] then batches else batches + [batch]) + rest
  {
  }

  /** After `k` turns and `pos` items, the batches so far are the first ones. */
  ghost predicate SoFar<T>(given: seq<T>, turns: seq<Turn>, pos: nat, k: nat, batches: seq<seq<T>>) {
    && pos <= |given| && k <= |turns|
    && batches + Batches(given[pos..], turns[k..]) == Batches(given, turns)
    && Ends(turns[k..]) == Ends(turns)
  }

  lemma SoFarStep<T>(given: seq<T>, turns: seq<Turn>, pos: nat, k: nat, batches: seq<seq<T>>)
    requires SoFar(given, turns, pos, k, batches) && k < |turns| && pos + turns[k].more <= |given|
    ensures var n := turns[k].more;
            if EndsAt(turns[k]) then batches == Batches(given, turns) && Ends(turns)
            else SoFar(given, turns, pos + n, k + 1,
                       if n == 0 then batches else batches + [given[pos..pos + n]])
  {
    OneTurn(given, turns, pos, k);
    hide Batches, Ends, With;
    var n := turns[k].more;
    OneMore(batches, given[pos..pos + n], Batches(given[pos + n..], turns[k + 1..]));
  }

  /** `async_buffered` */
  method Buffered<T>(it: Generator<T>, size: Option<int>, turns: seq<Turn>)
    returns (batches: seq<seq<T>>, stopped: bool)
    requires AllPossible(size, |it.Given()|, it.Raises(), turns)
    ensures batches == Batches(it.Given(), turns) && stopped == Ends(turns)
  {
    var given := it.Given();
    var k: nat, pos: nat := 0, 0;
    ghost var raises := it.Raises();
    batches, stopped := [], false;
    hide *;
    assert turns[0..] == turns;
    while k < |turns|
      invariant k <= |turns| && pos <= |given|
      invariant AllPossible(size, |given| - pos, raises, turns[k..])
      invariant SoFar(given, turns, pos, k, batches)
    {
      var turn := turns[k];
      SoFarStep(given, turns, pos, k, batches);
      if EndsAt(turn) {
        return batches, true;
      }
      if turn.more != 0 {
        batches := batches + [given[pos..pos + turn.more]];
      }
      raises := raises && !turn.slice.Raised?;
      pos, k := pos + turn.more, k + 1;
    }
  }
}
