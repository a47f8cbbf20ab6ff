/** `format_stack`, utils/traceback_data.py: runs of the same frame are folded. */
module Traceback {
  import opened Options

  const RECURSIVE_CUTOFF := 3

  /** What tells two frames of a stack apart. */
  datatype Frame = Frame(filename: string, lineno: int, name: string)

  datatype Entry = Line(frame: Frame) | Repeated(more: nat)

  function Copies(frame: Frame, n: nat): seq<Frame> {
    if n == 0 then [] else Copies(frame, n - 1) + [frame]
  }

  /** What a reader makes of the entries: the last frame so many more times. */
  function Expand(entries: seq<Entry>): seq<Frame> {
    if entries == [] then []
    else
      var n := |entries| - 1;
      var before := Expand(entries[..n]);
      match entries[n]
      case Line(frame) => before + [frame]
      case Repeated(more) => if before == [] then [] else before + Copies(before[|before| - 1], more)
  }

  lemma ExpandLast(entries: seq<Entry>, e: Entry)
    ensures var before := Expand(entries);
            Expand(entries + [e]) ==
            if e.Line? then before + [e.frame]
            else if before == [] then [] else before + Copies(before[|before| - 1], e.more)
  {
  }

  /** Three lines of the same frame stand there. */
  predicate Thrice(entries: seq<Entry>, end: nat)
    requires end <= |entries|
  {
    end >= 3 && entries[end - 1].Line? && entries[end - 1] == entries[end - 2] == entries[end - 3]
  }

  /** No more than three lines of a frame follow each other; a repetition is of at least one more
      after three; and the frame after it is another. */
  predicate Compact(entries: seq<Entry>) {
    forall i :: 0 <= i < |entries| ==> FollowsWell(entries, i)
  }

  predicate FollowsWell(entries: seq<Entry>, i: nat)
    requires i < |entries|
  {
    if entries[i].Repeated? then entries[i].more >= 1 && Thrice(entries, i)
    else
      && !(Thrice(entries, i) && entries[i] == entries[i - 1])
      && !(i >= 2 && entries[i - 1].Repeated? && entries[i] == entries[i - 2])
  }

  lemma CompactLast(entries: seq<Entry>, e: Entry)
    requires Compact(entries) && FollowsWell(entries + [e], |entries|)
    ensures Compact(entries + [e])
  {
    var all := entries + [e];
    forall i | 0 <= i < |all|
      ensures FollowsWell(all, i)
    {
      if i < |entries| {
        assert FollowsWell(entries, i);
      }
    }
  }

  /** The entries end with `m` lines of the frame, and before those is another one. */
  predicate EndsWith(entries: seq<Entry>, frame: Frame, m: nat) {
    && m <= |entries|
    && (forall i :: |entries| - m <= i < |entries| ==> entries[i] == Line(frame))
    && Other(entries[..|entries| - m], frame)
  }

  predicate Other(entries: seq<Entry>, frame: Frame) {
    var n := |entries|;
    && (n >= 1 ==> entries[n - 1] != Line(frame))
    && (n >= 2 && entries[n - 1].Repeated? ==> entries[n - 2] != Line(frame))
  }

  function Min(a: nat, b: nat): nat {
    if a <= b then a else b
  }

  /** What the loop has done of a stack that ends with `count` of the frame. */
  ghost predicate Folded(stack: seq<Frame>, entries: seq<Entry>, frame: Frame, count: nat) {
    var m := Min(count, RECURSIVE_CUTOFF);
    Compact(entries) && EndsWith(entries, frame, m) && stack == Expand(entries) + Copies(frame, count - m)
  }

  lemma LineEnds(entries: seq<Entry>, frame: Frame, m: nat)
    requires m < RECURSIVE_CUTOFF && Compact(entries) && EndsWith(entries, frame, m)
    ensures Compact(entries + [Line(frame)]) && EndsWith(entries + [Line(frame)], frame, m + 1)
  {
    var all := entries + [Line(frame)];
    var k := |entries| - m;
    assert all[..k] == entries[..k];
    assert k >= 1 ==> entries[..k][k - 1] == all[k - 1];
    assert k >= 2 ==> entries[..k][k - 2] == all[k - 2];
    CompactLast(entries, Line(frame));
  }

  /** One more of the frame is a line. */
  lemma OneMoreLine(stack: seq<Frame>, entries: seq<Entry>, frame: Frame, count: nat)
    requires count < RECURSIVE_CUTOFF && Folded(stack, entries, frame, count)
    ensures Folded(stack + [frame], entries + [Line(frame)], frame, count + 1)
  {
    hide Expand;
    LineEnds(entries, frame, count);
    ExpandLast(entries, Line(frame));
    hide Compact, EndsWith;
    assert Expand(entries) + [] == Expand(entries);
  }

  /** And from the cutoff on it is counted. */
  lemma OneMoreCopy(stack: seq<Frame>, entries: seq<Entry>, frame: Frame, count: nat)
    requires count >= RECURSIVE_CUTOFF && Folded(stack, entries, frame, count)
    ensures Folded(stack + [frame], entries, frame, count + 1)
  {
    hide Expand, Compact, EndsWith;
    var rest := count - RECURSIVE_CUTOFF;
    assert Expand(entries) + Copies(frame, rest) + [frame] == Expand(entries) + (Copies(frame, rest) + [frame]);
  }

  /** The rest of the run, when it is over. */
  function Ended(entries: seq<Entry>, count: nat): seq<Entry> {
    if count > RECURSIVE_CUTOFF then entries + [Repeated(count - RECURSIVE_CUTOFF)] else entries
  }

  lemma EndKeepsCompact(entries: seq<Entry>, frame: Frame, count: nat)
    requires count > 0 && Compact(entries) && EndsWith(entries, frame, Min(count, RECURSIVE_CUTOFF))
    ensures Compact(Ended(entries, count))
    ensures forall f :: f != frame ==> Other(Ended(entries, count), f)
  {
    var n := |entries|;
    assert entries[n - 1] == Line(frame);
    if count > RECURSIVE_CUTOFF {
      assert entries[n - 2] == Line(frame) && entries[n - 3] == Line(frame);
      CompactLast(entries, Repeated(count - RECURSIVE_CUTOFF));
    }
  }

  /** The run is over, and another frame comes. */
  lemma NextRun(stack: seq<Frame>, entries: seq<Entry>, frame: Frame, count: nat, next: Frame)
    requires count > 0 && Folded(stack, entries, frame, count) && next != frame
    ensures Folded(stack, Ended(entries, count), next, 0)
  {
    EndKeepsCompact(entries, frame, count);
    var all := Ended(entries, count);
    hide Compact, Ended, Expand;
    assert all[..|all|] == all;
    assert Expand(all) + [] == Expand(all);
  }

  /** Reading the entries gives back the stack, and they are compact. */
  method FormatStack(stack: seq<Frame>) returns (entries: seq<Entry>)
    ensures Expand(entries) == stack
    ensures Compact(entries)
  {
    var last: Option<Frame>, count: nat := None, 0;
    entries := [];
    for k := 0 to |stack|
      invariant last.None? ==> k == 0 && entries == [] && count == 0
      invariant last.Some? ==> count > 0 && Folded(stack[..k], entries, last.value, count)
    {
      hide Folded, Expand, Compact;
      var frame := stack[k];
      assert stack[..k + 1] == stack[..k] + [frame];
      if last != Some(frame) {
        if last.Some? {
          NextRun(stack[..k], entries, last.value, count, frame);
        } else {
          assert stack[..k] == [];
        }
        if count > RECURSIVE_CUTOFF {
          count := count - RECURSIVE_CUTOFF;
          entries := entries + [Repeated(count)];
        }
        last := Some(frame);
        count := 0;
      }
      count := count + 1;
      if count <= RECURSIVE_CUTOFF {
        OneMoreLine(stack[..k], entries, frame, count - 1);
        entries := entries + [Line(frame)];
      } else {
        OneMoreCopy(stack[..k], entries, frame, count - 1);
      }
    }
    assert stack[..|stack|] == stack;
    if last.Some? {
      EndKeepsCompact(entries, last.value, count);
    }
    if count > RECURSIVE_CUTOFF {
      count := count - RECURSIVE_CUTOFF;
      entries := entries + [Repeated(count)];
    }
  }
}
