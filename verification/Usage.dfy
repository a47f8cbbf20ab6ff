/** `PipelineState`, worker/services/usage_metrics.py: the time that messages spend in a stage. */
module Usage {
  import opened Options

  /** The messages by their identity, and clocks in nanoseconds. */
  datatype State = State(messages: set<nat>, flushedAt: int, collectedAt: int, usage: int)

  /** `flush`, at the time of its own clock. */
  function Flushed(s: State, clock: int): State {
    s.(usage := s.usage + (clock - s.flushedAt) * |s.messages|, flushedAt := clock)
  }

  /** Each event with its clock, which a flush reads; a collection has the time of the caller too.
      `Drop` is the last reference to a message: the weak set then has it no more. */
  datatype Event =
    | Add(m: nat, clock: int)
    | Pop(m: nat, clock: int)
    | Collect(now: int, clock: int)
    | Drop(m: nat, clock: int)

  /** What a collection takes: nothing where the division fails. */
  function Taken(s: State, e: Event): int {
    if e.Collect? && e.now != s.collectedAt then Flushed(s, e.clock).usage else 0
  }

  function Next(s: State, e: Event): State {
    match e
    case Add(m, clock) => Flushed(s, clock).(messages := s.messages + {m})
    case Pop(m, clock) => if m in s.messages then Flushed(s, clock).(messages := s.messages - {m}) else s
    case Collect(now, clock) =>
      if now != s.collectedAt then Flushed(s, clock).(collectedAt := now, usage := 0) else Flushed(s, clock)
    case Drop(m, clock) => s.(messages := s.messages - {m})
  }

  class PipelineState {
    var messages: set<nat>
    var lastFlushedAt: int
    var lastCollectedAt: int
    var usage: int

    ghost function View(): State
      reads this
    {
      State(messages, lastFlushedAt, lastCollectedAt, usage)
    }

    constructor (clock: int)
      ensures View() == State({}, clock, clock, 0)
    {
      messages, lastFlushedAt, lastCollectedAt, usage := {}, clock, clock, 0;
    }

    method Flush(clock: int)
      modifies this
      ensures View() == Flushed(old(View()), clock)
    {
      var sinceFlush := clock - lastFlushedAt;
      usage := usage + sinceFlush * |messages|;
      lastFlushedAt := clock;
    }

    method Add(m: nat, clock: int)
      modifies this
      ensures View() == Next(old(View()), Event.Add(m, clock))
    {
      Flush(clock);
      messages := messages + {m};
    }

    method Pop(m: nat, clock: int)
      modifies this
      ensures View() == Next(old(View()), Event.Pop(m, clock))
    {
      if m in messages {
        Flush(clock);
        messages := messages - {m};
      }
    }

    /** A message is released by all that held it: it leaves the weak set, with no flush. */
    method Drop(m: nat)
      modifies this
      ensures forall clock :: View() == Next(old(View()), Event.Drop(m, clock))
    {
      messages := messages - {m};
    }

    /** The time and what it is divided by; nothing where that is zero, and the source raises. */
    method Collect(now: int, clock: int) returns (r: Option<(int, int)>)
      modifies this
      ensures View() == Next(old(View()), Event.Collect(now, clock))
      ensures r == if now == old(lastCollectedAt) then None
                   else Some((Taken(old(View()), Event.Collect(now, clock)), now - old(lastCollectedAt)))
    {
      Flush(clock);
      if now == lastCollectedAt {
        return None;
      }
      r := Some((usage, now - lastCollectedAt));
      lastCollectedAt := now;
      usage := 0;
    }
  }

  // ----- Conservation -----

  /** The events from a start on, and the time until which they are looked at. */
  predicate InTime(start: int, es: seq<Event>, until: int) {
    if es == [] then start <= until
    else es[|es| - 1].clock <= until && InTime(start, es[..|es| - 1], es[|es| - 1].clock)
  }

  function After(start: int, es: seq<Event>): State {
    if es == [] then State({}, start, start, 0) else Next(After(start, es[..|es| - 1]), es[|es| - 1])
  }

  /** All that was collected. */
  function Collected(start: int, es: seq<Event>): int {
    if es == [] then 0
    else Collected(start, es[..|es| - 1]) + Taken(After(start, es[..|es| - 1]), es[|es| - 1])
  }

  predicate Present(es: seq<Event>, m: nat) {
    es != [] &&
    var e := es[|es| - 1];
    e == Add(m, e.clock) || (e != Pop(m, e.clock) && e != Drop(m, e.clock) && Present(es[..|es| - 1], m))
  }

  /** How long a message was there. */
  function Residence(es: seq<Event>, m: nat, until: int): int {
    if es == [] then 0
    else
      var e := es[|es| - 1];
      Residence(es[..|es| - 1], m, e.clock) + if Present(es, m) then until - e.clock else 0
  }

  function TotalResidence(es: seq<Event>, n: nat, until: int): int {
    if n == 0 then 0 else TotalResidence(es, n - 1, until) + Residence(es, n - 1, until)
  }

  predicate AllBelow(es: seq<Event>, n: nat) {
    forall e :: e in es && !e.Collect? ==> e.m < n
  }

  lemma {:induction false} PresentAre(start: int, es: seq<Event>, m: nat)
    ensures m in After(start, es).messages <==> Present(es, m)
  {
    if es != [] {
      PresentAre(start, es[..|es| - 1], m);
    }
  }

  function Below(s: set<nat>, n: nat): set<nat> {
    set m | m in s && m < n
  }

  lemma {:induction false} TotalGrows(start: int, es: seq<Event>, n: nat, until: int)
    requires es != []
    ensures var e := es[|es| - 1];
            TotalResidence(es, n, until) ==
            TotalResidence(es[..|es| - 1], n, e.clock) + (until - e.clock) * |Below(After(start, es).messages, n)|
  {
    var now := After(start, es).messages;
    if n > 0 {
      TotalGrows(start, es, n - 1, until);
      PresentAre(start, es, n - 1);
      hide After, Present;
      BelowGrows(now, n - 1, until - es[|es| - 1].clock);
    } else {
      assert Below(now, 0) == {};
    }
  }

  lemma BelowGrows(s: set<nat>, n: nat, d: int)
    ensures d * |Below(s, n + 1)| == d * |Below(s, n)| + if n in s then d else 0
  {
    var some := Below(s, n);
    assert Below(s, n + 1) == if n in s then some + {n} else some;
    assert d * (|some| + 1) == d * |some| + d;
  }

  lemma {:induction false} NoResidence(n: nat, until: int)
    ensures TotalResidence([], n, until) == 0
  {
    if n > 0 {
      NoResidence(n - 1, until);
    }
  }

  /** The time of a dropped message since the last flush, which nothing counts. */
  function LostBy(s: State, e: Event): int {
    if e.Drop? && e.m in s.messages then e.clock - s.flushedAt else 0
  }

  function Lost(start: int, es: seq<Event>): int {
    if es == [] then 0
    else Lost(start, es[..|es| - 1]) + LostBy(After(start, es[..|es| - 1]), es[|es| - 1])
  }

  lemma DropLoses(s: State, m: nat, clock: int, until: int)
    ensures var s', e := Next(s, Drop(m, clock)), Drop(m, clock);
            Flushed(s', until).usage + LostBy(s, e) == Flushed(s, clock).usage + (until - clock) * |s'.messages|
  {
    assert m !in s.messages ==> s.messages - {m} == s.messages;
    assert m in s.messages ==> |s.messages - {m}| == |s.messages| - 1;
  }

  lemma TakenAndLeft(s: State, e: Event, until: int)
    ensures Taken(s, e) + Flushed(Next(s, e), until).usage + LostBy(s, e)
            == Flushed(s, e.clock).usage + (until - e.clock) * |Next(s, e).messages|
  {
    match e
    case Drop(m, clock) => DropLoses(s, m, clock, until);
    case _ =>
  }

  /** Over any run: what was collected, what is not collected yet, with the time since the last
      flush, and what the drops lost is the time that all messages together have been there. */
  lemma {:induction false} TimeIsCountedOrLost(start: int, es: seq<Event>, n: nat, until: int)
    requires InTime(start, es, until) && AllBelow(es, n)
    ensures Collected(start, es) + Flushed(After(start, es), until).usage + Lost(start, es)
         == TotalResidence(es, n, until)
  {
    if es == [] {
      NoResidence(n, until);
    } else {
      var init, e := es[..|es| - 1], es[|es| - 1];
      TimeIsCountedOrLost(start, init, n, e.clock);
      TakenAndLeft(After(start, init), e, until);
      TotalGrows(start, es, n, until);
      AllSeen(start, es, n);
    }
  }

  lemma {:induction false} AllSeen(start: int, es: seq<Event>, n: nat)
    requires AllBelow(es, n)
    ensures Below(After(start, es).messages, n) == After(start, es).messages
  {
    if es != [] {
      AllSeen(start, es[..|es| - 1], n);
      assert es[|es| - 1] in es;
      forall m | m in After(start, es).messages
        ensures m < n
      {
        assert m in After(start, es[..|es| - 1]).messages ==> m in Below(After(start, es[..|es| - 1]).messages, n);
      }
    }
  }

  lemma {:induction false} FlushedBefore(start: int, es: seq<Event>, until: int)
    requires InTime(start, es, until)
    ensures After(start, es).flushedAt <= until
  {
    if es != [] {
      FlushedBefore(start, es[..|es| - 1], es[|es| - 1].clock);
    }
  }

  /** Every message that is dropped while it is there is dropped at the time of a flush. */
  predicate DropsInTime(start: int, es: seq<Event>) {
    es == [] ||
    var s, e := After(start, es[..|es| - 1]), es[|es| - 1];
    DropsInTime(start, es[..|es| - 1]) && (e.Drop? && e.m in s.messages ==> e.clock == s.flushedAt)
  }

  lemma {:induction false} LostIff(start: int, es: seq<Event>, until: int)
    requires InTime(start, es, until)
    ensures 0 <= Lost(start, es) && (Lost(start, es) == 0 <==> DropsInTime(start, es))
  {
    if es != [] {
      var init, e := es[..|es| - 1], es[|es| - 1];
      LostIff(start, init, e.clock);
      FlushedBefore(start, init, e.clock);
    }
  }

  /** No time is lost, if and only if every message that is dropped while it is there is dropped at
      the time of a flush. */
  lemma NoTimeIsLostIff(start: int, es: seq<Event>, n: nat, until: int)
    requires InTime(start, es, until) && AllBelow(es, n)
    ensures Collected(start, es) + Flushed(After(start, es), until).usage == TotalResidence(es, n, until)
            <==> DropsInTime(start, es)
  {
    TimeIsCountedOrLost(start, es, n, until);
    LostIff(start, es, until);
  }

  /** A message comes at 0 and is dropped at 10, and the collection at 20 counts nothing. */
  lemma DroppedIsNotCounted()
    ensures var es := [Add(0, 0), Drop(0, 10), Collect(20, 20)];
            && InTime(0, es, 20) && !DropsInTime(0, es)
            && Collected(0, es) == 0 && Flushed(After(0, es), 20).usage == 0 && TotalResidence(es, 1, 20) == 10
  {
    var es := [Add(0, 0), Drop(0, 10), Collect(20, 20)];
    var one, two := es[..1], es[..2];
    assert es[..|es| - 1] == two && two[..|two| - 1] == one && one[..0] == [];
    assert InTime(0, one, 10) && InTime(0, two, 20) && Collected(0, one) == 0 && Collected(0, two) == 0;
    assert After(0, one) == State({0}, 0, 0, 0) && After(0, two) == State({}, 0, 0, 0);
    assert !Present(es, 0) && !Present(two, 0) && Present(one, 0);
    assert Residence(one, 0, 10) == 10 && Residence(two, 0, 20) == 10 && Residence(es, 0, 20) == 10;
    assert TotalResidence(es, 0, 20) == 0;
  }
}
