/** For which writes the server ends right whenever the worker flushes: the exact condition. */
module FlushPlans {
  import opened Options
  import opened JobStates
  import opened StateSync

  lemma OneMore(first: Server, ns: Namespaces, ss: seq<System>, es: seq<Event>, e: Event)
    requires Execution(first, ns, ss, es) && Enabled(ss[|es|], e)
    ensures Execution(first, ns, ss + [Next(ss[|es|], e, ns)], es + [e])
  {
    hide Enabled, Next;
    var all, events := ss + [Next(ss[|es|], e, ns)], es + [e];
    forall k | 0 <= k < |events|
      ensures Enabled(all[k], events[k]) && all[k + 1] == Next(all[k], events[k], ns)
    {
      if k < |es| {
        assert all[k] == ss[k] && all[k + 1] == ss[k + 1] && events[k] == es[k];
      }
    }
  }

  /** The writes are recorded, one after the other. */
  lemma {:induction false} RecordAll(first: Server, ns: Namespaces, ss0: seq<System>, es0: seq<Event>, ws: seq<Write>)
    returns (ss: seq<System>, es: seq<Event>)
    requires Execution(first, ns, ss0, es0)
    ensures Execution(first, ns, ss, es)
    ensures var s, t := ss0[|es0|], ss[|es|];
            && t.writes == s.writes + ws && t.server == s.server && t.active == s.active && t.start == s.start
  {
    ss, es := ss0, es0;
    if ws != [] {
      var n := |ws| - 1;
      ss, es := RecordAll(first, ns, ss0, es0, ws[..n]);
      assert ws == ws[..n] + [ws[n]];
      OneMore(first, ns, ss, es, Record(ws[n]));
      ss, es := ss + [Next(ss[|es|], Record(ws[n]), ns)], es + [Record(ws[n])];
    }
  }

  /** The rows that the updates need are there. */
  ghost predicate HasRows(server: Server, ws: seq<Write>) {
    forall i :: 0 <= i < |ws| ==> ws[i].job in server.jobs
  }

  lemma AcceptsWrites(server: Server, ws: seq<Write>)
    requires HasRows(server, ws)
    ensures Accepts(server, Fold(ws))
  {
    FoldKeys(ws);
  }

  /** A flush that succeeds; what it flushed can still be read locally until the next one. */
  lemma Flush(first: Server, ns: Namespaces, ss0: seq<System>, es0: seq<Event>)
    returns (ss: seq<System>, es: seq<Event>)
    requires Execution(first, ns, ss0, es0) && !ss0[|es0|].active && Proper(ss0[|es0|].writes)
    requires var s := ss0[|es0|]; s.start < |s.writes| && HasRows(s.server, s.writes[s.start..])
    ensures Execution(first, ns, ss, es)
    ensures var s, t := ss0[|es0|], ss[|es|];
            && Settled(t) && t.writes == s.writes && t.start == |s.writes|
            && s.start <= |s.writes| && t.server == Sent(s.server, BufferOf(s.writes[s.start..]), ns)
            && t.store == Store(EMPTY, Some(BufferOf(s.writes[s.start..])))
  {
    hide Sent, Fold, FirstSeen, Accepts, HasRows;
    var s := ss0[|es0|];
    var batch := s.writes[s.start..];
    BuffersAlways(first, ns, ss0, es0, |es0|);
    AcceptsWrites(s.server, batch);
    assert batch[0].job in JobsOf(batch);
    FoldKeys(batch);
    OneMore(first, ns, ss0, es0, Begin);
    var s1 := Next(s, Begin, ns);
    ss, es := ss0 + [s1], es0 + [Begin];
    OneMore(first, ns, ss, es, Deliver);
    var s2 := Next(s1, Deliver, ns);
    ss, es := ss + [s2], es + [Deliver];
    OneMore(first, ns, ss, es, Succeed);
    ss, es := ss + [Next(s2, Succeed, ns)], es + [Succeed];
  }

  /** A flush that fails, before or after the server has applied it: it is as if nothing had been flushed, but
      for what the server applied, and the next flush has it all again. */
  lemma FailedFlush(first: Server, ns: Namespaces, ss0: seq<System>, es0: seq<Event>, applied: bool)
    returns (ss: seq<System>, es: seq<Event>)
    requires Execution(first, ns, ss0, es0) && !ss0[|es0|].active && Proper(ss0[|es0|].writes)
    requires var s := ss0[|es0|]; s.start < |s.writes| && HasRows(s.server, s.writes[s.start..])
    ensures Execution(first, ns, ss, es) && es == es0 + [Begin] + (if applied then [Deliver] else []) + [Abort]
    ensures var s, t := ss0[|es0|], ss[|es|];
            && !t.active && t.writes == s.writes && t.start == s.start && s.start <= |s.writes|
            && t.store.current == BufferOf(s.writes[s.start..]) && t.store.flushing == None
            && t.server == if applied then Sent(s.server, BufferOf(s.writes[s.start..]), ns) else s.server
  {
    hide Sent, Fold, FirstSeen, Accepts, HasRows;
    var s := ss0[|es0|];
    var batch := s.writes[s.start..];
    BuffersAlways(first, ns, ss0, es0, |es0|);
    AcceptsWrites(s.server, batch);
    assert batch[0].job in JobsOf(batch);
    FoldKeys(batch);
    OneMore(first, ns, ss0, es0, Begin);
    ss, es := ss0 + [Next(s, Begin, ns)], es0 + [Begin];
    if applied {
      OneMore(first, ns, ss, es, Deliver);
      ss, es := ss + [Next(ss[|es|], Deliver, ns)], es + [Deliver];
    }
    var last := ss[|es|];
    OneMore(first, ns, ss, es, Abort);
    ss, es := ss + [Next(last, Abort, ns)], es + [Abort];
    BuffersAlways(first, ns, ss, es, |es|);
  }

  /** A flush with nothing to send sends nothing, and succeeds. */
  lemma EmptyFlush(first: Server, ns: Namespaces, ss: seq<System>, es: seq<Event>)
    requires Execution(first, ns, ss, es) && !ss[|es|].active && Proper(ss[|es|].writes)
    requires ss[|es|].start == |ss[|es|].writes|
    ensures var s := ss[|es|];
            && Enabled(s, Begin) && !Enabled(Next(s, Begin, ns), Deliver) && Enabled(Next(s, Begin, ns), Succeed)
            && var t := Next(Next(s, Begin, ns), Succeed, ns);
               t.server == s.server && t.writes == s.writes && Settled(t)
  {
    BuffersAlways(first, ns, ss, es, |es|);
    var s := ss[|es|];
    assert s.writes[s.start..] == [];
  }

  /** One flush of the writes up to `a`, if there are any, and another of those up to `c`. */
  lemma TwoFlushes(first: Server, ns: Namespaces, ws: seq<Write>, a: nat, c: nat)
    returns (ss: seq<System>, es: seq<Event>)
    requires Proper(ws) && HasRows(first, ws) && a < c <= |ws|
    ensures Execution(first, ns, ss, es) && |es| < |ss|
    ensures var t := ss[|es|];
            && Settled(t) && t.writes == ws[..c]
            && exists server: Server :: (a == 0 ==> server == first) && t.server == Sent(server, BufferOf(ws[a..c]), ns)
  {
    hide Sent, Enabled, Next, BufferOf;
    ss, es := [InitSystem(first)], [];
    if a > 0 {
      ss, es := RecordAll(first, ns, ss, es, ws[..a]);
      assert ss[|es|].writes == ws[..a] && ws[..a][0..] == ws[..a];
      ss, es := Flush(first, ns, ss, es);
      SameRows(first, BufferOf(ws[..a]), ns);
    }
    var server := ss[|es|].server;
    assert ss[|es|].writes == ws[..a];
    ss, es := RecordAll(first, ns, ss, es, ws[a..c]);
    assert ws[..a] + ws[a..c] == ws[..c] && ws[..c][a..] == ws[a..c];
    ss, es := Flush(first, ns, ss, es);
    assert ss[|es|].server == Sent(server, BufferOf(ws[a..c]), ns);
  }

  lemma SameRows(server: Server, b: Buffer, ns: Namespaces)
    ensures Sent(server, b, ns).jobs.Keys == server.jobs.Keys
  {
  }

  lemma SentSlot(server: Server, ws: seq<Write>, ns: Namespaces, r: Slot)
    requires SlotInBatch(Fold(ws), FirstSeen(ws), ns, r).Some?
    ensures Lookup(Sent(server, BufferOf(ws), ns).states, r) == SlotInBatch(Fold(ws), FirstSeen(ws), ns, r)
  {
    StateRowsLookup(Fold(ws), FirstSeen(ws), ns, r);
  }

  lemma WrittenSlot(first: Server, ws: seq<Write>, a: nat, c: nat, ns: Namespaces, r: Slot)
    requires a <= c <= |ws| && SlotInWrites(ws[a..c], ns, r).Some?
    ensures Lookup(WriteThrough(first, ws[..c], ns).states, r) == SlotInWrites(ws[a..c], ns, r)
  {
    assert ws[..a] + ws[a..c] == ws[..c];
    WriteThroughSplit(first, ws[..a], ws[a..c], ns);
    WriteThroughLookup(WriteThrough(first, ws[..a], ns), ws[a..c], ns, r);
  }

  /** A stretch that does not keep a slot: flushed as one batch, it leaves another value there. */
  lemma StretchIsSeen(server: Server, first: Server, ws: seq<Write>, a: nat, c: nat, ns: Namespaces)
    requires a <= c <= |ws| && !KeepsSlots(ws[a..c], ns)
    ensures Sent(server, BufferOf(ws[a..c]), ns) != WriteThrough(first, ws[..c], ns)
  {
    var r :| !KeepsSlot(ws[a..c], ns, r);
    KeepsSlotIff(ws[a..c], ns, r);
    hide *;
    SentSlot(server, ws[a..c], ns, r);
    WrittenSlot(first, ws, a, c, ns, r);
  }

  /** One flush of a failure and a completion: the error is not there. */
  lemma HidingPlan(first: Server, ws: seq<Write>, ns: Namespaces, i: nat, k: nat)
    returns (ss: seq<System>, es: seq<Event>)
    requires i < k < |ws| && Proper(ws) && HasRows(first, ws) && first.jobs[ws[i].job].error == None
    requires ws[i].Fail? && ws[k].Complete? && ws[i].job == ws[k].job
    ensures Execution(first, ns, ss, es) && |es| < |ss| && Settled(ss[|es|]) && ss[|es|].writes == ws[..k + 1]
    ensures ss[|es|].server != WriteThrough(first, ws[..k + 1], ns)
  {
    hide Sent, WriteThrough, Fold, FirstSeen, Execution, Settled, Proper;
    ss, es := TwoFlushes(first, ns, ws, 0, k + 1);
    var part := ws[..k + 1];
    assert ws[0..k + 1] == part && part[i] == ws[i] && part[|part| - 1] == ws[k];
    HiddenError(first, part, ns, i);
    RowsAreBatchRows(first, BufferOf(part), ns);
  }

  /** Two flushes, the second of a stretch that does not keep a slot. */
  lemma ReorderingPlan(first: Server, ws: seq<Write>, ns: Namespaces, a: nat, c: nat)
    returns (ss: seq<System>, es: seq<Event>)
    requires Proper(ws) && HasRows(first, ws) && a <= c <= |ws| && !KeepsSlots(ws[a..c], ns)
    ensures Execution(first, ns, ss, es) && |es| < |ss| && Settled(ss[|es|]) && ss[|es|].writes == ws[..c]
    ensures ss[|es|].server != WriteThrough(first, ws[..c], ns)
  {
    assert a < c;
    hide *;
    ss, es := TwoFlushes(first, ns, ws, a, c);
    var server: Server :| ss[|es|].server == Sent(server, BufferOf(ws[a..c]), ns);
    StretchIsSeen(server, first, ws, a, c, ns);
  }

  /** A run of flushes that ends with another server than the writes one by one. */
  lemma BadPlan(first: Server, ws: seq<Write>, ns: Namespaces) returns (ss: seq<System>, es: seq<Event>)
    requires Proper(ws) && HasRows(first, ws) && !Orderly(ws, ns)
    requires forall i :: 0 <= i < |ws| ==> first.jobs[ws[i].job].error == None
    ensures Execution(first, ns, ss, es) && Settled(ss[|es|]) && ss[|es|].writes <= ws
    ensures ss[|es|].server != WriteThrough(first, ss[|es|].writes, ns)
  {
    hide WriteThrough, KeepsSlots, Execution, Settled;
    if !NoCompleteAfterFail(ws) {
      var i, k :| 0 <= i < k < |ws| && ws[i].Fail? && ws[k].Complete? && ws[i].job == ws[k].job;
      ss, es := HidingPlan(first, ws, ns, i, k);
    } else {
      var a, c :| 0 <= a <= c <= |ws| && !KeepsSlots(ws[a..c], ns);
      ss, es := ReorderingPlan(first, ws, ns, a, c);
    }
  }

  lemma RowsAreBatchRows(server: Server, b: Buffer, ns: Namespaces)
    ensures Sent(server, b, ns).jobs == BatchRows(server, b.jobs)
  {
  }

  /** Whenever the worker flushes, and whichever flushes fail, the settled server has all writes so
      far in order: if and only if no job is completed after it failed, and every stretch of the
      writes keeps its slots. */
  lemma FaithfulIff(first: Server, ws: seq<Write>, ns: Namespaces)
    requires Proper(ws) && HasRows(first, ws)
    requires forall i :: 0 <= i < |ws| ==> first.jobs[ws[i].job].error == None
    ensures (forall ss: seq<System>, es: seq<Event> |
               Execution(first, ns, ss, es) && Settled(ss[|es|]) && ss[|es|].writes <= ws ::
               ss[|es|].server == WriteThrough(first, ss[|es|].writes, ns))
            <==> Orderly(ws, ns)
  {
    if Orderly(ws, ns) {
      forall ss: seq<System>, es: seq<Event>
        | Execution(first, ns, ss, es) && Settled(ss[|es|]) && ss[|es|].writes <= ws
        ensures ss[|es|].server == WriteThrough(first, ss[|es|].writes, ns)
      {
        var n := |ss[|es|].writes|;
        OrderlyPart(ws, 0, n, ns);
        assert ws[0..n] == ss[|es|].writes;
        SettledServerHasAll(first, ns, ss, es);
      }
    } else {
      var ss, es := BadPlan(first, ws, ns);
    }
  }
}
