/**
 Attributing a thread's token usage to the agent loops of one attempt. The server sends cumulative snapshots; what a
 snapshot adds belongs to the loop that is active when it arrives, or to nobody. A snapshot that goes back is discarded
 and breaks the count: the next one starts afresh.
 */
module UsageAttribution {
  import opened Common
  import opened TokenUsage

  datatype Key = Key(generation: nat, sequence: nat)

  /** A loop and its accumulator. */
  datatype Loop = Loop(itemId: string, seen: set<Key>, baseline: Option<Usage>, total: Usage, usageInvalid: bool)

  /** The fields of an attempt; `closedLoops` and `history` remember the loops that ended and the distinct snapshots. */
  datatype State = State(
    activeLoop: Option<Loop>, lastSnapshot: Option<Usage>, snapshotSeen: set<Key>, unallocated: Usage,
    protocolClosed: bool, lateEventCount: nat, closedLoops: seq<Loop>, history: seq<Usage>)

  const NEW := State(None, None, {}, ZERO, false, 0, [], [])

  datatype Event =
    | Record(key: Key, reasoningItem: Option<string>, snapshot: Option<Usage>)
    | CloseProtocol

  // ---------- the steps ----------

  datatype Observed = Observed(loop: Loop, regressed: bool)

  function Observe(l: Loop, key: Key, current: Usage): Observed {
    if key in l.seen then Observed(l, false)
    else
      var m := l.(seen := l.seen + {key});
      if l.baseline.None? then Observed(m.(baseline := Some(current)), false)
      else
        match Subtract(current, l.baseline.value)
        case None => Observed(m, true)
        case Some(delta) => Observed(m.(baseline := Some(current), total := Plus(l.total, delta)), false)
  }

  function CloseLoop(s: State): State {
    if s.activeLoop.None? then s
    else s.(activeLoop := None, closedLoops := s.closedLoops + [s.activeLoop.value])
  }

  function EnterLoop(s: State, item: string): State {
    if s.activeLoop.Some? && s.activeLoop.value.itemId == item then s
    else CloseLoop(s).(activeLoop := Some(Loop(item, {}, s.lastSnapshot, ZERO, false)))
  }

  function TakeSnapshot(s: State, key: Key, snapshot: Usage): State {
    if key in s.snapshotSeen then s
    else
      var t := s.(snapshotSeen := s.snapshotSeen + {key}, history := s.history + [snapshot]);
      if s.activeLoop.Some? then
        var o := Observe(s.activeLoop.value, key, snapshot);
        if o.regressed
        then t.(activeLoop := Some(o.loop.(baseline := None, usageInvalid := true)), lastSnapshot := None)
        else t.(activeLoop := Some(o.loop), lastSnapshot := Some(snapshot))
      else if s.lastSnapshot.Some? then
        match Subtract(snapshot, s.lastSnapshot.value)
        case None => t.(lastSnapshot := None)
        case Some(delta) => t.(unallocated := Plus(s.unallocated, delta), lastSnapshot := Some(snapshot))
      else t.(lastSnapshot := Some(snapshot))
  }

  function Step(s: State, e: Event): State {
    match e
    case Record(key, item, snapshot) =>
      if s.protocolClosed then s.(lateEventCount := s.lateEventCount + 1)
      else
        var t := if item.Some? && item.value != "" then EnterLoop(s, item.value) else s;
        if snapshot.Some? then TakeSnapshot(t, key, snapshot.value) else t
    case CloseProtocol =>
      if s.protocolClosed then s else CloseLoop(s.(protocolClosed := true))
  }

  function After(s: State, events: seq<Event>): State {
    if events == [] then s else Step(After(s, events[..|events| - 1]), events[|events| - 1])
  }

  // ---------- what was spent ----------

  /** The finished non-regressing stretches of a list of snapshots, and the stretch that is still growing, if any. */
  datatype Stretches = Stretches(done: seq<seq<Usage>>, open: seq<Usage>)

  function Cut(h: seq<Usage>): Stretches {
    if h == [] then Stretches([], [])
    else
      var before, s := Cut(h[..|h| - 1]), h[|h| - 1];
      if before.open == [] then before.(open := [s])
      else if AtLeast(s, before.open[|before.open| - 1]) then before.(open := before.open + [s])
      else Stretches(before.done + [before.open], [])
  }

  /** What a stretch of snapshots amounts to: its last minus its first. */
  function Growth(stretch: seq<Usage>): Usage {
    if stretch == [] then ZERO else Minus(stretch[|stretch| - 1], stretch[0])
  }

  function TotalGrowth(stretches: seq<seq<Usage>>): Usage {
    if stretches == [] then ZERO
    else Plus(TotalGrowth(stretches[..|stretches| - 1]), Growth(stretches[|stretches| - 1]))
  }

  function Spent(h: seq<Usage>): Usage {
    Plus(TotalGrowth(Cut(h).done), Growth(Cut(h).open))
  }

  function Totals(loops: seq<Loop>): Usage {
    if loops == [] then ZERO else Plus(Totals(loops[..|loops| - 1]), loops[|loops| - 1].total)
  }

  function Active(s: State): Usage {
    if s.activeLoop.Some? then s.activeLoop.value.total else ZERO
  }

  function Attributed(s: State): Usage {
    Plus(Plus(Totals(s.closedLoops), Active(s)), s.unallocated)
  }

  // ---------- the invariant ----------

  function LastOf(stretch: seq<Usage>): Option<Usage> {
    if stretch == [] then None else Some(stretch[|stretch| - 1])
  }

  ghost predicate Inv(s: State) {
    && s.lastSnapshot == LastOf(Cut(s.history).open)
    && (s.activeLoop.Some? ==> s.activeLoop.value.baseline == s.lastSnapshot && s.activeLoop.value.seen <= s.snapshotSeen)
    && Attributed(s) == Spent(s.history)
  }

  /** How one more snapshot changes the stretches and what was spent. */
  lemma SpentNext(h: seq<Usage>, s: Usage)
    ensures var last := LastOf(Cut(h).open);
            var fits := last.Some? ==> AtLeast(s, last.value);
            && LastOf(Cut(h + [s]).open) == (if fits then Some(s) else None)
            && Spent(h + [s]) == Plus(Spent(h), if last.Some? && fits then Minus(s, last.value) else ZERO)
  {
    assert (h + [s])[..|h|] == h;
    var before := Cut(h);
    if before.open != [] && !AtLeast(s, before.open[|before.open| - 1]) {
      assert (before.done + [before.open])[..|before.done|] == before.done;
    }
  }

  lemma CloseKeepsInv(s: State)
    requires Inv(s)
    ensures Inv(CloseLoop(s))
  {
    hide Spent, Cut;
  }

  lemma EnterKeepsInv(s: State, item: string)
    requires Inv(s)
    ensures Inv(EnterLoop(s, item))
  {
    hide Spent, Cut;
    CloseKeepsInv(s);
  }

  lemma PlusMoves(a: Usage, b: Usage, c: Usage, d: Usage)
    ensures Plus(Plus(a, Plus(b, d)), c) == Plus(Plus(Plus(a, b), c), d)
    ensures Plus(Plus(a, b), Plus(c, d)) == Plus(Plus(Plus(a, b), c), d)
    ensures Plus(a, ZERO) == a
  {
  }

  lemma SubtractIsMinus(u: Usage, previous: Usage)
    ensures Subtract(u, previous) == if AtLeast(u, previous) then Some(Minus(u, previous)) else None
  {
  }

  lemma SnapshotKeepsInv(s: State, key: Key, snapshot: Usage)
    requires Inv(s)
    ensures Inv(TakeSnapshot(s, key, snapshot))
  {
    hide Spent, Cut, Totals, Plus, Minus, Subtract, AtLeast, LastOf;
    SpentNext(s.history, snapshot);
    var delta := if s.lastSnapshot.Some? then Minus(snapshot, s.lastSnapshot.value) else ZERO;
    PlusMoves(Totals(s.closedLoops), Active(s), s.unallocated, delta);
    PlusMoves(Spent(s.history), ZERO, ZERO, ZERO);
    if s.lastSnapshot.Some? {
      SubtractIsMinus(snapshot, s.lastSnapshot.value);
    }
  }

  lemma StepKeepsInv(s: State, e: Event)
    requires Inv(s)
    ensures Inv(Step(s, e))
  {
    hide Inv, EnterLoop, TakeSnapshot;
    match e {
      case Record(key, item, snapshot) =>
        LateKeepsInv(s, s.lateEventCount + 1, s.protocolClosed);
        var t := if item.Some? && item.value != "" then EnterLoop(s, item.value) else s;
        if item.Some? {
          EnterKeepsInv(s, item.value);
        }
        if snapshot.Some? {
          SnapshotKeepsInv(t, key, snapshot.value);
        }
      case CloseProtocol =>
        LateKeepsInv(s, s.lateEventCount, true);
        CloseKeepsInv(s.(protocolClosed := true));
    }
  }

  lemma LateKeepsInv(s: State, late: nat, closed: bool)
    requires Inv(s)
    ensures Inv(s.(lateEventCount := late, protocolClosed := closed))
  {
    hide Spent, Cut;
  }

  // ---------- every run ----------

  lemma NothingSpent()
    ensures Cut([]) == Stretches([], []) && Spent([]) == ZERO && Totals([]) == ZERO
  {
    assert TotalGrowth([]) == ZERO;
  }

  lemma NewIsInv()
    ensures Inv(NEW)
  {
    hide Cut, Spent, Totals;
    NothingSpent();
  }

  lemma {:induction false} AfterIsInv(events: seq<Event>)
    ensures Inv(After(NEW, events))
  {
    hide Inv, Step;
    if events == [] {
      NewIsInv();
    } else {
      AfterIsInv(events[..|events| - 1]);
      StepKeepsInv(After(NEW, events[..|events| - 1]), events[|events| - 1]);
    }
  }

  /** Tokens are conserved: loops and unallocated usage add up to what the stretches of snapshots amount to. */
  lemma UsageIsConserved(events: seq<Event>)
    ensures Attributed(After(NEW, events)) == Spent(After(NEW, events).history)
  {
    AfterIsInv(events);
  }

  /** The active loop measures from the attempt's last snapshot. */
  lemma BaselineIsLastSnapshot(events: seq<Event>)
    ensures var s := After(NEW, events); s.activeLoop.Some? ==> s.activeLoop.value.baseline == s.lastSnapshot
  {
    AfterIsInv(events);
  }

  /** What a new snapshot adds goes to the active loop and nowhere else, or is unallocated when no loop is active. */
  lemma SnapshotGoesToTheActiveLoop(events: seq<Event>, key: Key, snapshot: Usage)
    requires key !in After(NEW, events).snapshotSeen
    ensures var s := After(NEW, events);
            var t := TakeSnapshot(s, key, snapshot);
            var added := Minus(Spent(t.history), Spent(s.history));
            && t.history == s.history + [snapshot] && t.closedLoops == s.closedLoops
            && (s.activeLoop.Some? ==> t.unallocated == s.unallocated && Active(t) == Plus(Active(s), added))
            && (s.activeLoop.None? ==> t.activeLoop.None? && t.unallocated == Plus(s.unallocated, added))
  {
    hide After, Spent, Cut;
    AfterIsInv(events);
    SpentNext(After(NEW, events).history, snapshot);
  }

  /** A snapshot that was seen before, whenever that was and whatever it now says, changes nothing. */
  lemma {:induction false} DuplicatesChangeNothing(events: seq<Event>, i: nat, key: Key, again: Usage)
    requires i < |events| && events[i].Record? && events[i].key == key && events[i].snapshot.Some?
    requires !After(NEW, events[..i]).protocolClosed && !After(NEW, events).protocolClosed
    ensures Step(After(NEW, events), Record(key, None, Some(again))) == After(NEW, events)
  {
    SeenStays(events, i);
  }

  lemma {:induction false} SeenStays(events: seq<Event>, i: nat)
    requires i < |events| && events[i].Record? && events[i].snapshot.Some? && !After(NEW, events[..i]).protocolClosed
    ensures events[i].key in After(NEW, events).snapshotSeen
  {
    var before := events[..|events| - 1];
    if i == |events| - 1 {
      assert before == events[..i];
    } else {
      assert before[..i] == events[..i];
      SeenStays(before, i);
    }
  }

  // ---------- what is reported ----------

  function Reported(loops: seq<Loop>, invalid: bool): Usage {
    if loops == [] then ZERO
    else
      var before, last := Reported(loops[..|loops| - 1], invalid), loops[|loops| - 1];
      if last.usageInvalid == invalid then Plus(before, last.total) else before
  }

  lemma {:induction false} ReportedOrWithheld(loops: seq<Loop>)
    ensures Totals(loops) == Plus(Reported(loops, false), Reported(loops, true))
  {
    if loops != [] {
      ReportedOrWithheld(loops[..|loops| - 1]);
    }
  }

  /** When the protocol is closed, what the spans report and what regressions withheld add up to what was spent. */
  lemma ClosedProtocolAccountsForEverything(events: seq<Event>)
    requires After(NEW, events).protocolClosed
    ensures var s := After(NEW, events);
            s.activeLoop.None? &&
            Spent(s.history)
            == Plus(Plus(Reported(s.closedLoops, false), Reported(s.closedLoops, true)), s.unallocated)
  {
    hide After, Cut, Spent, Totals, Reported;
    AfterIsInv(events);
    ReportedOrWithheld(After(NEW, events).closedLoops);
    ClosedHasNoLoop(events);
  }

  lemma {:induction false} ClosedHasNoLoop(events: seq<Event>)
    ensures After(NEW, events).protocolClosed ==> After(NEW, events).activeLoop.None?
  {
    if events != [] {
      ClosedHasNoLoop(events[..|events| - 1]);
    }
  }

  ghost predicate Rises(stretch: seq<Usage>) {
    stretch != [] && (|stretch| == 1 ||
                      (Rises(stretch[..|stretch| - 1]) && AtLeast(stretch[|stretch| - 1], stretch[|stretch| - 2])))
  }

  lemma RiseNext(stretch: seq<Usage>, s: Usage)
    ensures Rises([s])
    ensures Rises(stretch) && AtLeast(s, stretch[|stretch| - 1]) ==> Rises(stretch + [s])
  {
    assert (stretch + [s])[..|stretch|] == stretch;
  }

  /** Each stretch is what its name says: snapshots in which no counter goes back. */
  lemma {:induction false} StretchesRise(h: seq<Usage>)
    ensures forall i | 0 <= i < |Cut(h).done| :: Rises(Cut(h).done[i])
    ensures Cut(h).open != [] ==> Rises(Cut(h).open)
  {
    hide Rises, AtLeast;
    RiseNext([], ZERO);
    if h != [] {
      StretchesRise(h[..|h| - 1]);
      RiseNext(Cut(h[..|h| - 1]).open, h[|h| - 1]);
      RiseNext([], h[|h| - 1]);
    }
  }

  /** Stretches in order, each but the last followed by the snapshot that ended it. */
  function Woven(done: seq<seq<Usage>>, dropped: seq<Usage>): seq<Usage>
    requires |done| == |dropped|
  {
    if done == [] then []
    else Woven(done[..|done| - 1], dropped[..|done| - 1]) + done[|done| - 1] + [dropped[|done| - 1]]
  }

  /**
   The stretches make up the history together with the dropped snapshots, no counter goes back inside a stretch, and
   each dropped snapshot goes back behind the end of the stretch before it.
   */
  ghost predicate MakesUp(h: seq<Usage>, stretches: Stretches, dropped: seq<Usage>) {
    && |dropped| == |stretches.done| && h == Woven(stretches.done, dropped) + stretches.open
    && (stretches.open != [] ==> Rises(stretches.open))
    && forall i | 0 <= i < |dropped| :: EndsWith(stretches.done[i], dropped[i])
  }

  /** No counter goes back in the stretch, but one does in the snapshot after it. */
  ghost predicate EndsWith(stretch: seq<Usage>, s: Usage) {
    Rises(stretch) && !AtLeast(s, stretch[|stretch| - 1])
  }

  /** The stretches make up the history: every snapshot is in exactly one of them, or is the one that ended it. */
  lemma {:induction false} StretchesMakeUp(h: seq<Usage>) returns (dropped: seq<Usage>)
    ensures MakesUp(h, Cut(h), dropped)
  {
    dropped := [];
    hide MakesUp, AtLeast, Rises;
    if h == [] {
      NothingMakesUp();
    } else {
      var before, s := h[..|h| - 1], h[|h| - 1];
      var cut := Cut(before);
      dropped := StretchesMakeUp(before);
      assert before + [s] == h && (cut.open == [] ==> cut.open + [s] == [s]);
      if cut.open == [] || AtLeast(s, cut.open[|cut.open| - 1]) {
        OpenStretchGrows(before, cut, dropped, s);
      } else {
        OpenStretchEnds(before, cut, dropped, s);
        dropped := dropped + [s];
      }
    }
  }

  lemma NothingMakesUp()
    ensures MakesUp([], Stretches([], []), [])
  {
  }

  lemma OpenStretchGrows(h: seq<Usage>, stretches: Stretches, dropped: seq<Usage>, s: Usage)
    requires MakesUp(h, stretches, dropped) && (stretches.open != [] ==> AtLeast(s, stretches.open[|stretches.open| - 1]))
    ensures MakesUp(h + [s], stretches.(open := stretches.open + [s]), dropped)
  {
    RiseNext(stretches.open, s);
    assert stretches.open == [] ==> stretches.open + [s] == [s];
    hide Rises, AtLeast, EndsWith, Woven;
    assert Woven(stretches.done, dropped) + stretches.open + [s] == Woven(stretches.done, dropped) + (stretches.open + [s]);
  }

  lemma OpenStretchEnds(h: seq<Usage>, stretches: Stretches, dropped: seq<Usage>, s: Usage)
    requires MakesUp(h, stretches, dropped) && stretches.open != [] && !AtLeast(s, stretches.open[|stretches.open| - 1])
    ensures MakesUp(h + [s], Stretches(stretches.done + [stretches.open], []), dropped + [s])
  {
    WovenNext(stretches.done, dropped, stretches.open, s);
    assert EndsWith(stretches.open, s);
    hide Rises, AtLeast, EndsWith, Woven;
  }

  lemma WovenNext(done: seq<seq<Usage>>, dropped: seq<Usage>, last: seq<Usage>, s: Usage)
    requires |done| == |dropped|
    ensures Woven(done + [last], dropped + [s]) == Woven(done, dropped) + last + [s]
  {
    assert (done + [last])[..|done|] == done && (dropped + [s])[..|done|] == dropped;
  }

  /** And they are the only ones that do: the stretches are as long as they can be. */
  lemma {:induction false} OnlyTheStretchesMakeUp(h: seq<Usage>, stretches: Stretches, dropped: seq<Usage>)
    requires MakesUp(h, stretches, dropped)
    ensures stretches == Cut(h)
  {
    hide Rises, AtLeast;
    if stretches.open != [] {
      OpenStretchMakesUp(h, stretches, dropped);
      OnlyTheStretchesMakeUp(h[..|h| - 1], WithoutLast(stretches), dropped);
    } else if stretches.done != [] {
      EndedStretchMakesUp(h, stretches, dropped);
      OnlyTheStretchesMakeUp(h[..|h| - 1], WithoutLast(stretches), dropped[..|dropped| - 1]);
    }
  }

  /** The stretches before the last snapshot: it was appended to the open one, or ended the one before. */
  function WithoutLast(stretches: Stretches): Stretches {
    var Stretches(done, open) := stretches;
    if open != [] then Stretches(done, open[..|open| - 1])
    else if done != [] then Stretches(done[..|done| - 1], done[|done| - 1])
    else stretches
  }

  lemma OpenStretchMakesUp(h: seq<Usage>, stretches: Stretches, dropped: seq<Usage>)
    requires MakesUp(h, stretches, dropped) && stretches.open != []
    ensures h != [] && MakesUp(h[..|h| - 1], WithoutLast(stretches), dropped)
    ensures var before, s := WithoutLast(stretches), h[|h| - 1];
            stretches == before.(open := before.open + [s]) && (before.open != [] ==> AtLeast(s, before.open[|before.open| - 1]))
  {
    hide Woven, AtLeast, EndsWith;
    var k := |stretches.open| - 1;
    assert h[..|h| - 1] == Woven(stretches.done, dropped) + stretches.open[..k];
    assert stretches.open[..k] + [stretches.open[k]] == stretches.open;
  }

  lemma EndedStretchMakesUp(h: seq<Usage>, stretches: Stretches, dropped: seq<Usage>)
    requires MakesUp(h, stretches, dropped) && stretches.open == [] && stretches.done != []
    ensures h != [] && MakesUp(h[..|h| - 1], WithoutLast(stretches), dropped[..|dropped| - 1])
    ensures var before, s := WithoutLast(stretches), h[|h| - 1];
            && before.open != [] && !AtLeast(s, before.open[|before.open| - 1])
            && stretches == Stretches(before.done + [before.open], [])
  {
    var n := |dropped| - 1;
    assert EndsWith(stretches.done[n], dropped[n]);
    assert stretches.done[..n] + [stretches.done[n]] == stretches.done && dropped[..n] + [dropped[n]] == dropped;
    WovenNext(stretches.done[..n], dropped[..n], stretches.done[n], dropped[n]);
    hide Rises, AtLeast, EndsWith, Woven;
    assert h[..|h| - 1] == Woven(stretches.done[..n], dropped[..n]) + stretches.done[n];
  }

  /** What was spent never falls, and so is never negative. */
  lemma {:induction false} SpendingOnlyGrows(h: seq<Usage>, k: nat)
    requires k <= |h|
    ensures AtLeast(Spent(h), Spent(h[..k])) && AtLeast(Spent(h[..k]), ZERO)
  {
    hide Spent, Cut;
    NothingSpent();
    if h == [] {
      assert h[..k] == [];
    } else {
      var before, s := h[..|h| - 1], h[|h| - 1];
      SpentNext(before, s);
      assert h == before + [s];
      if k == |h| {
        assert h[..k] == h;
        SpendingOnlyGrows(before, |before|);
        assert before[..|before|] == before;
      } else {
        SpendingOnlyGrows(before, k);
        assert before[..k] == h[..k];
      }
    }
  }

  // ---------- the attempt ----------

  /** A new reasoning item becomes the active loop, which starts to count at the last snapshot; the loop before it is closed. */
  ghost predicate Entered(before: State, after: State, item: string) {
    if before.activeLoop.Some? && before.activeLoop.value.itemId == item then after == before
    else after == before.(activeLoop := Some(Loop(item, {}, before.lastSnapshot, ZERO, false)),
                          closedLoops := before.closedLoops + if before.activeLoop.Some? then [before.activeLoop.value] else [])
  }

  /**
   A snapshot seen before changes nothing. Of a new one the active loop gets what it adds to the last one, or nobody's
   account does. If a counter went back, it adds nothing, the loop is withheld, and the count starts afresh.
   */
  ghost predicate Counted(before: State, after: State, key: Key, snapshot: Usage) {
    if key in before.snapshotSeen then after == before
    else
      var last := before.lastSnapshot;
      var regressed := last.Some? && Subtract(snapshot, last.value).None?;
      var added := if last.Some? && !regressed then Minus(snapshot, last.value) else ZERO;
      var next := if regressed then None else Some(snapshot);
      && after == before.(snapshotSeen := before.snapshotSeen + {key}, history := before.history + [snapshot], lastSnapshot := next,
                          activeLoop := after.activeLoop, unallocated := after.unallocated)
      && if before.activeLoop.Some? then
           var l := before.activeLoop.value;
           && after.unallocated == before.unallocated
           && after.activeLoop == Some(Loop(l.itemId, l.seen + {key}, next, Plus(l.total, added), l.usageInvalid || regressed))
         else after.activeLoop.None? && after.unallocated == Plus(before.unallocated, added)
  }

  lemma EnterMeans(s: State, item: string)
    ensures Entered(s, EnterLoop(s, item), item)
  {
  }

  lemma SnapshotMeans(s: State, key: Key, snapshot: Usage)
    requires Inv(s)
    ensures Counted(s, TakeSnapshot(s, key, snapshot), key, snapshot)
  {
    hide Spent, Cut, Minus, Totals;
  }

  /** An event of a closed protocol is only counted as late; any other enters its reasoning item and counts its snapshot. */
  ghost predicate Handled(before: State, after: State, key: Key, item: Option<string>, snapshot: Option<Usage>) {
    if before.protocolClosed then after == before.(lateEventCount := before.lateEventCount + 1)
    else exists entered :: Through(before, entered, after, key, item, snapshot)
  }

  ghost predicate Through(before: State, entered: State, after: State, key: Key, item: Option<string>, snapshot: Option<Usage>) {
    && (if item.Some? && item.value != "" then Entered(before, entered, item.value) else entered == before)
    && (if snapshot.Some? then Counted(entered, after, key, snapshot.value) else after == entered)
  }

  lemma RecordMeans(s: State, key: Key, item: Option<string>, snapshot: Option<Usage>)
    requires Inv(s)
    ensures Handled(s, Step(s, Record(key, item, snapshot)), key, item, snapshot)
  {
    hide Inv, TakeSnapshot, EnterLoop, Counted, Entered;
    if !s.protocolClosed {
      var entered := if item.Some? && item.value != "" then EnterLoop(s, item.value) else s;
      if item.Some? {
        EnterMeans(s, item.value);
        EnterKeepsInv(s, item.value);
      }
      if snapshot.Some? {
        SnapshotMeans(entered, key, snapshot.value);
      }
      assert Through(s, entered, Step(s, Record(key, item, snapshot)), key, item, snapshot);
    }
  }

  /** The report has the totals of exactly the loops that are not withheld, and the rest is withheld. */
  lemma OnlyCleanLoopsAreReported(loops: seq<Loop>, l: Loop)
    ensures Reported([], false) == Reported([], true) == ZERO
    ensures Reported(loops + [l], l.usageInvalid) == Plus(Reported(loops, l.usageInvalid), l.total)
    ensures Reported(loops + [l], !l.usageInvalid) == Reported(loops, !l.usageInvalid)
  {
    assert (loops + [l])[..|loops|] == loops;
  }

  /** The loop that comes after `n` closed ones, once it is there: it works on `item` and is withheld. */
  ghost predicate IsWithheld(s: State, n: nat, item: string) {
    && n <= |s.closedLoops|
    && var loop := if n < |s.closedLoops| then Some(s.closedLoops[n]) else s.activeLoop;
       loop.Some? && loop.value.usageInvalid && loop.value.itemId == item
  }

  /** A loop that is withheld stays withheld, until the end and in the report. */
  lemma {:induction false} WithheldStaysWithheld(s: State, events: seq<Event>, n: nat, item: string)
    requires IsWithheld(s, n, item)
    ensures IsWithheld(After(s, events), n, item)
  {
    hide Step, IsWithheld;
    if events != [] {
      WithheldStaysWithheld(s, events[..|events| - 1], n, item);
      WithheldStep(After(s, events[..|events| - 1]), events[|events| - 1], n, item);
    }
  }

  lemma WithheldStep(s: State, e: Event, n: nat, item: string)
    requires IsWithheld(s, n, item)
    ensures IsWithheld(Step(s, e), n, item)
  {
    hide Minus, Plus, Subtract;
  }

  /** The accounting fields of an attempt, changed under its mutex. */
  class Attempt {
    var activeLoop: Option<Loop>
    var lastSnapshot: Option<Usage>
    var snapshotSeen: set<Key>
    var unallocated: Usage
    var protocolClosed: bool
    var lateEventCount: nat
    ghost var model: State

    ghost predicate Valid()
      reads this
    {
      && Inv(model)
      && activeLoop == model.activeLoop && lastSnapshot == model.lastSnapshot && snapshotSeen == model.snapshotSeen
      && unallocated == model.unallocated && protocolClosed == model.protocolClosed
      && lateEventCount == model.lateEventCount
    }

    constructor ()
      ensures Valid() && model == NEW
    {
      hide Inv;
      activeLoop, lastSnapshot, snapshotSeen, unallocated := None, None, {}, ZERO;
      protocolClosed, lateEventCount := false, 0;
      model := NEW;
      new;
      NewIsInv();
    }

    method RecordProtocolEvent(key: Key, reasoningItem: Option<string>, snapshot: Option<Usage>)
      requires Valid()
      modifies this
      ensures Valid() && model == Step(old(model), Record(key, reasoningItem, snapshot))
      ensures Handled(old(model), model, key, reasoningItem, snapshot)
    {
      RecordMeans(model, key, reasoningItem, snapshot);
      hide Inv, EnterLoop, TakeSnapshot, Handled;
      StepKeepsInv(model, Record(key, reasoningItem, snapshot));
      if protocolClosed {
        model := model.(lateEventCount := lateEventCount + 1);
        lateEventCount := lateEventCount + 1;
        return;
      }
      if reasoningItem.Some? && reasoningItem.value != "" {
        StartLoop(reasoningItem.value);
      }
      if snapshot.Some? {
        RecordSnapshot(key, snapshot.value);
      }
    }

    method StartLoop(item: string)
      requires Valid()
      modifies this
      ensures Valid() && model == EnterLoop(old(model), item)
    {
      hide Inv;
      EnterKeepsInv(model, item);
      model := EnterLoop(model, item);
      if activeLoop.None? || activeLoop.value.itemId != item {
        activeLoop := Some(Loop(item, {}, lastSnapshot, ZERO, false));
      }
    }

    method RecordSnapshot(key: Key, snapshot: Usage)
      requires Valid()
      modifies this
      ensures Valid() && model == TakeSnapshot(old(model), key, snapshot)
    {
      hide Inv, Observe, Subtract, Plus;
      SnapshotKeepsInv(model, key, snapshot);
      model := TakeSnapshot(model, key, snapshot);
      if key in snapshotSeen {
        return;
      }
      snapshotSeen := snapshotSeen + {key};
      var trusted := true;
      if activeLoop.Some? {
        var o := Observe(activeLoop.value, key, snapshot);
        trusted := !o.regressed;
        activeLoop := Some(if trusted then o.loop else o.loop.(baseline := None, usageInvalid := true));
      } else if lastSnapshot.Some? {
        var delta := Subtract(snapshot, lastSnapshot.value);
        trusted := delta.Some?;
        unallocated := if trusted then Plus(unallocated, delta.value) else unallocated;
      }
      lastSnapshot := if trusted then Some(snapshot) else None;
    }

    method Close()
      requires Valid()
      modifies this
      ensures Valid() && model == Step(old(model), CloseProtocol)
      ensures old(protocolClosed) ==> model == old(model)
      ensures !old(protocolClosed) ==>
                model == old(model).(protocolClosed := true, activeLoop := None,
                                     closedLoops := old(model).closedLoops
                                                    + if old(activeLoop).Some? then [old(activeLoop).value] else [])
    {
      StepKeepsInv(model, CloseProtocol);
      hide Inv;
      model := Step(model, CloseProtocol);
      if protocolClosed {
        return;
      }
      protocolClosed := true;
      activeLoop := None;
    }
  }
}
