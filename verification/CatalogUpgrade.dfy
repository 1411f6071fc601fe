/**
 Moving a conversation to a new tool catalog. A thread keeps the tools it was started with, so an outdated thread is
 archived and replaced, with the state of the replacement persisted before each step that the server can see. Batches,
 `/new` and their crashes interleave at every statement and every server call; a restart may bring another target.
 */
module CatalogUpgrade {
  import opened Common

  // ---------- data ----------

  datatype UpgradeState = Stable | ArchivePending | StartPending

  /** The catalog columns of a chat group; an empty string stands for NULL. */
  datatype Row = Row(thread: string, version: string, state: UpgradeState, fromThread: string, upgradeTarget: string)

  /** Where a batch or a `/new` stands between two steps. */
  datatype Phase =
    | Archiving(from: string)
    | Advancing(from: string)
    | Resuming(thread: string)
    | StartingPlain(expected: string)
    | StartingUpgrade
    | Replacing(expected: string, started: string)
    | Completing(started: string)
    | ArchivingCurrent(current: string)
    | Clearing(current: string)

  datatype Resumption = Resumption(thread: string, target: string)

  datatype Publication = Publication(upgrade: nat, thread: string)

  /** `tools` maps each thread the server ever started to the catalog it was started with. */
  datatype World = World(
    row: Row, target: string, tools: map<string, string>, procs: map<nat, Phase>,
    upgrade: nat, resumed: seq<Resumption>, published: seq<Publication>)

  datatype Event =
    | Prepare(pid: nat)
    | Archive(pid: nat, ok: bool)
    | Advance(pid: nat)
    | Resume(pid: nat, ok: bool)
    | Start(pid: nat, thread: string)
    | Replace(pid: nat)
    | Complete(pid: nat)
    | NewSession(pid: nat)
    | ArchiveCurrent(pid: nat, ok: bool)
    | Clear(pid: nat)
    | Crash(pid: nat)
    | Restart(target: string)

  // ---------- the statements ----------

  predicate NeedsUpgrade(row: Row, target: string) {
    row.state.Stable? && row.version != target
  }

  function PrepareRow(row: Row, target: string): Row {
    if NeedsUpgrade(row, target) then row.(state := ArchivePending, fromThread := row.thread, upgradeTarget := target) else row
  }

  predicate MayAdvance(row: Row, archived: string) {
    row.state.ArchivePending? && row.fromThread == archived
  }

  function AdvanceRow(row: Row, archived: string): Row {
    if MayAdvance(row, archived) then row.(thread := "", state := StartPending) else row
  }

  predicate MayComplete(row: Row, target: string) {
    row.state.StartPending? && row.upgradeTarget == target
  }

  function CompleteRow(row: Row, target: string, thread: string): Row {
    if MayComplete(row, target) then Row(thread, target, Stable, "", "") else row
  }

  function SetThreadIfExpected(row: Row, expected: string, replacement: string): Row {
    if row.thread == expected then row.(thread := replacement) else row
  }

  // ---------- the steps ----------

  function To(w: World, pid: nat, phase: Phase): World {
    w.(procs := w.procs[pid := phase])
  }

  function End(w: World, pid: nat): World {
    w.(procs := w.procs - {pid})
  }

  function NextPhase(row: Row): Phase {
    match row.state
    case Stable => if row.thread == "" then StartingPlain("") else Resuming(row.thread)
    case ArchivePending => if row.fromThread == "" then Advancing("") else Archiving(row.fromThread)
    case StartPending => StartingUpgrade
  }

  function DoPrepare(w: World, pid: nat): World {
    var row := PrepareRow(w.row, w.target);
    To(w.(row := row, upgrade := w.upgrade + if NeedsUpgrade(w.row, w.target) then 1 else 0), pid, NextPhase(row))
  }

  function DoAdvance(w: World, pid: nat, from: string): World {
    if MayAdvance(w.row, from) then To(w.(row := AdvanceRow(w.row, from)), pid, StartingUpgrade) else End(w, pid)
  }

  function DoResume(w: World, pid: nat, thread: string, ok: bool): World {
    if ok then End(w.(resumed := w.resumed + [Resumption(thread, w.target)]), pid) else To(w, pid, StartingPlain(thread))
  }

  function DoStart(w: World, pid: nat, next: Phase, thread: string): World {
    if thread == "" || thread in w.tools then w else To(w.(tools := w.tools[thread := w.target]), pid, next)
  }

  function DoComplete(w: World, pid: nat, thread: string): World {
    if MayComplete(w.row, w.target)
    then End(w.(row := CompleteRow(w.row, w.target, thread), published := w.published + [Publication(w.upgrade, thread)]), pid)
    else End(w, pid)
  }

  function Step(w: World, e: Event): World {
    match e
    case Prepare(pid) => if pid in w.procs then w else DoPrepare(w, pid)
    case NewSession(pid) => if pid in w.procs || w.row.thread == "" then w else To(w, pid, ArchivingCurrent(w.row.thread))
    case Restart(target) => w.(target := target, procs := map[])
    case Crash(pid) => End(w, pid)
    case _ => if e.pid !in w.procs then w else Continue(w, e, w.procs[e.pid])
  }

  /** The next step of a process; an event that is not its next step changes nothing. */
  function Continue(w: World, e: Event, phase: Phase): World
    requires !e.Restart?
  {
    match phase
    case Archiving(from) => if e.Archive? then (if e.ok then To(w, e.pid, Advancing(from)) else End(w, e.pid)) else w
    case Advancing(from) => if e.Advance? then DoAdvance(w, e.pid, from) else w
    case Resuming(thread) => if e.Resume? then DoResume(w, e.pid, thread, e.ok) else w
    case StartingPlain(expected) => if e.Start? then DoStart(w, e.pid, Replacing(expected, e.thread), e.thread) else w
    case StartingUpgrade => if e.Start? then DoStart(w, e.pid, Completing(e.thread), e.thread) else w
    case Replacing(expected, started) =>
      if e.Replace? then End(w.(row := SetThreadIfExpected(w.row, expected, started)), e.pid) else w
    case Completing(started) => if e.Complete? then DoComplete(w, e.pid, started) else w
    case ArchivingCurrent(current) =>
      if e.ArchiveCurrent? then (if e.ok then To(w, e.pid, Clearing(current)) else End(w, e.pid)) else w
    case Clearing(current) => if e.Clear? then End(w.(row := SetThreadIfExpected(w.row, current, "")), e.pid) else w
  }

  function After(w: World, events: seq<Event>): World {
    if events == [] then w else Step(After(w, events[..|events| - 1]), events[|events| - 1])
  }

  // ---------- the invariant ----------

  predicate StartedWith(tools: map<string, string>, thread: string, version: string) {
    thread in tools && tools[thread] == version
  }

  /** Outside an upgrade the stored version is that of the stored thread. */
  ghost predicate RowAgrees(row: Row, tools: map<string, string>) {
    row.state.Stable? && row.thread != "" ==> StartedWith(tools, row.thread, row.version)
  }

  /** A batch that passed the catalog check outside an upgrade works on a row that is up to date. */
  ghost predicate PhaseAgrees(w: World, phase: Phase) {
    match phase
    case Resuming(thread) => UpToDate(w) && StartedWith(w.tools, thread, w.target)
    case StartingPlain(_) => UpToDate(w)
    case Replacing(_, started) => UpToDate(w) && started != "" && StartedWith(w.tools, started, w.target)
    case Completing(started) => started != "" && StartedWith(w.tools, started, w.target)
    case _ => true
  }

  ghost predicate UpToDate(w: World) {
    w.row.state.Stable? && w.row.version == w.target
  }

  ghost predicate Resumptions(w: World) {
    forall i | 0 <= i < |w.resumed| :: StartedWith(w.tools, w.resumed[i].thread, w.resumed[i].target)
  }

  ghost predicate Publications(w: World) {
    && (forall i, j | 0 <= i < j < |w.published| :: w.published[i].upgrade < w.published[j].upgrade)
    && (forall i | 0 <= i < |w.published| ::
          if w.row.state.Stable? then w.published[i].upgrade <= w.upgrade else w.published[i].upgrade < w.upgrade)
  }

  ghost predicate Inv(w: World) {
    && RowAgrees(w.row, w.tools)
    && (forall pid | pid in w.procs :: PhaseAgrees(w, w.procs[pid]))
    && Resumptions(w) && Publications(w)
  }

  lemma StepKeepsInv(w: World, e: Event)
    requires Inv(w)
    ensures Inv(Step(w, e))
  {
    hide Continue, StartedWith;
    match e {
      case Prepare(pid) =>
      case NewSession(pid) =>
      case Restart(target) =>
      case Crash(pid) =>
      case _ =>
        if e.pid in w.procs {
          ContinueKeepsInv(w, e, w.procs[e.pid]);
        }
    }
  }

  lemma ContinueKeepsInv(w: World, e: Event, phase: Phase)
    requires Inv(w) && !e.Restart? && e.pid in w.procs && w.procs[e.pid] == phase
    ensures Inv(Continue(w, e, phase))
  {
    match phase {
      case Advancing(from) => AdvanceKeepsInv(w, e.pid, from);
      case Resuming(thread) => if e.Resume? { ResumeKeepsInv(w, e.pid, thread, e.ok); }
      case StartingPlain(expected) => if e.Start? { StartKeepsInv(w, e.pid, Replacing(expected, e.thread), e.thread); }
      case StartingUpgrade => if e.Start? { StartKeepsInv(w, e.pid, Completing(e.thread), e.thread); }
      case Replacing(expected, started) =>
      case Completing(started) => CompleteKeepsInv(w, e.pid, started);
      case _ =>
    }
  }

  lemma AdvanceKeepsInv(w: World, pid: nat, from: string)
    requires Inv(w) && pid in w.procs
    ensures Inv(DoAdvance(w, pid, from))
  {
    hide StartedWith;
  }

  lemma ResumeKeepsInv(w: World, pid: nat, thread: string, ok: bool)
    requires Inv(w) && pid in w.procs && w.procs[pid] == Resuming(thread)
    ensures Inv(DoResume(w, pid, thread, ok))
  {
    hide StartedWith;
    assert PhaseAgrees(w, Resuming(thread));
  }

  lemma StartKeepsInv(w: World, pid: nat, next: Phase, thread: string)
    requires Inv(w) && pid in w.procs
    requires next == Completing(thread) || (next.Replacing? && next.started == thread && w.procs[pid] == StartingPlain(next.expected))
    ensures Inv(DoStart(w, pid, next, thread))
  {
    assert PhaseAgrees(w, w.procs[pid]);
  }

  lemma CompleteKeepsInv(w: World, pid: nat, started: string)
    requires Inv(w) && pid in w.procs && w.procs[pid] == Completing(started)
    ensures Inv(DoComplete(w, pid, started))
  {
    hide StartedWith;
    assert PhaseAgrees(w, Completing(started));
  }

  /** A group as it is found at startup: nothing runs, and its thread is the one its version describes. */
  ghost predicate Initial(w: World) {
    w.procs == map[] && w.resumed == [] && w.published == [] && RowAgrees(w.row, w.tools)
  }

  lemma {:induction false} AfterIsInv(w: World, events: seq<Event>)
    requires Initial(w)
    ensures Inv(After(w, events))
  {
    hide Step;
    if events != [] {
      AfterIsInv(w, events[..|events| - 1]);
      hide Inv;
      StepKeepsInv(After(w, events[..|events| - 1]), events[|events| - 1]);
    }
  }

  /** A process whose archive call is refused, or whose conditional update meets a changed row, ends and changes nothing. */
  lemma LosersEnd(w: World, pid: nat, e: Event)
    requires pid in w.procs && !e.Restart? && e.pid == pid
    ensures var phase, next := w.procs[pid], Step(w, e);
            || (e.Archive? && phase.Archiving? && !e.ok) || (e.ArchiveCurrent? && phase.ArchivingCurrent? && !e.ok)
            || (e.Advance? && phase.Advancing? && !(w.row.state.ArchivePending? && w.row.fromThread == phase.from))
            || (e.Complete? && phase.Completing? && !(w.row.state.StartPending? && w.row.upgradeTarget == w.target))
            || (e.Replace? && phase.Replacing? && w.row.thread != phase.expected)
            || (e.Clear? && phase.Clearing? && w.row.thread != phase.current)
            ==> next == w.(procs := w.procs - {pid})
  {
  }

  // ---------- every run ----------

  /** A thread is resumed only if it was started with the tools of the target it is resumed for. */
  lemma ResumedThreadsHaveTheTools(w: World, events: seq<Event>, i: nat)
    requires Initial(w) && i < |After(w, events).resumed|
    ensures var now := After(w, events);
            var r := now.resumed[i];
            r.thread in now.tools && now.tools[r.thread] == r.target
  {
    AfterIsInv(w, events);
  }

  /** Each upgrade publishes at most one thread, however many processes work on it. */
  lemma UpgradesPublishOnce(w: World, events: seq<Event>, i: nat, j: nat)
    requires Initial(w) && i < j < |After(w, events).published|
    ensures After(w, events).published[i].upgrade != After(w, events).published[j].upgrade
  {
    AfterIsInv(w, events);
  }

  /** The upgrade belongs to another target than the one that runs now. */
  ghost predicate Stranded(w: World) {
    !w.row.state.Stable? && w.row.upgradeTarget != w.target
  }

  /** Between restarts a stranded upgrade is never completed, and nothing is resumed or published. */
  lemma {:induction false} StrandedUpgradesStay(w: World, events: seq<Event>)
    requires Inv(w) && Stranded(w) && forall i | 0 <= i < |events| :: !events[i].Restart?
    ensures var now := After(w, events);
            Inv(now) && Stranded(now) && now.resumed == w.resumed && now.published == w.published
  {
    hide Step, Inv;
    if events != [] {
      StrandedUpgradesStay(w, events[..|events| - 1]);
      StrandedStep(After(w, events[..|events| - 1]), events[|events| - 1]);
    }
  }

  lemma StrandedStep(w: World, e: Event)
    requires Inv(w) && Stranded(w) && !e.Restart?
    ensures var now := Step(w, e);
            Inv(now) && Stranded(now) && now.resumed == w.resumed && now.published == w.published
  {
    StepKeepsInv(w, e);
    hide StartedWith;
    if !e.Prepare? && !e.NewSession? && !e.Crash? && e.pid in w.procs {
      assert PhaseAgrees(w, w.procs[e.pid]);
    }
  }

  lemma AfterSnoc(w: World, events: seq<Event>, e: Event)
    ensures After(w, events + [e]) == Step(After(w, events), e)
  {
    assert (events + [e])[..|events|] == events;
  }

  lemma ResumingHasTools(w: World, pid: nat)
    requires Inv(w) && pid in w.procs && w.procs[pid].Resuming?
    ensures StartedWith(w.tools, w.procs[pid].thread, w.target)
  {
    assert PhaseAgrees(w, w.procs[pid]);
  }

  lemma PlainIsUpToDate(w: World, pid: nat)
    requires Inv(w) && pid in w.procs && w.procs[pid].StartingPlain?
    ensures UpToDate(w)
  {
    assert PhaseAgrees(w, w.procs[pid]);
  }

  // ---------- the store and the processor ----------

  /** The conditional updates of a chat group's row. */
  class ChatGroupStore {
    var row: Row

    constructor (row: Row)
      ensures this.row == row
    {
      this.row := row;
    }

    method PrepareCatalogUpgrade(target: string) returns (state: Row)
      modifies this
      ensures row == PrepareRow(old(row), target) && state == row
      ensures row == if old(row).state.Stable? && old(row).version != target
                     then Row(old(row).thread, old(row).version, ArchivePending, old(row).thread, target) else old(row)
    {
      if row.state.Stable? && row.version != target {
        row := row.(state := ArchivePending, fromThread := row.thread, upgradeTarget := target);
      }
      state := row;
    }

    method AdvanceCatalogUpgradeAfterArchive(archived: string) returns (changed: bool)
      modifies this
      ensures row == AdvanceRow(old(row), archived)
      ensures changed == (old(row).state.ArchivePending? && old(row).fromThread == archived)
      ensures row == if changed then old(row).(thread := "", state := StartPending) else old(row)
    {
      changed := row.state.ArchivePending? && row.fromThread == archived;
      if changed {
        row := row.(thread := "", state := StartPending);
      }
    }

    method CompleteCatalogUpgrade(target: string, thread: string) returns (changed: bool)
      modifies this
      ensures row == CompleteRow(old(row), target, thread)
      ensures changed == (old(row).state.StartPending? && old(row).upgradeTarget == target)
      ensures row == if changed then Row(thread, target, Stable, "", "") else old(row)
    {
      changed := row.state.StartPending? && row.upgradeTarget == target;
      if changed {
        row := Row(thread, target, Stable, "", "");
      }
    }

    method SwapThread(expected: string, replacement: string) returns (changed: bool)
      modifies this
      ensures row == SetThreadIfExpected(old(row), expected, replacement)
      ensures changed == (old(row).thread == expected)
      ensures row == if changed then old(row).(thread := replacement) else old(row)
    {
      changed := row.thread == expected;
      if changed {
        row := row.(thread := replacement);
      }
    }
  }

  /** What a batch has done to everything but its own process. */
  ghost predicate Leaves(before: World, after: World, row: Row, tools: map<string, string>, resumed: seq<Resumption>,
                         published: seq<Publication>)
  {
    && after.row == row && after.tools == tools && after.target == before.target
    && after.resumed == before.resumed + resumed && after.published == before.published + published
  }

  /** An upgrade begins, under a new number, when an outdated row is found that no upgrade works on. */
  function Begins(w: World): nat {
    if w.row.state.Stable? && w.row.version != w.target then 1 else 0
  }

  /** What the check of the catalog does before the batch gets a thread; it fails exactly when the server refuses to archive. */
  ghost predicate Prepared(before: World, after: World, archived: bool, ok: bool) {
    var row, target := before.row, before.target;
    var source := if row.state.Stable? then row.thread else if row.state.ArchivePending? then row.fromThread else "";
    var goal := if row.state.Stable? then target else row.upgradeTarget;
    if row.state.StartPending? || (row.state.Stable? && row.version == target)
    then ok && Leaves(before, after, row, before.tools, [], [])
    else && (ok <==> source == "" || archived)
         && Leaves(before, after, if ok then Row("", row.version, StartPending, source, goal)
                                  else Row(row.thread, row.version, ArchivePending, source, goal), before.tools, [], [])
  }

  /**
   One batch alone, by the row it finds. An up-to-date thread is resumed if the server agrees, and replaced by a new
   thread otherwise. An outdated one is archived first, and a new thread is published with the target it was meant for.
   */
  ghost predicate BatchDone(before: World, after: World, answers: Answers, result: Processed) {
    var row, target, n := before.row, before.target, answers.started;
    var tools := if n == "" then before.tools else before.tools[n := target];
    if row.state.Stable? && row.version == target then
      if row.thread != "" && answers.resumed
      then result == Resumed(row.thread) && Leaves(before, after, row, before.tools, [Resumption(row.thread, target)], [])
      else if n == "" then result.Failed? && Leaves(before, after, row, tools, [], [])
      else result == Started(n) && Leaves(before, after, row.(thread := n), tools, [], [])
    else
      var source := if row.state.Stable? then row.thread else if row.state.ArchivePending? then row.fromThread else "";
      var goal := if row.state.Stable? then target else row.upgradeTarget;
      var ready := if row.state.StartPending? then row else Row("", row.version, StartPending, source, goal);
      if source != "" && !answers.archived
      then result.Failed? && Leaves(before, after, Row(row.thread, row.version, ArchivePending, source, goal), before.tools, [], [])
      else if n == "" then result.Failed? && Leaves(before, after, ready, tools, [], [])
      else if goal != target then result.Failed? && Leaves(before, after, ready, tools, [], [])
      else result == Started(n)
           && Leaves(before, after, Row(n, target, Stable, "", ""), tools, [], [Publication(after.upgrade, n)])
  }

  lemma SessionSteps(w: World, pid: nat, archived: bool)
    requires pid !in w.procs && w.row.thread != ""
    ensures var a := Step(w, NewSession(pid));
            var b := Step(a, ArchiveCurrent(pid, archived));
            && Leaves(w, a, w.row, w.tools, [], []) && Leaves(w, b, w.row, w.tools, [], [])
            && (archived ==> Leaves(w, Step(b, Clear(pid)), w.row.(thread := ""), w.tools, [], []))
  {
  }

  datatype Processed = Resumed(thread: string) | Started(thread: string) | Failed

  /** What the server answers to the calls of one batch; an empty thread stands for a failed start. */
  datatype Answers = Answers(archived: bool, resumed: bool, started: string)

  class Processor {
    const store: ChatGroupStore
    const target: string
    ghost var world: World

    ghost predicate Valid()
      reads this, store
    {
      Inv(world) && world.row == store.row && world.target == target
    }

    constructor (store: ChatGroupStore, target: string, ghost world: World)
      requires Inv(world) && world.row == store.row && world.target == target
      ensures Valid() && this.store == store && this.target == target && this.world == world
    {
      this.store, this.target, this.world := store, target, world;
    }

    /** One step of process `pid`, after the statement it stands for has been executed. */
    ghost method Take(events: seq<Event>, e: Event, start: World) returns (taken: seq<Event>)
      requires Inv(world) && world == After(start, events)
      modifies this
      ensures world == Step(old(world), e) && Inv(world)
      ensures taken == events + [e] && world == After(start, taken)
    {
      hide Inv, Step;
      StepKeepsInv(world, e);
      AfterSnoc(start, events, e);
      world := Step(world, e);
      taken := events + [e];
    }

    /** `/new` alone: archives the current thread and clears it from the row, so that the next batch starts another one. */
    method ArchiveCurrentThread(ghost pid: nat, archived: bool) returns (ok: bool, ghost events: seq<Event>)
      requires Valid() && pid !in world.procs
      modifies this, store
      ensures Valid() && world == After(old(world), events)
      ensures ok <==> old(store.row).thread == "" || archived
      ensures Leaves(old(world), world, if ok then old(store.row).(thread := "") else old(store.row), old(world).tools, [], [])
    {
      hide Inv;
      events := [];
      ghost var start := world;
      assert world == After(start, events);
      hide After;
      var current := store.row.thread;
      if current == "" {
        return true, events;
      }
      SessionSteps(start, pid, archived);
      hide Step;
      events := Take(events, NewSession(pid), start);
      events := Take(events, ArchiveCurrent(pid, archived), start);
      if !archived {
        return false, events;
      }
      ok := store.SwapThread(current, "");
      events := Take(events, Clear(pid), start);
    }

    method EnsureToolCatalog(ghost pid: nat, archived: bool)
      returns (ok: bool, thread: string, startUpgrade: bool, ghost events: seq<Event>)
      requires Valid() && pid !in world.procs
      modifies this, store
      ensures Valid() && world == After(old(world), events)
      ensures ok ==> startUpgrade == !(old(store.row).state.Stable? && old(store.row).version == target)
      ensures Prepared(old(world), world, archived, ok)
      ensures world.upgrade == old(world).upgrade + Begins(old(world))
      ensures ok && !startUpgrade ==>
                && thread == store.row.thread && pid in world.procs
                && world.procs[pid] == if thread == "" then StartingPlain("") else Resuming(thread)
      ensures ok && startUpgrade ==> pid in world.procs && world.procs[pid] == StartingUpgrade
    {
      hide Inv;
      events := [];
      ghost var start := world;
      assert world == After(start, events);
      hide After;
      var state := store.PrepareCatalogUpgrade(target);
      events := Take(events, Prepare(pid), start);
      match state.state {
        case Stable => return true, state.thread, false, events;
        case StartPending => return true, "", true, events;
        case ArchivePending =>
          ok, events := ArchiveOutdated(pid, state.fromThread, archived, start, events);
          return ok, "", true, events;
      }
    }

    method ArchiveOutdated(ghost pid: nat, from: string, archived: bool, ghost start: World, ghost before: seq<Event>)
      returns (ok: bool, ghost events: seq<Event>)
      requires Valid() && world == After(start, before) && store.row.state.ArchivePending? && store.row.fromThread == from
      requires pid in world.procs && world.procs[pid] == NextPhase(store.row)
      modifies this, store
      ensures Valid() && world == After(start, events)
      ensures (ok <==> from == "" || archived) && world.upgrade == old(world).upgrade
      ensures Leaves(old(world), world, if ok then old(store.row).(thread := "", state := StartPending) else old(store.row),
                     old(world).tools, [], [])
      ensures ok ==> pid in world.procs && world.procs[pid] == StartingUpgrade
    {
      hide Inv, After;
      events := before;
      if from != "" {
        events := Take(events, Archive(pid, archived), start);
        if !archived {
          return false, events;
        }
      }
      ok := store.AdvanceCatalogUpgradeAfterArchive(from);
      events := Take(events, Advance(pid), start);
    }

    /**
     One undisturbed batch. Its statements and calls are steps of the interleaved machine. When the server does its
     part, the batch gets a thread unless it meets an upgrade to another target.
     */
    method Process(ghost pid: nat, answers: Answers) returns (result: Processed, ghost events: seq<Event>)
      requires Valid() && pid !in world.procs && answers.started !in world.tools
      modifies this, store
      ensures Valid() && world == After(old(world), events)
      ensures BatchDone(old(world), world, answers, result) && world.upgrade == old(world).upgrade + Begins(old(world))
      ensures result.Resumed? ==> result.thread in world.tools && world.tools[result.thread] == target
      ensures answers.archived && answers.started != "" ==> (result.Failed? <==> Stranded(old(world)))
    {
      hide Inv, StartedWith, After;
      ghost var start := world;
      var ok, thread, startUpgrade;
      ok, thread, startUpgrade, events := EnsureToolCatalog(pid, answers.archived);
      if !ok {
        return Failed, events;
      }
      if thread != "" && !startUpgrade {
        ResumingHasTools(world, pid);
        events := Take(events, Resume(pid, answers.resumed), start);
        if answers.resumed {
          return Resumed(thread), events;
        }
      }
      result, events := StartThread(pid, answers.started, thread, startUpgrade, start, events);
    }

    /** Starts a thread with the target's tools and puts it into the row. */
    method StartThread(ghost pid: nat, started: string, expected: string, startUpgrade: bool,
                       ghost start: World, ghost before: seq<Event>)
      returns (result: Processed, ghost events: seq<Event>)
      requires Valid() && world == After(start, before) && started !in world.tools && pid in world.procs
      requires world.procs[pid] == if startUpgrade then StartingUpgrade else StartingPlain(expected)
      modifies this, store
      ensures Valid() && world == After(start, events)
      ensures var row := old(store.row);
              var tools := if started == "" then old(world).tools else old(world).tools[started := target];
              var fits := if startUpgrade then row.state.StartPending? && row.upgradeTarget == target else row.thread == expected;
              world.upgrade == old(world).upgrade && if started == "" || !fits then result.Failed? && Leaves(old(world), world, row, tools, [], [])
              else && result == Started(started)
                   && if startUpgrade
                      then Leaves(old(world), world, Row(started, target, Stable, "", ""), tools, [],
                                  [Publication(world.upgrade, started)])
                      else Leaves(old(world), world, row.(thread := started), tools, [], [])
    {
      hide Inv, StartedWith, After;
      events := before;
      if started == "" {
        return Failed, events;
      }
      if !startUpgrade {
        PlainIsUpToDate(world, pid);
      }
      events := Take(events, Start(pid, started), start);
      var changed;
      if startUpgrade {
        changed := store.CompleteCatalogUpgrade(target, started);
        events := Take(events, Complete(pid), start);
      } else {
        changed := store.SwapThread(expected, started);
        events := Take(events, Replace(pid), start);
      }
      result := if changed then Started(started) else Failed;
    }
  }

  /**
   A group on its way to target "a" is stranded by a restart with target "b": the next batch does all its server calls
   successfully and still fails.
   */
  method RestartStrandsTheGroup() returns (result: Processed, ghost start: World, ghost events: seq<Event>, ghost end: World)
    ensures Initial(start) && start.row.state.Stable? && start.target == "a"
    ensures events == [Prepare(0), Restart("b")] && Stranded(After(start, events))
    ensures result.Failed? && BatchDone(After(start, events), end, Answers(true, true, "n"), result)
  {
    var row := Row("t", "old", Stable, "", "");
    start := World(row, "a", map["t" := "old"], map[], 0, [], []);
    events := [Prepare(0), Restart("b")];
    StrandedAfter(start);
    AfterIsInv(start, events);
    hide Inv, After;
    var store := new ChatGroupStore(row);
    var state := store.PrepareCatalogUpgrade("a");
    var processor := new Processor(store, "b", After(start, events));
    ghost var taken;
    result, taken := processor.Process(1, Answers(true, true, "n"));
    end := processor.world;
  }

  lemma StrandedAfter(w: World)
    requires w.row == Row("t", "old", Stable, "", "") && w.target == "a" && w.procs == map[] && w.tools == map["t" := "old"]
    ensures var s := After(w, [Prepare(0), Restart("b")]);
            && Stranded(s) && s.row == PrepareRow(w.row, "a") && s.target == "b" && s.procs == map[] && s.tools == w.tools
  {
    AfterSnoc(w, [], Prepare(0));
    AfterSnoc(w, [Prepare(0)], Restart("b"));
    assert [] + [Prepare(0)] == [Prepare(0)] && [Prepare(0)] + [Restart("b")] == [Prepare(0), Restart("b")];
  }
}
