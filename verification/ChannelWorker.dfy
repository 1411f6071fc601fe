/**
 The worker of one conversation: a bounded FIFO queue, greedy batches, and controls (`/new`, `/cancel`) that
 raise a barrier, empty the queue and run behind the active batch. Each lock-protected section is one step, and
 the steps of ingress, controls, the run loop, timers and shutdown interleave freely.
 */
module ChannelWorker {
  import opened Common

  // ---------- data ----------

  datatype Message = Message(id: string, actor: string, goal: bool, scheduledRunId: string, hasRequiredAttachment: bool)

  /** Goals, scheduled prompts and messages with attachments are batches of their own. */
  predicate Exclusive(m: Message) {
    m.goal || m.scheduledRunId != "" || m.hasRequiredAttachment
  }

  datatype Control = Control(id: nat)

  datatype State = Idle | CreatingCard | InProcess | Stopping | Stopped

  /** Where the run loop stands: about to look for a control, about to look for a batch, or busy with one. */
  datatype Loop = LookForControl | LookForBatch | RunningControl | RunningBatch

  datatype Cause = ByControl | ByTimeout | ByShutdown

  /**
   History over acceptance numbers: messages `lo..hi` left the queue as a batch, when `seen` messages had been
   accepted, or were dropped together.
   */
  datatype Entry = Batch(lo: nat, hi: nat, seen: nat) | Drop(lo: nat, hi: nat, cause: Cause)

  datatype Worker = Worker(
    queue: seq<Message>, controls: seq<Control>, barrier: bool, processing: bool, state: State, loop: Loop,
    past: seq<Message>, log: seq<Entry>, submitted: seq<Control>, taken: seq<Control>)
  {
    /** All messages ever accepted, by acceptance number: those that left the queue, then the queue. */
    function Accepted(): seq<Message> {
      past + queue
    }
  }

  function Head(log: seq<Entry>): nat {
    if log == [] then 0 else log[|log| - 1].hi
  }

  // ---------- batching ----------

  /**
   Of the messages `lo..seen`, `lo..hi` form the next batch: one exclusive message, or all leading ordinary ones
   of one actor.
   */
  ghost predicate IsBatchAt(all: seq<Message>, lo: nat, hi: nat, seen: nat) {
    && lo < hi <= seen <= |all|
    && (Exclusive(all[lo]) ==> hi == lo + 1)
    && (!Exclusive(all[lo]) ==>
          && (forall i | lo <= i < hi :: !Exclusive(all[i]) && all[i].actor == all[lo].actor)
          && (hi < seen ==> Exclusive(all[hi]) || all[hi].actor != all[lo].actor))
  }

  ghost predicate IsBatch(q: seq<Message>, n: nat) {
    IsBatchAt(q, 0, n, |q|)
  }

  function LeadingOrdinary(q: seq<Message>, actor: string): (n: nat)
    ensures n <= |q|
  {
    if q == [] || Exclusive(q[0]) || q[0].actor != actor then 0 else 1 + LeadingOrdinary(q[1..], actor)
  }

  function BatchSize(q: seq<Message>): (n: nat)
    requires q != []
    ensures 0 < n <= |q|
  {
    if Exclusive(q[0]) then 1 else LeadingOrdinary(q, q[0].actor)
  }

  lemma {:induction false} LeadingOrdinaryIsMaximal(q: seq<Message>, actor: string)
    ensures var n := LeadingOrdinary(q, actor);
            && n <= |q| && (forall i | 0 <= i < n :: !Exclusive(q[i]) && q[i].actor == actor)
            && (n < |q| ==> Exclusive(q[n]) || q[n].actor != actor)
  {
    if q != [] && !Exclusive(q[0]) && q[0].actor == actor {
      LeadingOrdinaryIsMaximal(q[1..], actor);
    }
  }

  lemma BatchSizeIsBatch(q: seq<Message>)
    requires q != []
    ensures IsBatch(q, BatchSize(q))
    ensures forall n | IsBatch(q, n) :: n == BatchSize(q)
  {
    LeadingOrdinaryIsMaximal(q, q[0].actor);
  }

  // ---------- the steps ----------

  datatype Enqueued = Accepted | Refused(reason: Refusal)

  datatype Refusal = IsStopping | ControlInProgress | QueueFull

  predicate Closed(w: Worker) {
    w.state.Stopping? || w.state.Stopped?
  }

  function EnqueueResult(w: Worker, depth: nat): Enqueued {
    if Closed(w) then Refused(IsStopping)
    else if w.barrier then Refused(ControlInProgress)
    else if |w.queue| >= depth then Refused(QueueFull)
    else Accepted
  }

  function Enqueue(w: Worker, m: Message, depth: nat): Worker {
    if EnqueueResult(w, depth).Accepted? then w.(queue := w.queue + [m]) else w
  }

  function DropQueue(w: Worker, cause: Cause): Worker {
    w.(queue := [], past := w.Accepted(), log := w.log + [Drop(Head(w.log), |w.Accepted()|, cause)])
  }

  function SubmitControl(w: Worker, c: Control): Worker {
    if Closed(w) then w
    else DropQueue(w, ByControl).(barrier := true, controls := w.controls + [c], submitted := w.submitted + [c])
  }

  function NextControl(w: Worker): Worker {
    if w.processing || w.controls == [] then w.(loop := LookForBatch)
    else w.(controls := w.controls[1..], taken := w.taken + [w.controls[0]], loop := RunningControl)
  }

  function EndControl(w: Worker): Worker {
    w.(barrier := if w.controls == [] then false else w.barrier, loop := LookForControl)
  }

  function NextBatch(w: Worker): Worker {
    if w.processing || w.queue == [] then w.(loop := LookForControl)
    else
      var n, head := BatchSize(w.queue), Head(w.log);
      w.(queue := w.queue[n..], past := w.past + w.queue[..n], processing := true, state := CreatingCard,
         loop := RunningBatch, log := w.log + [Batch(head, head + n, |w.Accepted()|)])
  }

  function EndBatch(w: Worker, timedOut: bool): Worker {
    if timedOut then DropQueue(w, ByTimeout).(processing := false, state := Stopped, loop := LookForControl)
    else w.(processing := false, state := Idle, loop := LookForControl)
  }

  function IdleRecycle(w: Worker, expired: bool): Worker {
    if w.state.Idle? && !w.processing && w.queue == [] && expired then w.(state := Stopped) else w
  }

  datatype Event =
    | Arrive(m: Message)
    | Submit(c: Control)
    | Shutdown
    | PollControl
    | ControlDone
    | PollBatch
    | CardCreated
    | DeadlinePassed
    | BatchDone(timedOut: bool)
    | IdleTimer(expired: bool)

  /** One step; the run loop's own events happen only where its program stands. */
  function Step(w: Worker, e: Event, depth: nat): Worker {
    match e
    case Arrive(m) => Enqueue(w, m, depth)
    case Submit(c) => SubmitControl(w, c)
    case Shutdown => DropQueue(w, ByShutdown)
    case PollControl => if w.loop.LookForControl? then NextControl(w) else w
    case ControlDone => if w.loop.RunningControl? then EndControl(w) else w
    case PollBatch => if w.loop.LookForBatch? then NextBatch(w) else w
    case CardCreated => if w.loop.RunningBatch? then w.(state := InProcess) else w
    case DeadlinePassed => if w.loop.RunningBatch? then w.(state := Stopping) else w
    case BatchDone(timedOut) => if w.loop.RunningBatch? then EndBatch(w, timedOut) else w
    case IdleTimer(expired) => IdleRecycle(w, expired)
  }

  const NEW := Worker([], [], false, false, Idle, LookForControl, [], [], [], [])

  function After(w: Worker, events: seq<Event>, depth: nat): Worker {
    if events == [] then w else Step(After(w, events[..|events| - 1], depth), events[|events| - 1], depth)
  }

  /** A history is its events, one after the other. */
  lemma EventsFollow(w: Worker, events: seq<Event>, e: Event, depth: nat)
    ensures After(w, [], depth) == w && After(w, events + [e], depth) == Step(After(w, events, depth), e, depth)
  {
    assert (events + [e])[..|events|] == events;
  }

  // ---------- the object ----------

  /** The whole queue has left, as one drop that follows what left before. */
  function Emptied(w: Worker, cause: Cause): Worker {
    w.(queue := [], past := w.past + w.queue, log := w.log + [Drop(Head(w.log), |w.past| + |w.queue|, cause)])
  }

  class Channel {
    const depth: nat
    var queue: seq<Message>
    var controls: seq<Control>
    var barrier: bool
    var processing: bool
    var state: State
    ghost var loop: Loop
    ghost var past: seq<Message>
    ghost var log: seq<Entry>
    ghost var submitted: seq<Control>
    ghost var taken: seq<Control>

    ghost function View(): Worker
      reads this
    {
      Worker(queue, controls, barrier, processing, state, loop, past, log, submitted, taken)
    }

    constructor (depth: nat)
      ensures this.depth == depth && View() == NEW
    {
      this.depth := depth;
      queue, controls, barrier, processing, state := [], [], false, false, Idle;
      loop, past, log, submitted, taken := LookForControl, [], [], [], [];
    }

    method EnqueueMessage(m: Message) returns (r: Enqueued)
      modifies this
      ensures View() == Step(old(View()), Arrive(m), depth)
      ensures r == if state in {Stopping, Stopped} then Refused(IsStopping)
                   else if barrier then Refused(ControlInProgress)
                   else if |old(queue)| >= depth then Refused(QueueFull)
                   else Accepted
      ensures View() == if r.Accepted? then old(View()).(queue := old(queue) + [m]) else old(View())
    {
      if state.Stopping? || state.Stopped? { return Refused(IsStopping); }
      if barrier { return Refused(ControlInProgress); }
      if |queue| >= depth { return Refused(QueueFull); }
      queue := queue + [m];
      return Accepted;
    }

    /** Hands back the detached messages, which the caller persists as cancelled. */
    method SubmitChannelControl(c: Control) returns (ok: bool, pending: seq<Message>)
      modifies this
      ensures View() == Step(old(View()), Submit(c), depth)
      ensures ok == (state !in {Stopping, Stopped}) && pending == if ok then old(queue) else []
      ensures View() == if ok then Emptied(old(View()), ByControl).(
                                     barrier := true, controls := old(controls) + [c], submitted := old(submitted) + [c])
                        else old(View())
    {
      if state.Stopping? || state.Stopped? { return false, []; }
      pending := queue;
      past, log := past + queue, log + [Drop(Head(log), |past + queue|, ByControl)];
      queue, barrier, controls, submitted := [], true, controls + [c], submitted + [c];
      return true, pending;
    }

    method DiscardQueuedForShutdown() returns (pending: seq<Message>)
      modifies this
      ensures View() == Step(old(View()), Shutdown, depth)
      ensures pending == old(queue) && View() == Emptied(old(View()), ByShutdown)
    {
      pending := queue;
      past, log := past + queue, log + [Drop(Head(log), |past + queue|, ByShutdown)];
      queue := [];
    }

    method TakeControl() returns (c: Option<Control>)
      requires loop.LookForControl?
      modifies this
      ensures View() == Step(old(View()), PollControl, depth)
      ensures c.Some? <==> !processing && old(controls) != []
      ensures View() == if c.None? then old(View()).(loop := LookForBatch)
                        else old(View()).(controls := controls, taken := old(taken) + [c.value], loop := RunningControl)
      ensures old(controls) == (if c.Some? then [c.value] else []) + controls
    {
      if processing || |controls| == 0 {
        loop := LookForBatch;
        return None;
      }
      c := Some(controls[0]);
      controls, taken, loop := controls[1..], taken + [c.value], RunningControl;
    }

    method FinishControl()
      requires loop.RunningControl?
      modifies this
      ensures View() == Step(old(View()), ControlDone, depth)
      ensures View() == old(View()).(barrier := old(barrier) && controls != [], loop := LookForControl)
    {
      if |controls| == 0 { barrier := false; }
      loop := LookForControl;
    }

    /** The scan over the queue that decides how many messages the next batch takes. */
    method ScanBatch() returns (batchSize: nat)
      requires queue != []
      ensures batchSize == BatchSize(queue) && IsBatch(queue, batchSize)
    {
      BatchSizeIsBatch(queue);
      batchSize := |queue|;
      for index := 0 to |queue|
        invariant batchSize == |queue|
        invariant index > 0 ==> !Exclusive(queue[0])
        invariant forall i | 0 <= i < index :: !Exclusive(queue[i]) && queue[i].actor == queue[0].actor
      {
        var message := queue[index];
        if index > 0 && message.actor != queue[0].actor {
          return index;
        }
        if message.goal {
          return if index == 0 then 1 else index;
        }
        if message.scheduledRunId != "" {
          return if index == 0 then 1 else index;
        }
        if !message.hasRequiredAttachment {
          continue;
        }
        return if index == 0 then 1 else index;
      }
    }

    method TakeBatch() returns (messages: seq<Message>)
      requires loop.LookForBatch?
      modifies this
      ensures View() == Step(old(View()), PollBatch, depth)
      ensures messages != [] <==> !old(processing) && old(queue) != []
      ensures messages == [] ==> View() == old(View()).(loop := LookForControl)
      ensures messages != [] ==>
                && messages + queue == old(queue) && IsBatch(old(queue), |messages|)
                && View() == old(View()).(
                     queue := queue, past := old(past) + messages, processing := true, state := CreatingCard, loop := RunningBatch,
                     log := old(log) + [Batch(Head(old(log)), Head(old(log)) + |messages|, |old(past) + old(queue)|)])
    {
      if processing || |queue| == 0 {
        loop := LookForControl;
        return [];
      }
      var batchSize := ScanBatch();
      messages := queue[..batchSize];
      past, log := past + messages, log + [Batch(Head(log), Head(log) + batchSize, |past + queue|)];
      queue, processing, state, loop := queue[batchSize..], true, CreatingCard, RunningBatch;
    }

    method FinishBatch(timedOut: bool) returns (pending: seq<Message>)
      requires loop.RunningBatch?
      modifies this
      ensures View() == Step(old(View()), BatchDone(timedOut), depth)
      ensures pending == if timedOut then old(queue) else []
      ensures View() == if timedOut
                        then Emptied(old(View()), ByTimeout).(processing := false, state := Stopped, loop := LookForControl)
                        else old(View()).(processing := false, state := Idle, loop := LookForControl)
      ensures timedOut ==> state.Stopped? && queue == []
    {
      processing, loop := false, LookForControl;
      if timedOut {
        state, pending := Stopped, queue;
        past, log := past + queue, log + [Drop(Head(log), |past + queue|, ByTimeout)];
        queue := [];
        return pending;
      }
      state := Idle;
      return [];
    }

    method MarkInProcess()
      requires loop.RunningBatch?
      modifies this
      ensures View() == Step(old(View()), CardCreated, depth)
      ensures View() == old(View()).(state := InProcess)
    {
      state := InProcess;
    }

    /** The deadline of the batch has passed; what is running is waited for. */
    method MarkStopping()
      requires loop.RunningBatch?
      modifies this
      ensures View() == Step(old(View()), DeadlinePassed, depth)
      ensures View() == old(View()).(state := Stopping)
    {
      state := Stopping;
    }

    method RecycleWhenIdle(expired: bool) returns (eligible: bool)
      modifies this
      ensures View() == Step(old(View()), IdleTimer(expired), depth)
      ensures eligible == (old(state).Idle? && !processing && queue == [] && expired)
      ensures View() == if eligible then old(View()).(state := Stopped) else old(View())
    {
      eligible := state.Idle? && !processing && |queue| == 0 && expired;
      if eligible { state := Stopped; }
    }
  }

  // ---------- the invariant ----------

  /** The history entries tile the acceptance numbers that have left the queue, in order. */
  ghost predicate Tiled(log: seq<Entry>) {
    log != [] ==>
      && Tiled(log[..|log| - 1])
      && log[|log| - 1].lo == Head(log[..|log| - 1]) <= log[|log| - 1].hi
  }

  ghost predicate BatchesOk(log: seq<Entry>, accepted: seq<Message>) {
    forall k | 0 <= k < |log| && log[k].Batch? :: IsBatchAt(accepted, log[k].lo, log[k].hi, log[k].seen)
  }

  ghost predicate HistoryOk(w: Worker) {
    && Tiled(w.log) && Head(w.log) == |w.past|
    && BatchesOk(w.log, w.Accepted())
    && w.submitted == w.taken + w.controls
  }

  ghost predicate BarrierOk(w: Worker) {
    && (w.barrier <==> w.controls != [] || w.loop.RunningControl?)
    && (w.barrier ==> w.queue == [])
  }

  ghost predicate StateOk(w: Worker, depth: nat) {
    && (w.processing <==> w.loop.RunningBatch?)
    && (w.processing <==> w.state.CreatingCard? || w.state.InProcess? || w.state.Stopping?)
    && (w.state.Stopped? ==> w.queue == [])
    && |w.queue| <= depth
  }

  ghost predicate Inv(w: Worker, depth: nat) {
    HistoryOk(w) && BarrierOk(w) && StateOk(w, depth)
  }

  lemma TileSnoc(log: seq<Entry>, e: Entry)
    requires Tiled(log) && e.lo == Head(log) && e.lo <= e.hi
    ensures Tiled(log + [e]) && Head(log + [e]) == e.hi
  {
    assert (log + [e])[..|log + [e]| - 1] == log;
  }

  lemma DropKeepsHistory(w: Worker, cause: Cause)
    requires HistoryOk(w)
    ensures HistoryOk(DropQueue(w, cause))
  {
    TileSnoc(w.log, Drop(Head(w.log), |w.Accepted()|, cause));
  }

  lemma BatchKeepsHistory(w: Worker)
    requires HistoryOk(w) && !w.processing && w.queue != []
    ensures HistoryOk(NextBatch(w))
  {
    var n, head := BatchSize(w.queue), Head(w.log);
    TileSnoc(w.log, Batch(head, head + n, |w.Accepted()|));
    assert w.past + w.queue[..n] + w.queue[n..] == w.Accepted();
    BatchEntry(w);
  }

  lemma BatchEntry(w: Worker)
    requires HistoryOk(w) && w.queue != []
    ensures BatchesOk(w.log + [Batch(Head(w.log), Head(w.log) + BatchSize(w.queue), |w.Accepted()|)], w.Accepted())
  {
    BatchSizeIsBatch(w.queue);
  }

  lemma ArrivalKeepsHistory(w: Worker, m: Message)
    requires HistoryOk(w)
    ensures HistoryOk(w.(queue := w.queue + [m]))
  {
    assert w.past + (w.queue + [m]) == w.Accepted() + [m];
  }

  lemma EnqueueKeepsHistory(w: Worker, m: Message, depth: nat)
    requires HistoryOk(w)
    ensures HistoryOk(Enqueue(w, m, depth))
  {
    hide HistoryOk;
    ArrivalKeepsHistory(w, m);
  }

  lemma SubmitKeepsHistory(w: Worker, c: Control)
    requires HistoryOk(w)
    ensures HistoryOk(SubmitControl(w, c))
  {
    DropKeepsHistory(w, ByControl);
    hide Tiled, BatchesOk;
  }

  lemma ControlKeepsHistory(w: Worker)
    requires HistoryOk(w)
    ensures HistoryOk(NextControl(w)) && HistoryOk(EndControl(w))
  {
    hide Tiled, BatchesOk;
    if w.controls != [] {
      assert w.taken + [w.controls[0]] + w.controls[1..] == w.taken + w.controls;
    }
  }

  lemma EndKeepsHistory(w: Worker, timedOut: bool)
    requires HistoryOk(w)
    ensures HistoryOk(EndBatch(w, timedOut))
  {
    DropKeepsHistory(w, ByTimeout);
    hide Tiled, BatchesOk;
  }

  lemma PollKeepsHistory(w: Worker)
    requires HistoryOk(w)
    ensures HistoryOk(NextBatch(w))
  {
    if !w.processing && w.queue != [] {
      BatchKeepsHistory(w);
    }
  }

  lemma StateKeepsHistory(w: Worker, state: State)
    requires HistoryOk(w)
    ensures HistoryOk(w.(state := state))
  {
  }

  lemma StepKeepsHistory(w: Worker, e: Event, depth: nat)
    requires HistoryOk(w)
    ensures HistoryOk(Step(w, e, depth))
  {
    hide HistoryOk, Enqueue, SubmitControl, DropQueue, NextControl, EndControl, NextBatch, EndBatch;
    match e {
      case Arrive(m) => EnqueueKeepsHistory(w, m, depth);
      case Submit(c) => SubmitKeepsHistory(w, c);
      case Shutdown => DropKeepsHistory(w, ByShutdown);
      case PollControl => ControlKeepsHistory(w);
      case ControlDone => ControlKeepsHistory(w);
      case PollBatch => PollKeepsHistory(w);
      case CardCreated => StateKeepsHistory(w, InProcess);
      case DeadlinePassed => StateKeepsHistory(w, Stopping);
      case BatchDone(timedOut) => EndKeepsHistory(w, timedOut);
      case IdleTimer(expired) => StateKeepsHistory(w, Stopped);
    }
  }

  lemma StepKeepsBarrier(w: Worker, e: Event, depth: nat)
    requires BarrierOk(w) && StateOk(w, depth)
    ensures BarrierOk(Step(w, e, depth))
  {
    hide LeadingOrdinary, Head;
  }

  lemma StepKeepsState(w: Worker, e: Event, depth: nat)
    requires StateOk(w, depth) && (w.barrier ==> w.queue == [])
    ensures StateOk(Step(w, e, depth), depth)
  {
    hide LeadingOrdinary, Head;
  }

  lemma StepKeepsInv(w: Worker, e: Event, depth: nat)
    requires Inv(w, depth)
    ensures Inv(Step(w, e, depth), depth)
  {
    hide HistoryOk, StateOk, Step;
    StepKeepsHistory(w, e, depth);
    StepKeepsBarrier(w, e, depth);
    StepKeepsState(w, e, depth);
  }

  lemma {:induction false} InvContinues(w: Worker, events: seq<Event>, depth: nat)
    requires Inv(w, depth)
    ensures Inv(After(w, events, depth), depth)
  {
    if events != [] {
      InvContinues(w, events[..|events| - 1], depth);
      StepKeepsInv(After(w, events[..|events| - 1], depth), events[|events| - 1], depth);
    }
  }

  /** Some interleaving of steps leads from a new worker to `w`. */
  ghost predicate Reachable(w: Worker, depth: nat) {
    exists events :: w == After(NEW, events, depth)
  }

  lemma ReachableInv(w: Worker, depth: nat)
    requires Reachable(w, depth)
    ensures Inv(w, depth)
  {
    var events :| w == After(NEW, events, depth);
    InvContinues(NEW, events, depth);
  }

  // ---------- the promises ----------

  /** While a control is pending or running the queue is empty and no batch runs beside it. */
  lemma ControlBarrier(w: Worker, depth: nat)
    requires Reachable(w, depth)
    ensures w.controls != [] || w.loop.RunningControl? ==> w.barrier
    ensures w.barrier ==> w.queue == []
    ensures !(w.processing && w.loop.RunningControl?)
  {
    ReachableInv(w, depth);
  }

  /** A batch starts only when no control is pending or running. */
  lemma BatchNeedsNoControl(w: Worker, e: Event, depth: nat)
    requires Reachable(w, depth) && !w.processing && Step(w, e, depth).processing
    ensures w.controls == [] && !w.loop.RunningControl? && !w.barrier
  {
    ReachableInv(w, depth);
  }

  /** Controls run once each, in submission order. */
  lemma ControlsRunInOrder(w: Worker, depth: nat)
    requires Reachable(w, depth)
    ensures w.submitted == w.taken + w.controls
  {
    ReachableInv(w, depth);
  }

  /** Earlier entries of the history cover earlier messages. */
  lemma {:induction false} TilesAreOrdered(log: seq<Entry>, j: nat, k: nat)
    requires Tiled(log) && j < k < |log|
    ensures log[j].hi <= log[k].lo
    decreases |log|
  {
    var front := log[..|log| - 1];
    if k < |front| {
      TilesAreOrdered(front, j, k);
    } else if j < |front| - 1 {
      TilesAreOrdered(front, j, |front| - 1);
    }
  }

  lemma {:induction false} TileOf(log: seq<Entry>, i: nat) returns (k: nat)
    requires Tiled(log) && i < Head(log)
    ensures k < |log| && log[k].lo <= i < log[k].hi
  {
    k := |log| - 1;
    if i < log[k].lo {
      k := TileOf(log[..k], i);
    }
  }

  /** Each accepted message is still queued, or in exactly one batch or one drop. */
  lemma EveryMessageInOnePlace(w: Worker, depth: nat, i: nat)
    requires Reachable(w, depth) && i < |w.Accepted()|
    ensures Head(w.log) <= i ==> i - Head(w.log) < |w.queue| && w.queue[i - Head(w.log)] == w.Accepted()[i]
    ensures Head(w.log) <= i <==> !exists k :: 0 <= k < |w.log| && w.log[k].lo <= i < w.log[k].hi
    ensures forall j, k | 0 <= j < |w.log| && 0 <= k < |w.log| ::
              w.log[j].lo <= i < w.log[j].hi && w.log[k].lo <= i < w.log[k].hi ==> j == k
  {
    ReachableInv(w, depth);
    if i < Head(w.log) {
      var k := TileOf(w.log, i);
    }
    forall j, k | 0 <= j < k < |w.log| ensures w.log[j].hi <= w.log[k].lo {
      TilesAreOrdered(w.log, j, k);
    }
  }

  /** Every batch was the next batch of the queue it was cut from. */
  lemma BatchesAreGreedy(w: Worker, depth: nat, k: nat)
    requires Reachable(w, depth) && k < |w.log| && w.log[k].Batch?
    ensures IsBatchAt(w.Accepted(), w.log[k].lo, w.log[k].hi, w.log[k].seen)
  {
    ReachableInv(w, depth);
  }

  /** Batches and drops follow acceptance order. */
  lemma HistoryFollowsAcceptance(w: Worker, depth: nat, j: nat, k: nat)
    requires Reachable(w, depth) && j < k < |w.log|
    ensures w.log[j].hi <= w.log[k].lo
  {
    ReachableInv(w, depth);
    TilesAreOrdered(w.log, j, k);
  }

  lemma StepGrowsHistory(w: Worker, e: Event, depth: nat)
    ensures w.log <= Step(w, e, depth).log && w.Accepted() <= Step(w, e, depth).Accepted()
  {
  }

  lemma {:induction false} HistoryGrows(w: Worker, events: seq<Event>, depth: nat)
    ensures w.log <= After(w, events, depth).log && w.Accepted() <= After(w, events, depth).Accepted()
  {
    if events != [] {
      HistoryGrows(w, events[..|events| - 1], depth);
      StepGrowsHistory(After(w, events[..|events| - 1], depth), events[|events| - 1], depth);
    }
  }

  /** An event that takes the queue away: a control that is accepted, a shutdown, or a batch that ran out of time. */
  predicate HandsBack(w: Worker, e: Event) {
    || (e.Submit? && w.state !in {Stopping, Stopped})
    || e.Shutdown?
    || (e.BatchDone? && e.timedOut && w.loop.RunningBatch?)
  }

  /** The queue is empty, and one more drop covers exactly the messages that were queued. */
  ghost predicate DropsAll(before: Worker, after: Worker) {
    && after.queue == [] && after.Accepted() == before.Accepted()
    && |after.log| == |before.log| + 1 && before.log <= after.log
    && var drop := after.log[|before.log|];
       drop.Drop? && drop.lo == |before.past| && drop.hi == |before.past| + |before.queue|
  }

  /**
   What is handed back is never processed: the queue is empty afterwards, one drop covers exactly the messages that were
   queued, and whatever happens later, no batch holds one of them or mixes messages accepted before and after.
   */
  lemma HandedBackIsNeverProcessed(w: Worker, e: Event, later: seq<Event>, depth: nat, k: nat)
    requires Reachable(w, depth) && HandsBack(w, e)
    ensures DropsAll(w, Step(w, e, depth))
    ensures var log := After(Step(w, e, depth), later, depth).log;
            k < |log| && log[k].Batch? ==> log[k].hi <= |w.past| || |w.past| + |w.queue| <= log[k].lo
  {
    var v := Step(w, e, depth);
    ReachableInv(w, depth);
    StepKeepsInv(w, e, depth);
    InvContinues(v, later, depth);
    HistoryGrows(v, later, depth);
    HandsBackDrops(w, e, depth);
    var log, at := After(v, later, depth).log, |w.log|;
    hide Step, After;
    assert log[at] == v.log[at];
    if k < at {
      TilesAreOrdered(log, k, at);
    } else if at < k < |log| {
      TilesAreOrdered(log, at, k);
    }
  }

  lemma HandsBackDrops(w: Worker, e: Event, depth: nat)
    requires HistoryOk(w) && HandsBack(w, e)
    ensures DropsAll(w, Step(w, e, depth))
  {
    var cause := if e.Submit? then ByControl else if e.Shutdown? then ByShutdown else ByTimeout;
    assert Step(w, e, depth).log == w.log + [Drop(|w.past|, |w.past| + |w.queue|, cause)];
  }

  /**
   Nothing crosses a control: whatever happens afterwards, no batch ever holds a message that was queued when
   the control was submitted, and none mixes messages accepted before and after it.
   */
  lemma NothingCrossesAControl(w: Worker, c: Control, later: seq<Event>, depth: nat, k: nat)
    requires Reachable(w, depth) && w.state !in {Stopping, Stopped}
    requires k < |After(Step(w, Submit(c), depth), later, depth).log|
    ensures var b := After(Step(w, Submit(c), depth), later, depth).log[k];
            b.Batch? ==> b.hi <= |w.Accepted()| - |w.queue| || |w.Accepted()| <= b.lo
  {
    HandedBackIsNeverProcessed(w, Submit(c), later, depth, k);
  }

  /** A batch that ran out of time is the last one: the worker stops, and accepts and processes nothing any more. */
  lemma TimeoutEndsTheWorker(w: Worker, later: seq<Event>, depth: nat)
    requires Reachable(w, depth) && w.loop.RunningBatch?
    ensures var v := After(Step(w, BatchDone(true), depth), later, depth);
            && v.state.Stopped? && v.queue == [] && !v.processing && v.Accepted() == w.Accepted()
            && w.log + [Drop(|w.past|, |w.past| + |w.queue|, ByTimeout)] <= v.log
            && forall k | |w.log| < k < |v.log| :: v.log[k].Drop? && v.log[k].lo == v.log[k].hi
  {
    ReachableInv(w, depth);
    StepKeepsInv(w, BatchDone(true), depth);
    HistoryGrows(Step(w, BatchDone(true), depth), later, depth);
    StoppedIsAbsorbing(Step(w, BatchDone(true), depth), later, depth);
  }

  /** A stopped worker stays stopped with an empty queue, accepts nothing and starts nothing. */
  lemma {:induction false} StoppedIsAbsorbing(w: Worker, later: seq<Event>, depth: nat)
    requires Inv(w, depth) && w.state.Stopped?
    ensures var v := After(w, later, depth);
            && v.state.Stopped? && v.queue == [] && !v.processing && v.Accepted() == w.Accepted()
            && forall k | |w.log| <= k < |v.log| :: v.log[k].Drop? && v.log[k].lo == v.log[k].hi
  {
    if later != [] {
      var front := later[..|later| - 1];
      StoppedIsAbsorbing(w, front, depth);
      InvContinues(w, front, depth);
      HistoryGrows(w, front, depth);
      StoppedStep(After(w, front, depth), later[|later| - 1], depth);
    }
  }

  lemma StoppedStep(w: Worker, e: Event, depth: nat)
    requires Inv(w, depth) && w.state.Stopped?
    ensures var v := Step(w, e, depth);
            && v.state.Stopped? && v.queue == [] && !v.processing && v.Accepted() == w.Accepted()
            && (v.log == w.log || exists cause :: v.log == w.log + [Drop(|w.Accepted()|, |w.Accepted()|, cause)])
  {
  }

  lemma QueueStaysBounded(w: Worker, depth: nat)
    requires Reachable(w, depth)
    ensures |w.queue| <= depth
  {
    ReachableInv(w, depth);
  }
}
