/**
 One attempt of the turn runtime. Every section that holds the attempt's mutex is one step; notifications, tool
 requests, stops, timeouts and process exits interleave freely between the sections. A thread that has decided to
 finish the attempt carries the error it captured, and may reach `finish` at any later time.
 */
module TurnRuntime {
  import opened Common

  // ---------- data ----------

  /** How an attempt ends: without error, with the terminal status of its goal, or with another failure. */
  datatype Outcome = Clean | GoalEnded(status: Status) | Failed(reason: string)

  /** The goal statuses the server reports; every other status is ignored. */
  datatype Status = Complete | Paused | BudgetLimited | Other

  predicate Terminal(s: Status) {
    !s.Other?
  }

  function GoalError(s: Status): Outcome {
    if s.Complete? then Clean else GoalEnded(s)
  }

  datatype CallState = CallState(handlerStarted: bool, terminal: bool)

  /** Where a tool request stands: registered, holding one of the four action slots, or inside its handler. */
  datatype Phase = Registered | Holding | Running

  datatype Handler = Handler(call: string, turn: string, phase: Phase)

  /** What an observer sees, in order. */
  datatype Observation =
    | Bound(turn: string)
    | Stopped
    | Reported(status: Status)
    | TurnEnded(ended: Option<string>, completed: bool)
    | Started(pid: nat, turn: string)
    | Finished(outcome: Outcome)
    | Delivered(outcome: Outcome)

  /** The tool requests of an attempt: its table of calls, the action slots that are taken, and the running requests. */
  datatype Work = Work(calls: map<string, CallState>, slots: set<nat>, handlers: map<nat, Handler>)

  /**
   What threads of the runtime carry for the attempt: captured outcomes to finish with, begun stops, notifications found
   to belong to the attempt, the result that is about to be sent, and the channel.
   */
  datatype Duty = Duty(
    captured: set<Outcome>, stops: set<bool>, admitted: set<Option<string>>, sending: Option<Outcome>, done: seq<Outcome>)

  datatype Attempt = Attempt(
    goal: bool, turn: Option<string>, known: set<string>, awaiting: bool, goalTerminal: bool, goalError: Outcome,
    stopping: bool, pauseConfirmed: bool, finished: bool, work: Work, duty: Duty, log: seq<Observation>)

  function New(goal: bool): Attempt {
    Attempt(goal, None, {}, false, false, Clean, false, false, false, Work(map[], {}, map[]), Duty({}, {}, {}, None, []), [])
  }

  const SLOTS := 4

  datatype Event =
    | Bind(turnId: string)
    | GoalUpdated(status: Status)
    | Admit(named: Option<string>)
    | TurnCompleted(named: Option<string>, completed: bool)
    | BeginStop
    | ConfirmStop(answer: Status, unbound: bool)
    | InterruptAndFail
    | Fail(reason: string)
    | InterruptAttempt(why: string)
    | Finish(outcome: Outcome)
    | Send
    | Register(pid: nat, call: string, turn: string)
    | Acquire(pid: nat)
    | Permit(pid: nat)
    | Leave(pid: nat)
    | Respond(call: string, turn: string)

  // ---------- the steps ----------

  predicate MayBind(a: Attempt, turn: string) {
    && !a.finished
    && !(a.goal && (a.goalTerminal || a.stopping))
    && !(a.goal && a.turn.Some? && a.turn.value != turn && turn in a.known)
  }

  function BindTo(a: Attempt, turn: string): Attempt {
    if !MayBind(a, turn) then a
    else
      a.(turn := Some(turn),
         known := if a.goal then a.known + {turn} else a.known,
         awaiting := if a.goal then false else a.awaiting,
         log := a.log + [Bound(turn)])
  }

  function Capture(duty: Duty, outcome: Outcome): Duty {
    duty.(captured := duty.captured + {outcome})
  }

  function EndGoal(a: Attempt, status: Status): Attempt {
    a.(goalTerminal := true, goalError := GoalError(status), log := a.log + [Reported(status)])
  }

  function UpdateGoal(a: Attempt, status: Status): Attempt {
    if !a.goal || !Terminal(status) then a
    else
      EndGoal(a, status).(duty := if a.turn.None? || a.awaiting then Capture(a.duty, GoalError(status)) else a.duty)
  }

  /**
   Whether a notification belongs to the attempt: it names no turn, or the current turn, or, for a goal, a turn that
   was bound once.
   */
  predicate Belongs(a: Attempt, named: Option<string>) {
    if named.None? then !a.finished else if a.goal then named.value in a.known else a.turn == named
  }

  function AdmitNamed(a: Attempt, named: Option<string>): Attempt {
    if Belongs(a, named) then a.(duty := a.duty.(admitted := a.duty.admitted + {named})) else a
  }

  function CompleteTurn(a: Attempt, named: Option<string>, completed: bool): Attempt {
    var b := a.(log := a.log + [TurnEnded(named, completed)]);
    if named !in a.duty.admitted then a
    else if !a.goal then b.(duty := Capture(a.duty, if completed then Clean else Failed("turn status")))
    else if a.goalTerminal then b.(duty := Capture(a.duty, a.goalError))
    else b.(awaiting := true)
  }

  function StartStop(a: Attempt): Attempt {
    if !a.goal || a.pauseConfirmed || a.goalTerminal then a
    else a.(stopping := true, duty := a.duty.(stops := a.duty.stops + {a.turn.None?}), log := a.log + [Stopped])
  }

  function AnswerStop(a: Attempt, answer: Status, unbound: bool): Attempt {
    if unbound !in a.duty.stops || !Terminal(answer) then a
    else
      EndGoal(a, answer).(pauseConfirmed := a.pauseConfirmed || answer.Paused?,
                          duty := if unbound then Capture(a.duty, GoalError(answer)) else a.duty)
  }

  function Interrupt(a: Attempt): Attempt {
    if a.stopping then a else a.(stopping := true, log := a.log + [Stopped])
  }

  function Backpressure(a: Attempt, why: string): Attempt {
    if a.finished || a.stopping || a.turn.None? then a
    else a.(stopping := true, duty := Capture(a.duty, Failed(why)), log := a.log + [Stopped])
  }

  function Fence(call: CallState): CallState {
    if call.handlerStarted then call else call.(terminal := true)
  }

  /** Finishing takes back the permission of every call whose handler has not started. */
  function FinishWith(a: Attempt, outcome: Outcome): Attempt {
    if a.finished || outcome !in a.duty.captured then a
    else
      a.(finished := true, duty := a.duty.(sending := Some(outcome)),
         work := a.work.(calls := map c | c in a.work.calls :: Fence(a.work.calls[c])),
         log := a.log + [Finished(outcome)])
  }

  function SendDone(a: Attempt): Attempt {
    if a.duty.sending.None? then a
    else a.(duty := a.duty.(sending := None, done := a.duty.done + [a.duty.sending.value]),
            log := a.log + [Delivered(a.duty.sending.value)])
  }

  function Registering(w: Work, pid: nat, call: string, turn: string): Work {
    w.(calls := if call in w.calls then w.calls else w.calls[call := CallState(false, false)],
       handlers := w.handlers[pid := Handler(call, turn, Registered)])
  }

  function RegisterCall(a: Attempt, pid: nat, call: string, turn: string): Attempt {
    if pid in a.work.handlers || a.finished || a.turn != Some(turn) then a
    else a.(work := Registering(a.work, pid, call, turn))
  }

  function Acquiring(w: Work, pid: nat): Work
    requires pid in w.handlers
  {
    w.(slots := w.slots + {pid}, handlers := w.handlers[pid := w.handlers[pid].(phase := Holding)])
  }

  function AcquireSlot(a: Attempt, pid: nat): Attempt {
    if pid !in a.work.handlers || !a.work.handlers[pid].phase.Registered? || |a.work.slots| >= SLOTS then a
    else a.(work := Acquiring(a.work, pid))
  }

  predicate MayStart(a: Attempt, h: Handler) {
    && !a.finished && a.turn == Some(h.turn)
    && h.call in a.work.calls && !a.work.calls[h.call].terminal && !a.work.calls[h.call].handlerStarted
  }

  function Returning(w: Work, pid: nat): Work {
    w.(slots := w.slots - {pid}, handlers := w.handlers - {pid})
  }

  function Beginning(w: Work, pid: nat): Work
    requires pid in w.handlers && w.handlers[pid].call in w.calls
  {
    var h := w.handlers[pid];
    w.(calls := w.calls[h.call := w.calls[h.call].(handlerStarted := true)], handlers := w.handlers[pid := h.(phase := Running)])
  }

  function ReturnFrom(a: Attempt, pid: nat): Attempt {
    a.(work := Returning(a.work, pid))
  }

  function PermitCall(a: Attempt, pid: nat): Attempt {
    if pid !in a.work.handlers || !a.work.handlers[pid].phase.Holding? then a
    else
      var h := a.work.handlers[pid];
      if !MayStart(a, h) then ReturnFrom(a, pid)
      else a.(work := Beginning(a.work, pid), log := a.log + [Started(pid, h.turn)])
  }

  function LeaveCall(a: Attempt, pid: nat): Attempt {
    if pid !in a.work.handlers || a.work.handlers[pid].phase.Holding? then a else ReturnFrom(a, pid)
  }

  function RespondTo(a: Attempt, call: string, turn: string): Attempt {
    if a.turn != Some(turn) then a else a.(work := a.work.(calls := a.work.calls - {call}))
  }

  function Step(a: Attempt, e: Event): Attempt {
    match e
    case Bind(turn) => BindTo(a, turn)
    case GoalUpdated(status) => UpdateGoal(a, status)
    case Admit(named) => AdmitNamed(a, named)
    case TurnCompleted(named, completed) => CompleteTurn(a, named, completed)
    case BeginStop => StartStop(a)
    case ConfirmStop(answer, unbound) => AnswerStop(a, answer, unbound)
    case InterruptAndFail => Interrupt(a)
    case Fail(reason) => a.(duty := Capture(a.duty, Failed(reason)))
    case InterruptAttempt(why) => Backpressure(a, why)
    case Finish(outcome) => FinishWith(a, outcome)
    case Send => SendDone(a)
    case Register(pid, call, turn) => RegisterCall(a, pid, call, turn)
    case Acquire(pid) => AcquireSlot(a, pid)
    case Permit(pid) => PermitCall(a, pid)
    case Leave(pid) => LeaveCall(a, pid)
    case Respond(call, turn) => RespondTo(a, call, turn)
  }

  function After(a: Attempt, events: seq<Event>): Attempt {
    if events == [] then a else Step(After(a, events[..|events| - 1]), events[|events| - 1])
  }

  // ---------- what the observations say ----------

  /** The turn bound last. */
  function Current(log: seq<Observation>): Option<string> {
    if log == [] then None
    else if log[|log| - 1].Bound? then Some(log[|log| - 1].turn)
    else Current(log[..|log| - 1])
  }

  ghost predicate HasBound(log: seq<Observation>, turn: string) {
    Bound(turn) in log
  }

  ghost predicate HasFinished(log: seq<Observation>) {
    exists i :: 0 <= i < |log| && log[i].Finished?
  }

  ghost predicate HasStopped(log: seq<Observation>) {
    exists i :: 0 <= i < |log| && (log[i].Stopped? || log[i].Reported?)
  }

  ghost predicate HasDelivered(log: seq<Observation>) {
    exists i :: 0 <= i < |log| && log[i].Delivered?
  }

  /** What must have been seen before an attempt may end without an error. */
  ghost predicate HasSuccess(goal: bool, log: seq<Observation>) {
    if goal then Reported(Complete) in log else exists named :: TurnEnded(named, true) in log
  }

  /** An outcome that speaks for the server is one the server reported. */
  ghost predicate Backed(goal: bool, log: seq<Observation>, outcome: Outcome) {
    && (outcome.Clean? ==> HasSuccess(goal, log))
    && (outcome.GoalEnded? ==> goal && Reported(outcome.status) in log)
  }

  /** Whether `o` may follow `log`. */
  ghost predicate Allowed(goal: bool, log: seq<Observation>, o: Observation) {
    match o
    case Bound(t) =>
      && !HasFinished(log)
      && (goal ==> !HasStopped(log) && (HasBound(log, t) ==> Current(log) == Some(t)))
    case Started(_, t) => !HasFinished(log) && Current(log) == Some(t)
    case TurnEnded(named, _) => named.Some? ==> HasBound(log, named.value)
    case Finished(outcome) => !HasFinished(log) && Backed(goal, log, outcome)
    case Delivered(outcome) => Finished(outcome) in log && !HasDelivered(log)
    case _ => true
  }

  ghost predicate Legal(goal: bool, log: seq<Observation>) {
    log == [] || (Legal(goal, log[..|log| - 1]) && Allowed(goal, log[..|log| - 1], log[|log| - 1]))
  }

  // ---------- the invariant ----------

  /** The fields say what the observations say. */
  ghost predicate Agrees(a: Attempt) {
    && a.turn == Current(a.log)
    && (a.goal ==> forall t :: t in a.known <==> HasBound(a.log, t))
    && (a.turn.None? ==> a.known == {})
    && (a.finished <==> HasFinished(a.log))
    && (a.goal && HasStopped(a.log) ==> a.goalTerminal || a.stopping)
    && (a.goal && a.goalTerminal ==> Backed(a.goal, a.log, a.goalError))
    && (forall o | o in a.duty.captured :: Backed(a.goal, a.log, o))
    && (forall named | named in a.duty.admitted && named.Some? :: HasBound(a.log, named.value))
    && (a.duty.stops != {} ==> a.goal)
  }

  ghost predicate OneResult(a: Attempt) {
    && (a.duty.sending.Some? ==> Finished(a.duty.sending.value) in a.log && !HasDelivered(a.log) && a.duty.done == [])
    && (a.duty.done != [] ==> |a.duty.done| == 1 && a.finished)
    && (HasDelivered(a.log) ==> a.duty.done != [])
    && (!a.finished ==> a.duty.sending.None? && a.duty.done == [])
  }

  ghost predicate SlotsHeld(w: Work) {
    && |w.slots| <= SLOTS
    && (forall pid :: pid in w.slots <==> pid in w.handlers && !w.handlers[pid].phase.Registered?)
  }

  /** After the end no call is left that could still start. */
  ghost predicate Fenced(finished: bool, w: Work) {
    finished ==> forall c | c in w.calls :: w.calls[c].handlerStarted || w.calls[c].terminal
  }

  ghost predicate Inv(a: Attempt) {
    Agrees(a) && OneResult(a) && SlotsHeld(a.work) && Fenced(a.finished, a.work) && Legal(a.goal, a.log)
  }

  ghost predicate Reachable(a: Attempt) {
    exists goal, events :: a == After(New(goal), events)
  }

  lemma Appended(goal: bool, log: seq<Observation>, o: Observation)
    ensures var next := log + [o];
            && Current(next) == (if o.Bound? then Some(o.turn) else Current(log))
            && (HasFinished(next) <==> HasFinished(log) || o.Finished?)
            && (HasStopped(next) <==> HasStopped(log) || o.Stopped? || o.Reported?)
            && (HasDelivered(next) <==> HasDelivered(log) || o.Delivered?)
            && (forall t :: HasBound(next, t) <==> HasBound(log, t) || o == Bound(t))
            && (Legal(goal, next) <==> Legal(goal, log) && Allowed(goal, log, o))
            && (forall p :: p in next <==> p in log || p == o)
  {
    var next := log + [o];
    assert next[..|log|] == log && next[|log|] == o;
    assert forall i | 0 <= i < |log| :: next[i] == log[i];
  }

  lemma NewIsInv(goal: bool)
    ensures Inv(New(goal))
  {
  }

  /** Every section keeps the invariant. */
  lemma StepKeepsInv(a: Attempt, e: Event)
    requires Inv(a)
    ensures Inv(Step(a, e))
  {
    hide Inv, BindTo, UpdateGoal, AdmitNamed, CompleteTurn, StartStop, AnswerStop, Interrupt, Backpressure, FinishWith, SendDone,
      RegisterCall, AcquireSlot, PermitCall, LeaveCall, RespondTo;
    match e {
      case Bind(turn) => BindKeepsInv(a, turn);
      case GoalUpdated(status) => UpdateKeepsInv(a, status);
      case Admit(named) => AdmitKeepsInv(a, named);
      case TurnCompleted(named, completed) => CompleteKeepsInv(a, named, completed);
      case BeginStop => StopKeepsInv(a);
      case ConfirmStop(answer, unbound) => AnswerKeepsInv(a, answer, unbound);
      case InterruptAndFail => InterruptKeepsInv(a);
      case Fail(reason) => CaptureKeepsInv(a, reason);
      case InterruptAttempt(why) => BackpressureKeepsInv(a, why);
      case Finish(outcome) => FinishKeepsInv(a, outcome);
      case Send => SendKeepsInv(a);
      case Register(pid, call, turn) => RegisterKeepsInv(a, pid, call, turn);
      case Acquire(pid) => AcquireKeepsInv(a, pid);
      case Permit(pid) => PermitKeepsInv(a, pid);
      case Leave(pid) => LeaveKeepsInv(a, pid);
      case Respond(call, turn) => RespondKeepsInv(a, call, turn);
    }
  }

  lemma BindKeepsInv(a: Attempt, turn: string)
    requires Inv(a)
    ensures Inv(BindTo(a, turn))
  {
    hide HasFinished, HasStopped, HasDelivered, HasBound, Current, Legal;
    Appended(a.goal, a.log, Bound(turn));
  }

  lemma EndGoalKeepsInv(a: Attempt, status: Status)
    requires Inv(a) && a.goal
    ensures Inv(EndGoal(a, status))
  {
    hide HasFinished, HasStopped, HasDelivered, HasBound, Current, Legal;
    Appended(a.goal, a.log, Reported(status));
  }

  lemma GoalErrorKeepsInv(a: Attempt)
    requires Inv(a) && a.goal && a.goalTerminal
    ensures Inv(a.(duty := Capture(a.duty, a.goalError)))
  {
    hide HasFinished, HasStopped, HasDelivered, HasBound, Current, Legal;
  }

  lemma UpdateKeepsInv(a: Attempt, status: Status)
    requires Inv(a)
    ensures Inv(UpdateGoal(a, status))
  {
    hide Inv;
    if a.goal {
      EndGoalKeepsInv(a, status);
      GoalErrorKeepsInv(EndGoal(a, status));
    }
  }

  lemma PauseKeepsInv(a: Attempt, confirmed: bool)
    requires Inv(a)
    ensures Inv(a.(pauseConfirmed := confirmed))
  {
    hide HasFinished, HasStopped, HasDelivered, HasBound, Current, Legal;
  }

  lemma StopsAreOfGoals(a: Attempt, unbound: bool)
    requires Inv(a) && unbound in a.duty.stops
    ensures a.goal
  {
  }

  lemma AnswerKeepsInv(a: Attempt, answer: Status, unbound: bool)
    requires Inv(a)
    ensures Inv(AnswerStop(a, answer, unbound))
  {
    hide Inv;
    if unbound in a.duty.stops {
      StopsAreOfGoals(a, unbound);
      EndGoalKeepsInv(a, answer);
      var b := EndGoal(a, answer);
      var c := b.(pauseConfirmed := a.pauseConfirmed || answer.Paused?);
      PauseKeepsInv(b, c.pauseConfirmed);
      GoalErrorKeepsInv(c);
    }
  }

  lemma {:induction false} CurrentIsBound(log: seq<Observation>)
    ensures Current(log).Some? ==> HasBound(log, Current(log).value)
  {
    if log != [] && !log[|log| - 1].Bound? {
      CurrentIsBound(log[..|log| - 1]);
    }
  }

  lemma AdmitKeepsInv(a: Attempt, named: Option<string>)
    requires Inv(a)
    ensures Inv(AdmitNamed(a, named))
  {
    CurrentIsBound(a.log);
    hide HasFinished, HasStopped, HasDelivered, HasBound, Current, Legal, Backed;
  }

  lemma EndedKeepsInv(a: Attempt, named: Option<string>, completed: bool)
    requires Inv(a) && named in a.duty.admitted
    ensures Inv(a.(log := a.log + [TurnEnded(named, completed)]))
  {
    hide HasFinished, HasStopped, HasDelivered, HasBound, Current, Legal;
    Appended(a.goal, a.log, TurnEnded(named, completed));
  }

  lemma OutcomeKeepsInv(a: Attempt, outcome: Outcome)
    requires Inv(a) && Backed(a.goal, a.log, outcome)
    ensures Inv(a.(duty := Capture(a.duty, outcome)))
  {
    hide HasFinished, HasStopped, HasDelivered, HasBound, Current, Legal, Backed, SlotsHeld, Fenced;
  }

  lemma AwaitingKeepsInv(a: Attempt, awaiting: bool)
    requires Inv(a)
    ensures Inv(a.(awaiting := awaiting))
  {
    hide HasFinished, HasStopped, HasDelivered, HasBound, Current, Legal, Backed, SlotsHeld, Fenced;
  }

  lemma GoalErrorIsBacked(a: Attempt)
    requires Inv(a) && a.goal && a.goalTerminal
    ensures Backed(a.goal, a.log, a.goalError)
  {
  }

  lemma TurnResultIsBacked(log: seq<Observation>, named: Option<string>, completed: bool)
    ensures Backed(false, log + [TurnEnded(named, completed)], if completed then Clean else Failed("turn status"))
  {
    assert TurnEnded(named, completed) in log + [TurnEnded(named, completed)];
  }

  lemma CompleteKeepsInv(a: Attempt, named: Option<string>, completed: bool)
    requires Inv(a)
    ensures Inv(CompleteTurn(a, named, completed))
  {
    hide Inv, Backed;
    if named in a.duty.admitted {
      EndedKeepsInv(a, named, completed);
      var b := a.(log := a.log + [TurnEnded(named, completed)]);
      if !a.goal {
        TurnResultIsBacked(a.log, named, completed);
        OutcomeKeepsInv(b, if completed then Clean else Failed("turn status"));
      } else if a.goalTerminal {
        GoalErrorIsBacked(b);
        OutcomeKeepsInv(b, a.goalError);
      } else {
        AwaitingKeepsInv(b, true);
      }
    }
  }

  lemma StopKeepsInv(a: Attempt)
    requires Inv(a)
    ensures Inv(StartStop(a))
  {
    hide HasFinished, HasStopped, HasDelivered, HasBound, Current, Legal;
    Appended(a.goal, a.log, Stopped);
  }

  lemma InterruptKeepsInv(a: Attempt)
    requires Inv(a)
    ensures Inv(Interrupt(a))
  {
    hide HasFinished, HasStopped, HasDelivered, HasBound, Current, Legal;
    Appended(a.goal, a.log, Stopped);
  }

  lemma CaptureKeepsInv(a: Attempt, reason: string)
    requires Inv(a)
    ensures Inv(a.(duty := Capture(a.duty, Failed(reason))))
  {
    hide HasFinished, HasStopped, HasDelivered, HasBound, Current, Legal;
  }

  lemma BackpressureKeepsInv(a: Attempt, why: string)
    requires Inv(a)
    ensures Inv(Backpressure(a, why))
  {
    hide HasFinished, HasStopped, HasDelivered, HasBound, Current, Legal;
    Appended(a.goal, a.log, Stopped);
  }

  lemma FinishKeepsInv(a: Attempt, outcome: Outcome)
    requires Inv(a)
    ensures Inv(FinishWith(a, outcome))
  {
    hide HasFinished, HasStopped, HasDelivered, HasBound, Current, Legal;
    Appended(a.goal, a.log, Finished(outcome));
  }

  lemma SendKeepsInv(a: Attempt)
    requires Inv(a)
    ensures Inv(SendDone(a))
  {
    hide HasFinished, HasStopped, HasDelivered, HasBound, Current, Legal;
    if a.duty.sending.Some? {
      Appended(a.goal, a.log, Delivered(a.duty.sending.value));
    }
  }

  /** Changes to the calls and their handlers leave everything that is reported alone. */
  lemma WorkKeepsInv(a: Attempt, w: Work)
    requires Inv(a) && SlotsHeld(w) && Fenced(a.finished, w)
    ensures Inv(a.(work := w))
  {
    hide HasFinished, HasStopped, HasDelivered, HasBound, Current, Backed, Legal, SlotsHeld, Fenced;
  }

  lemma RegisterKeepsInv(a: Attempt, pid: nat, call: string, turn: string)
    requires Inv(a)
    ensures Inv(RegisterCall(a, pid, call, turn))
  {
    if pid !in a.work.handlers && !a.finished {
      assert SlotsHeld(Registering(a.work, pid, call, turn)) && Fenced(a.finished, Registering(a.work, pid, call, turn));
      hide Inv;
      WorkKeepsInv(a, Registering(a.work, pid, call, turn));
    }
  }

  lemma AcquireKeepsSlots(w: Work, pid: nat)
    requires SlotsHeld(w) && pid in w.handlers && w.handlers[pid].phase.Registered? && |w.slots| < SLOTS
    ensures SlotsHeld(Acquiring(w, pid))
  {
  }

  lemma AcquireKeepsInv(a: Attempt, pid: nat)
    requires Inv(a)
    ensures Inv(AcquireSlot(a, pid))
  {
    if pid in a.work.handlers && a.work.handlers[pid].phase.Registered? && |a.work.slots| < SLOTS {
      AcquireKeepsSlots(a.work, pid);
      assert Fenced(a.finished, Acquiring(a.work, pid));
      hide Inv, Acquiring;
      WorkKeepsInv(a, Acquiring(a.work, pid));
    }
  }

  lemma ReturnKeepsInv(a: Attempt, pid: nat)
    requires Inv(a)
    ensures Inv(ReturnFrom(a, pid))
  {
    assert SlotsHeld(Returning(a.work, pid)) && Fenced(a.finished, Returning(a.work, pid));
    hide Inv;
    WorkKeepsInv(a, Returning(a.work, pid));
  }

  lemma StartKeepsInv(a: Attempt, pid: nat)
    requires Inv(a) && pid in a.work.handlers && a.work.handlers[pid].phase.Holding? && MayStart(a, a.work.handlers[pid])
    ensures Inv(PermitCall(a, pid))
  {
    Appended(a.goal, a.log, Started(pid, a.work.handlers[pid].turn));
    assert SlotsHeld(Beginning(a.work, pid)) && Fenced(a.finished, Beginning(a.work, pid));
    hide HasFinished, HasStopped, HasDelivered, HasBound, Current, Legal, SlotsHeld, Fenced;
  }

  lemma PermitKeepsInv(a: Attempt, pid: nat)
    requires Inv(a)
    ensures Inv(PermitCall(a, pid))
  {
    hide Inv;
    ReturnKeepsInv(a, pid);
    if pid in a.work.handlers && a.work.handlers[pid].phase.Holding? && MayStart(a, a.work.handlers[pid]) {
      StartKeepsInv(a, pid);
    }
  }

  lemma LeaveKeepsInv(a: Attempt, pid: nat)
    requires Inv(a)
    ensures Inv(LeaveCall(a, pid))
  {
    hide Inv;
    ReturnKeepsInv(a, pid);
  }

  lemma RespondKeepsInv(a: Attempt, call: string, turn: string)
    requires Inv(a)
    ensures Inv(RespondTo(a, call, turn))
  {
    var w := a.work.(calls := a.work.calls - {call});
    assert SlotsHeld(w) && Fenced(a.finished, w);
    hide Inv;
    WorkKeepsInv(a, w);
  }

  // ---------- every run ----------

  lemma {:induction false} AfterIsInv(goal: bool, events: seq<Event>)
    ensures Inv(After(New(goal), events))
  {
    if events == [] {
      NewIsInv(goal);
    } else {
      AfterIsInv(goal, events[..|events| - 1]);
      StepKeepsInv(After(New(goal), events[..|events| - 1]), events[|events| - 1]);
    }
  }

  lemma ReachableIsInv(a: Attempt)
    requires Reachable(a)
    ensures Inv(a)
  {
    var goal, events :| a == After(New(goal), events);
    AfterIsInv(goal, events);
  }

  lemma {:induction false} LegalAt(goal: bool, log: seq<Observation>, k: nat)
    requires Legal(goal, log) && k < |log|
    ensures Allowed(goal, log[..k], log[k])
  {
    if k < |log| - 1 {
      LegalAt(goal, log[..|log| - 1], k);
      assert log[..|log| - 1][..k] == log[..k];
    }
  }

  /** The terminal fence: after the end no turn is bound, no handler is started and there is no second end. */
  lemma NothingAfterFinish(a: Attempt, i: nat, j: nat)
    requires Reachable(a) && i < j < |a.log| && a.log[i].Finished?
    ensures !a.log[j].Bound? && !a.log[j].Started? && !a.log[j].Finished?
  {
    ReachableIsInv(a);
    LegalAt(a.goal, a.log, j);
    assert a.log[..j][i].Finished?;
  }

  lemma {:induction false} CurrentIsLastBound(log: seq<Observation>) returns (j: nat)
    requires Current(log).Some?
    ensures j < |log| && log[j] == Bound(Current(log).value)
    ensures forall k | j < k < |log| :: !log[k].Bound?
  {
    if log[|log| - 1].Bound? {
      j := |log| - 1;
    } else {
      j := CurrentIsLastBound(log[..|log| - 1]);
    }
  }

  /** A handler is started only for the turn that is bound at that moment. */
  lemma HandlersStartForTheCurrentTurn(a: Attempt, k: nat) returns (j: nat)
    requires Reachable(a) && k < |a.log| && a.log[k].Started?
    ensures j < k && a.log[j] == Bound(a.log[k].turn)
    ensures forall i | j < i < k :: !a.log[i].Bound?
    ensures forall i | 0 <= i < k :: !a.log[i].Finished?
  {
    ReachableIsInv(a);
    LegalAt(a.goal, a.log, k);
    j := CurrentIsLastBound(a.log[..k]);
    forall i | j < i < k ensures !a.log[i].Bound? {
      assert a.log[..k][i] == a.log[i];
    }
    forall i | 0 <= i < k ensures !a.log[i].Finished? {
      assert a.log[..k][i] == a.log[i];
    }
  }

  /** At every moment at most four handlers of the attempt run. */
  lemma AtMostFourHandlersRun(a: Attempt, running: set<nat>)
    requires Reachable(a) && forall pid | pid in running :: pid in a.work.handlers && a.work.handlers[pid].phase.Running?
    ensures |running| <= 4
  {
    ReachableIsInv(a);
    assert running <= a.work.slots;
    SmallerSet(running, a.work.slots);
  }

  lemma {:induction false} SmallerSet(a: set<nat>, b: set<nat>)
    requires a <= b
    ensures |a| <= |b|
  {
    if a != {} {
      var x :| x in a;
      SmallerSet(a - {x}, b - {x});
    }
  }

  /** A goal never goes back to a turn that another turn has replaced. */
  lemma {:induction false} ReplacedTurnsStayReplaced(a: Attempt, i: nat, j: nat, k: nat)
    requires Reachable(a) && a.goal && i < j < k < |a.log|
    requires a.log[i].Bound? && a.log[j].Bound? && a.log[i] != a.log[j]
    ensures a.log[k] != a.log[i]
  {
    ReachableIsInv(a);
    LegalAt(a.goal, a.log, k);
    NotCurrentAgain(a.goal, a.log, i, j, k);
    assert a.log[..k][i] == a.log[i];
  }

  lemma {:induction false} NotCurrentAgain(goal: bool, log: seq<Observation>, i: nat, j: nat, k: nat)
    requires goal && Legal(goal, log) && i < j < k <= |log|
    requires log[i].Bound? && log[j].Bound? && log[i] != log[j]
    ensures Current(log[..k]) != Some(log[i].turn)
  {
    var before := log[..k - 1];
    assert log[..k][..k - 1] == before && log[..k][k - 1] == log[k - 1];
    if k > j + 1 {
      NotCurrentAgain(goal, log, i, j, k - 1);
      LegalAt(goal, log, k - 1);
      assert before[i] == log[i];
    }
  }

  /** Once a goal is stopping or its terminal status is known, no turn is bound any more. */
  lemma NoTurnAfterStop(a: Attempt, i: nat, k: nat)
    requires Reachable(a) && a.goal && i < k < |a.log| && (a.log[i].Stopped? || a.log[i].Reported?)
    ensures !a.log[k].Bound?
  {
    ReachableIsInv(a);
    LegalAt(a.goal, a.log, k);
    assert a.log[..k][i] == a.log[i];
  }

  /** One result at most, and the channel of capacity one is empty when it is sent, so the sender never blocks. */
  lemma AtMostOneResult(a: Attempt, i: nat, j: nat)
    requires Reachable(a)
    ensures |a.duty.done| <= 1 && (a.duty.sending.Some? ==> a.duty.done == [])
    ensures i < j < |a.log| && a.log[i].Delivered? ==> !a.log[j].Delivered?
  {
    ReachableIsInv(a);
    if i < j < |a.log| {
      LegalAt(a.goal, a.log, j);
      assert a.log[..j][i] == a.log[i];
    }
  }

  /**
   An attempt ends with an outcome that speaks for the server only after the server reported it: `j` is the report. A
   clean goal was reported complete. A clean ordinary attempt saw a turn complete, and a completion that names a turn
   names one that was bound before.
   */
  lemma OutcomeWasReported(a: Attempt, k: nat) returns (j: nat)
    requires Reachable(a) && k < |a.log| && a.log[k].Delivered? && !a.log[k].outcome.Failed?
    ensures j < k
    ensures a.log[k].outcome.GoalEnded? ==> a.goal && a.log[j] == Reported(a.log[k].outcome.status)
    ensures a.log[k].outcome.Clean? && a.goal ==> a.log[j] == Reported(Complete)
    ensures a.log[k].outcome.Clean? && !a.goal ==>
              && a.log[j].TurnEnded? && a.log[j].completed
              && (a.log[j].ended.Some? ==> Bound(a.log[j].ended.value) in a.log[..j])
  {
    ReachableIsInv(a);
    LegalAt(a.goal, a.log, k);
    var outcome := a.log[k].outcome;
    var i :| 0 <= i < k && a.log[..k][i] == Finished(outcome);
    LegalAt(a.goal, a.log, i);
    var report: Observation;
    if outcome.GoalEnded? {
      report := Reported(outcome.status);
    } else if a.goal {
      report := Reported(Complete);
    } else {
      var named :| TurnEnded(named, true) in a.log[..i];
      report := TurnEnded(named, true);
    }
    j :| 0 <= j < i && a.log[..i][j] == report;
    LegalAt(a.goal, a.log, j);
  }

  // ---------- stops that come early ----------

  /**
   The runtime's registry of goals, for the stops that may arrive before an attempt is registered. `flagged` are the
   attempts whose `stopRequested` is set; `begun` and `started` are those on which a stop was begun, and those whose
   first turn was requested from the server.
   */
  datatype Registry = Registry(
    goals: set<string>, pendingStops: set<string>, prepared: set<string>, flagged: set<string>,
    requested: set<string>, begun: set<string>, started: set<string>)

  const NO_GOALS := Registry({}, {}, {}, {}, {}, {}, {})

  datatype RegistryEvent = RequestStop(id: string) | PrepareGoal(id: string) | StartGoal(id: string) | CloseGoal(id: string)

  function RegistryStep(r: Registry, e: RegistryEvent): Registry {
    match e
    case RequestStop(id) =>
      var s := r.(requested := r.requested + {id});
      if id in r.goals then s.(begun := r.begun + {id}) else s.(pendingStops := r.pendingStops + {id})
    case PrepareGoal(id) =>
      if id in r.prepared then r
      else
        r.(goals := r.goals + {id}, prepared := r.prepared + {id},
           flagged := if id in r.pendingStops then r.flagged + {id} else r.flagged,
           pendingStops := r.pendingStops - {id})
    case StartGoal(id) =>
      if id !in r.prepared then r
      else if id in r.flagged then r.(begun := r.begun + {id})
      else r.(started := r.started + {id})
    case CloseGoal(id) => r.(goals := r.goals - {id})
  }

  function RegistryAfter(r: Registry, events: seq<RegistryEvent>): Registry {
    if events == [] then r else RegistryStep(RegistryAfter(r, events[..|events| - 1]), events[|events| - 1])
  }

  lemma RegistryEventsFollow(r: Registry, events: seq<RegistryEvent>, e: RegistryEvent)
    ensures RegistryAfter(r, []) == r && RegistryAfter(r, events + [e]) == RegistryStep(RegistryAfter(r, events), e)
  {
    assert (events + [e])[..|events|] == events;
  }

  ghost predicate RegistryInv(r: Registry) {
    && r.goals <= r.prepared && r.flagged <= r.prepared && r.started <= r.prepared && r.begun <= r.prepared
    && (forall id | id in r.flagged :: id !in r.started)
    && (forall id | id in r.requested :: id in r.begun || id in r.pendingStops || id in r.flagged)
  }

  lemma {:induction false} RegistryIsInv(events: seq<RegistryEvent>)
    ensures RegistryInv(RegistryAfter(NO_GOALS, events))
  {
    if events != [] {
      RegistryIsInv(events[..|events| - 1]);
    }
  }

  /**
   No stop is lost: one that comes before its attempt is registered waits for it, and keeps the attempt from ever
   starting its first turn.
   */
  lemma StopsAreNotLost(before: seq<RegistryEvent>, later: seq<RegistryEvent>, id: string)
    requires var r := RegistryAfter(NO_GOALS, before); id in r.requested && id !in r.prepared
    ensures var r := RegistryAfter(RegistryAfter(NO_GOALS, before), later);
            id !in r.started && (if id in r.prepared then id in r.flagged else id in r.pendingStops)
  {
    RegistryIsInv(before);
    HeldBack(RegistryAfter(NO_GOALS, before), later, id);
  }

  lemma {:induction false} HeldBack(r: Registry, later: seq<RegistryEvent>, id: string)
    requires id !in r.prepared && id in r.pendingStops && RegistryInv(r)
    ensures var s := RegistryAfter(r, later);
            id !in s.started && (if id in s.prepared then id in s.flagged else id in s.pendingStops)
  {
    if later != [] {
      HeldBack(r, later[..|later| - 1], id);
    }
  }

  /**
   A stop of a registered goal is begun at once; one that was waiting when its attempt was registered is begun instead of
   the first turn; and a goal that nobody stopped in time starts its first turn.
   */
  lemma StopsAreBegun(r: Registry, id: string)
    ensures id in r.goals ==> id in RegistryStep(r, RequestStop(id)).begun
    ensures id !in r.prepared ==>
              var s := RegistryStep(RegistryStep(r, PrepareGoal(id)), StartGoal(id));
              if id in r.pendingStops then id in s.begun && s.started == r.started
              else if id in r.flagged then id in s.begun else id in s.started && s.begun == r.begun
    ensures var s := RegistryStep(r, PrepareGoal(id)); id in s.prepared && (id !in r.prepared ==> id in s.goals)
    ensures RegistryStep(r, CloseGoal(id)) == r.(goals := r.goals - {id})
  {
  }

  // ---------- notifications ----------

  datatype Kind =
    | TokenUsage
    | GoalStatus(status: Status)
    | TurnStarted
    | TurnDone(completed: bool, hasTurnId: bool)
    | ItemEvent(agentMessage: bool)
    | OtherKind

  /** A notification for the attempt's thread; some name no turn. */
  datatype Notification = Notification(kind: Kind, turn: Option<string>)

  datatype Routing = AttemptRouted | GoalRouted | ContinuationBound | PendingBinding | Unrouted

  /** Events that prove that their turn exists. */
  predicate IsContinuationEvidence(k: Kind) {
    (k.TurnDone? && k.hasTurnId) || (k.ItemEvent? && k.agentMessage)
  }

  lemma AfterSnoc(a: Attempt, events: seq<Event>, e: Event)
    ensures After(a, events + [e]) == Step(After(a, events), e)
  {
    assert (events + [e])[..|events|] == events;
  }

  lemma AfterBind(a: Attempt, events: seq<Event>, turn: string)
    ensures After(a, events + [Bind(turn)]) == BindTo(After(a, events), turn)
  {
    AfterSnoc(a, events, Bind(turn));
  }

  lemma AfterGoalUpdated(a: Attempt, events: seq<Event>, status: Status)
    ensures After(a, events + [GoalUpdated(status)]) == UpdateGoal(After(a, events), status)
  {
    AfterSnoc(a, events, GoalUpdated(status));
  }

  lemma AfterTurnCompleted(a: Attempt, events: seq<Event>, named: Option<string>, completed: bool)
    ensures After(a, events + [TurnCompleted(named, completed)]) == CompleteTurn(After(a, events), named, completed)
  {
    AfterSnoc(a, events, TurnCompleted(named, completed));
  }

  lemma AfterAdmit(a: Attempt, events: seq<Event>, named: Option<string>)
    ensures After(a, events + [Admit(named)]) == AdmitNamed(After(a, events), named)
  {
    AfterSnoc(a, events, Admit(named));
  }

  // ---------- the attempt's critical sections ----------

  lemma SlotOf(a: Attempt, pid: nat)
    requires Inv(a) && pid in a.work.handlers
    ensures pid in a.work.slots <==> !a.work.handlers[pid].phase.Registered?
  {
  }

  lemma NothingSent(a: Attempt)
    requires Inv(a) && a.duty.sending.Some?
    ensures a.duty.done == []
  {
  }

  /** What the fields of an attempt hold, and what has been seen of it. */
  datatype Fields = Fields(
    turnId: Option<string>, known: set<string>, goalTerminal: bool, goalErr: Outcome, awaiting: bool, stopping: bool,
    pauseConfirmed: bool, finished: bool, calls: map<string, CallState>, slots: int, done: seq<Outcome>, log: seq<Observation>)

  ghost function FieldsOf(a: Attempt): Fields {
    Fields(a.turn, a.known, a.goalTerminal, a.goalError, a.awaiting, a.stopping, a.pauseConfirmed, a.finished,
           a.work.calls, |a.work.slots|, a.duty.done, a.log)
  }

  /** What a notification that has reached its attempt does: to the fields, and whether the attempt must finish. */
  ghost predicate Routed(goal: bool, before: Fields, after: Fields, n: Notification, finish: Option<Outcome>) {
    match n.kind
    case GoalStatus(status) =>
      if !goal || status.Other? then after == before && finish.None?
      else
        var error := if status.Complete? then Clean else GoalEnded(status);
        && after == before.(goalTerminal := true, goalErr := error, log := before.log + [Reported(status)])
        && finish == if before.turnId.None? || before.awaiting then Some(error) else None
    case TurnDone(completed, _) =>
      var seen := before.(log := before.log + [TurnEnded(n.turn, completed)]);
      if !goal then after == seen && finish == Some(if completed then Clean else Failed("turn status"))
      else if before.goalTerminal then after == seen && finish == Some(before.goalErr)
      else after == seen.(awaiting := true) && finish.None?
    case _ => after == before && finish.None?
  }

  /** Whether the fields permit the handler of a call for `turn` to start. */
  predicate Permits(now: Fields, call: string, turn: string) {
    !now.finished && now.turnId == Some(turn) && call in now.calls && now.calls[call] == CallState(false, false)
  }

  /** What every section leaves: the invariant, and the same kind of attempt. */
  ghost predicate Stands(a: Attempt, goal: bool) {
    Inv(a) && a.goal == goal && FieldsOf(a).log == a.log
  }

  /** What a permit leaves in the fields. */
  lemma PermittedFields(a: Attempt, pid: nat)
    requires Inv(a) && pid in a.work.handlers && a.work.handlers[pid].phase.Holding?
    requires Permits(FieldsOf(a), a.work.handlers[pid].call, a.work.handlers[pid].turn)
    ensures Stands(PermitCall(a, pid), a.goal)
    ensures var b, h, was := PermitCall(a, pid), a.work.handlers[pid], FieldsOf(a);
            && was.slots > 0
            && FieldsOf(b) == was.(calls := was.calls[h.call := CallState(true, false)], log := was.log + [Started(pid, h.turn)])
            && pid in b.work.handlers && b.work.handlers[pid] == h.(phase := Running)
  {
    SlotOf(a, pid);
    PermitKeepsInv(a, pid);
    hide Inv;
    assert MayStart(a, a.work.handlers[pid]);
  }

  /** What a refused permit leaves in the fields. */
  lemma RefusedFields(a: Attempt, pid: nat)
    requires Inv(a) && pid in a.work.handlers && a.work.handlers[pid].phase.Holding?
    requires !Permits(FieldsOf(a), a.work.handlers[pid].call, a.work.handlers[pid].turn)
    ensures Stands(PermitCall(a, pid), a.goal)
    ensures var b, was := PermitCall(a, pid), FieldsOf(a);
            was.slots > 0 && FieldsOf(b) == was.(slots := was.slots - 1) && pid !in b.work.handlers
  {
    SlotOf(a, pid);
    PermitKeepsInv(a, pid);
    assert !MayStart(a, a.work.handlers[pid]);
    SlotReturned(a.work, pid);
    hide Inv, Returning, MayStart, Beginning;
  }

  /** What a request that asks for a slot leaves in the fields. */
  lemma AcquireFields(a: Attempt, pid: nat)
    requires Inv(a) && pid in a.work.handlers && a.work.handlers[pid].phase.Registered?
    ensures Stands(AcquireSlot(a, pid), a.goal)
    ensures var b, was := AcquireSlot(a, pid), FieldsOf(a);
            if was.slots >= 4 then b == a
            else FieldsOf(b) == was.(slots := was.slots + 1)
                 && pid in b.work.handlers && b.work.handlers[pid] == a.work.handlers[pid].(phase := Holding)
  {
    AcquireKeepsInv(a, pid);
    SlotOf(a, pid);
    hide Inv;
    SlotTaken(a.work, pid);
    hide Acquiring;
  }

  lemma SlotReturned(w: Work, pid: nat)
    ensures var v := Returning(w, pid);
            v.calls == w.calls && pid !in v.handlers && (pid in w.slots ==> |v.slots| == |w.slots| - 1)
  {
  }

  lemma SlotTaken(w: Work, pid: nat)
    requires pid in w.handlers
    ensures var v := Acquiring(w, pid);
            && v.calls == w.calls && v.handlers == w.handlers[pid := w.handlers[pid].(phase := Holding)]
            && (pid !in w.slots ==> |v.slots| == |w.slots| + 1)
  {
  }

  /** What a handler that has returned leaves in the fields. */
  lemma LeaveFields(a: Attempt, pid: nat)
    requires Inv(a) && pid in a.work.handlers && a.work.handlers[pid].phase.Running?
    ensures Stands(LeaveCall(a, pid), a.goal)
    ensures var b, was := LeaveCall(a, pid), FieldsOf(a);
            was.slots > 0 && FieldsOf(b) == was.(slots := was.slots - 1) && pid !in b.work.handlers
  {
    LeaveKeepsInv(a, pid);
    SlotOf(a, pid);
    hide Inv;
  }

  lemma OtherAnswersAreIgnored(a: Attempt, answer: Status, unbound: bool)
    requires answer.Other?
    ensures AnswerStop(a, answer, unbound) == a
  {
  }

  /** What the answer to a stop leaves in the fields. */
  lemma AnswerFields(a: Attempt, answer: Status, unbound: bool)
    requires unbound in a.duty.stops && !answer.Other?
    ensures var b, error := AnswerStop(a, answer, unbound), if answer.Complete? then Clean else GoalEnded(answer);
            && Answered(FieldsOf(a), FieldsOf(b), answer, unbound, if unbound then Some(error) else None)
            && b.duty.captured == a.duty.captured + if unbound then {error} else {}
  {
  }

  lemma AnswerStands(a: Attempt, answer: Status, unbound: bool)
    requires Inv(a)
    ensures Stands(AnswerStop(a, answer, unbound), a.goal)
  {
    AnswerKeepsInv(a, answer, unbound);
    hide Inv;
  }

  /** What a completed turn leaves in the fields. */
  lemma CompleteFields(a: Attempt, named: Option<string>, completed: bool)
    requires Inv(a) && named in a.duty.admitted
    ensures Stands(CompleteTurn(a, named, completed), a.goal)
    ensures var b, was := CompleteTurn(a, named, completed), FieldsOf(a);
            var seen := was.(log := was.log + [TurnEnded(named, completed)]);
            if !a.goal then FieldsOf(b) == seen && b.duty.captured == a.duty.captured + {if completed then Clean else Failed("turn status")}
            else if was.goalTerminal then FieldsOf(b) == seen && b.duty.captured == a.duty.captured + {was.goalErr}
            else FieldsOf(b) == seen.(awaiting := true) && b.duty.captured == a.duty.captured
  {
    CompleteKeepsInv(a, named, completed);
    hide Inv;
  }

  /** What the status with which the server answers a stop does to the fields, and whether the attempt must finish. */
  ghost predicate Answered(before: Fields, after: Fields, answer: Status, unbound: bool, finish: Option<Outcome>) {
    if answer.Other? then after == before && finish.None?
    else
      var error := if answer.Complete? then Clean else GoalEnded(answer);
      && after == before.(goalTerminal := true, goalErr := error, log := before.log + [Reported(answer)],
                          pauseConfirmed := before.pauseConfirmed || answer.Paused?)
      && finish == if unbound then Some(error) else None
  }

  /** The same calls; those that had not started may not start any more, and those that had keep their state. */
  ghost predicate IsFenced(before: map<string, CallState>, after: map<string, CallState>) {
    && after.Keys == before.Keys
    && forall c | c in before :: after[c] == if before[c].handlerStarted then before[c] else CallState(false, true)
  }

  /** What a goal's attempt does with a notification of its thread, case by case. */
  ghost predicate GoalDispatched(before: Fields, after: Fields, n: Notification, routing: Routing, finish: Option<Outcome>) {
    if before.finished then routing.Unrouted? && after == before && finish.None?
    else if n.kind.TokenUsage? || n.turn.None? then routing.AttemptRouted? && Routed(true, before, after, n, finish)
    else if n.kind.GoalStatus? then routing.GoalRouted? && Routed(true, before, after, n, finish)
    else
      var known := n.turn.value in before.known;
      var open := !before.goalTerminal && !before.stopping;
      var bound := before.(turnId := n.turn, known := before.known + {n.turn.value}, awaiting := false,
                           log := before.log + [Bound(n.turn.value)]);
      var evidence := (n.kind.TurnDone? && n.kind.hasTurnId) || (n.kind.ItemEvent? && n.kind.agentMessage);
      if n.kind.TurnStarted? && open && (!known || before.turnId.None? || before.turnId == n.turn)
      then routing.ContinuationBound? && after == bound && finish.None?
      else if before.turnId.None? then routing.PendingBinding? && after == before && finish.None?
      else if known then routing.GoalRouted? && Routed(true, before, after, n, finish)
      else if before.awaiting && open && evidence then routing.ContinuationBound? && Routed(true, bound, after, n, finish)
      else routing.Unrouted? && after == before && finish.None?
  }

  /** An attempt's fields; `model` is the state of the step machine they implement. */
  class TurnAttempt {
    const goal: bool
    var turnId: Option<string>
    var knownTurns: set<string>
    var goalTerminal: bool
    var goalErr: Outcome
    var awaitingContinuation: bool
    var stopping: bool
    var pauseConfirmed: bool
    var finished: bool
    var toolCalls: map<string, CallState>
    var actionSlots: nat
    var done: seq<Outcome>
    ghost var model: Attempt

    ghost predicate Valid()
      reads this
    {
      Inv(model) && Implements()
    }

    ghost predicate Implements()
      reads this
    {
      goal == model.goal && Now() == FieldsOf(model)
    }

    ghost function Now(): Fields
      reads this
    {
      Fields(turnId, knownTurns, goalTerminal, goalErr, awaitingContinuation, stopping, pauseConfirmed, finished,
             toolCalls, actionSlots, done, model.log)
    }

    /** The caller may go on to finish with the error it was given, and with nothing else that is new. */
    ghost predicate Carries(before: set<Outcome>, finish: Option<Outcome>)
      reads this
    {
      model.duty.captured == before + if finish.Some? then {finish.value} else {}
    }

    constructor (goal: bool)
      ensures Valid() && model == New(goal) && this.goal == goal
      ensures Now() == Fields(None, {}, false, Clean, false, false, false, false, map[], 0, [], [])
    {
      this.goal := goal;
      turnId, knownTurns, goalTerminal, goalErr := None, {}, false, Clean;
      awaitingContinuation, stopping, pauseConfirmed, finished := false, false, false, false;
      toolCalls, actionSlots, done := map[], 0, [];
      model := New(goal);
      new;
      NewIsInv(goal);
    }

    method BindAttempt(turn: string) returns (bound: bool)
      requires Valid()
      modifies this
      ensures Valid() && model == BindTo(old(model), turn)
      ensures bound <==>
                && !old(finished) && !(goal && (old(goalTerminal) || old(stopping)))
                && !(goal && old(turnId).Some? && old(turnId) != Some(turn) && turn in old(knownTurns))
      ensures Now() == if !bound then old(Now())
                       else if goal then old(Now()).(turnId := Some(turn), known := old(knownTurns) + {turn}, awaiting := false,
                                                     log := old(model).log + [Bound(turn)])
                       else old(Now()).(turnId := Some(turn), log := old(model).log + [Bound(turn)])
    {
      hide Inv;
      BindKeepsInv(model, turn);
      model := BindTo(model, turn);
      if finished || (goal && (goalTerminal || stopping)) {
        return false;
      }
      if goal && turnId.Some? && turnId.value != turn {
        if turn in knownTurns {
          return false;
        }
      }
      turnId := Some(turn);
      if goal {
        knownTurns := knownTurns + {turn};
        awaitingContinuation := false;
      }
      return true;
    }

    /** The error with which the caller must finish, if it must. */
    method RouteGoalUpdated(status: Status) returns (finish: Option<Outcome>)
      requires Valid()
      modifies this
      ensures Valid() && model == UpdateGoal(old(model), status)
      ensures Routed(goal, old(Now()), Now(), Notification(GoalStatus(status), None), finish) && Carries(old(model).duty.captured, finish)
    {
      hide Inv;
      UpdateKeepsInv(model, status);
      model := UpdateGoal(model, status);
      if !goal || status.Other? {
        return None;
      }
      var ends := turnId.None? || awaitingContinuation;
      goalTerminal, goalErr := true, GoalError(status);
      finish := if ends then Some(goalErr) else None;
    }

    /** The check under the mutex that a notification belongs to the attempt. */
    ghost method AdmitNotification(named: Option<string>)
      requires Valid() && Belongs(model, named)
      modifies this
      ensures Valid() && model == AdmitNamed(old(model), named) && named in model.duty.admitted
      ensures Now() == old(Now()) && Carries(old(model).duty.captured, None)
    {
      hide Inv;
      AdmitKeepsInv(model, named);
      model := AdmitNamed(model, named);
    }

    method RouteTurnCompleted(named: Option<string>, completed: bool) returns (finish: Option<Outcome>)
      requires Valid() && named in model.duty.admitted
      modifies this
      ensures Valid() && model == CompleteTurn(old(model), named, completed)
      ensures Routed(goal, old(Now()), Now(), Notification(TurnDone(completed, true), named), finish)
      ensures Carries(old(model).duty.captured, finish)
    {
      hide Inv;
      CompleteFields(model, named, completed);
      var terminal, error := goalTerminal, goalErr;
      AwaitContinuation(named, completed);
      hide CompleteTurn;
      finish := if !goal then Some(if completed then Clean else Failed("turn status")) else if terminal then Some(error) else None;
    }

    /** A goal that is not over waits for its next turn. */
    method AwaitContinuation(named: Option<string>, completed: bool)
      requires Valid() && named in model.duty.admitted
      modifies this
      ensures Valid() && model == CompleteTurn(old(model), named, completed)
    {
      hide Inv;
      CompleteKeepsInv(model, named, completed);
      model := CompleteTurn(model, named, completed);
      if goal && !goalTerminal {
        awaitingContinuation := true;
      }
    }

    /** Hands a notification that belongs to the attempt to the section it concerns. */
    method RouteAttempt(n: Notification, ghost start: Attempt, ghost before: seq<Event>)
      returns (finish: Option<Outcome>, ghost events: seq<Event>)
      requires Valid() && model == After(start, before)
      requires n.kind.TurnDone? ==> Belongs(model, n.turn)
      modifies this
      ensures Valid() && model == After(start, events)
      ensures Routed(goal, old(Now()), Now(), n, finish) && Carries(old(model).duty.captured, finish)
    {
      hide Inv, After, UpdateGoal, AdmitNamed, CompleteTurn, Implements, Belongs;
      events, finish := before, None;
      match n.kind {
        case GoalStatus(status) =>
          AfterGoalUpdated(start, events, status);
          finish := RouteGoalUpdated(status);
          events := events + [GoalUpdated(status)];
        case TurnDone(completed, _) =>
          AfterAdmit(start, events, n.turn);
          AdmitNotification(n.turn);
          events := events + [Admit(n.turn)];
          AfterTurnCompleted(start, events, n.turn, completed);
          finish := RouteTurnCompleted(n.turn, completed);
          events := events + [TurnCompleted(n.turn, completed)];
        case _ =>
      }
    }

    /** What an ordinary attempt does with a notification of its thread: only its own turn, or no turn, reaches it. */
    method DispatchToTurn(n: Notification) returns (routing: Routing, finish: Option<Outcome>, ghost events: seq<Event>)
      requires Valid() && !goal
      modifies this
      ensures Valid() && model == After(old(model), events)
      ensures if routing.AttemptRouted? then Routed(goal, old(Now()), Now(), n, finish) && Carries(old(model).duty.captured, finish)
              else Now() == old(Now()) && finish.None?
      ensures routing == if (n.kind.TokenUsage? || n.turn.None?) && !old(finished) then AttemptRouted
                         else if n.turn.Some? && turnId.None? then PendingBinding
                         else if n.turn.Some? && turnId == n.turn then AttemptRouted
                         else Unrouted
    {
      hide Inv;
      ghost var start := model;
      events, finish := [], None;
      assert model == After(start, events);
      hide After;
      if !finished && (n.kind.TokenUsage? || n.turn.None?) {
        finish, events := RouteAttempt(n, start, events);
        return AttemptRouted, finish, events;
      }
      if n.turn.Some? && turnId.None? {
        return PendingBinding, None, events;
      }
      if n.turn.Some? && turnId == n.turn {
        finish, events := RouteAttempt(n, start, events);
        return AttemptRouted, finish, events;
      }
      return Unrouted, None, events;
    }

    /**
     What a goal does with a notification of its thread. A turn becomes current only through `BindAttempt`, and only
     notifications of turns that were bound once reach the goal.
     */
    method DispatchToGoal(n: Notification) returns (routing: Routing, finish: Option<Outcome>, ghost events: seq<Event>)
      requires Valid() && goal
      modifies this
      ensures Valid() && model == After(old(model), events)
      ensures GoalDispatched(old(Now()), Now(), n, routing, finish) && Carries(old(model).duty.captured, finish)
    {
      hide Inv;
      ghost var start := model;
      events, finish := [], None;
      assert model == After(start, events);
      hide After;
      if !finished && (n.kind.TokenUsage? || n.turn.None?) {
        finish, events := RouteAttempt(n, start, events);
        return AttemptRouted, finish, events;
      }
      if finished {
        return Unrouted, None, events;
      }
      if n.kind.GoalStatus? {
        finish, events := RouteAttempt(n, start, events);
        return GoalRouted, finish, events;
      }
      var turn := n.turn.value;
      var known, bound, open := turn in knownTurns, turnId.Some?, !goalTerminal && !stopping;
      if n.kind.TurnStarted? && open {
        AfterBind(start, events, turn);
        var ok := BindAttempt(turn);
        events := events + [Bind(turn)];
        if ok {
          return ContinuationBound, None, events;
        }
      }
      if !bound {
        return PendingBinding, None, events;
      }
      if !known && awaitingContinuation && open && IsContinuationEvidence(n.kind) {
        AfterBind(start, events, turn);
        var ok := BindAttempt(turn);
        events := events + [Bind(turn)];
        if ok {
          finish, events := RouteAttempt(n, start, events);
          return ContinuationBound, finish, events;
        }
      }
      if known {
        finish, events := RouteAttempt(n, start, events);
        return GoalRouted, finish, events;
      }
      return Unrouted, None, events;
    }

    /** First half of stopping a goal; the pause request is sent between the halves. */
    method StartStopping() returns (proceed: bool, unbound: bool)
      requires Valid()
      modifies this
      ensures Valid() && model == StartStop(old(model))
      ensures proceed == (goal && !pauseConfirmed && !goalTerminal) && unbound == turnId.None?
      ensures Now() == if proceed then old(Now()).(stopping := true, log := old(model).log + [Stopped]) else old(Now())
      ensures proceed ==> unbound in model.duty.stops
    {
      hide Inv;
      StopKeepsInv(model);
      model := StartStop(model);
      unbound := turnId.None?;
      if !goal || pauseConfirmed || goalTerminal {
        return false, unbound;
      }
      stopping := true;
      proceed := true;
    }

    /** Second half: the status the server answered with. */
    method AnswerStopping(answer: Status, unbound: bool) returns (finish: Option<Outcome>)
      requires Valid() && unbound in model.duty.stops
      modifies this
      ensures Valid() && model == AnswerStop(old(model), answer, unbound)
      ensures Carries(old(model).duty.captured, finish)
      ensures Answered(old(Now()), Now(), answer, unbound, finish)
    {
      hide Inv;
      if answer.Other? {
        OtherAnswersAreIgnored(model, answer, unbound);
        return None;
      }
      AnswerFields(model, answer, unbound);
      StoreAnswer(answer, unbound);
      finish := if unbound then Some(goalErr) else None;
    }

    /** The answer becomes the terminal status. */
    method StoreAnswer(answer: Status, unbound: bool)
      requires Valid() && unbound in model.duty.stops && !answer.Other?
      modifies this
      ensures Valid() && model == AnswerStop(old(model), answer, unbound)
    {
      hide Inv;
      AnswerStands(model, answer, unbound);
      AnswerFields(model, answer, unbound);
      hide AnswerStop, FieldsOf;
      model := AnswerStop(model, answer, unbound);
      goalTerminal, goalErr, pauseConfirmed := true, GoalError(answer), pauseConfirmed || answer.Paused?;
    }

    method MarkStopping() returns (first: bool)
      requires Valid()
      modifies this
      ensures Valid() && model == Interrupt(old(model))
      ensures first == !old(stopping)
      ensures Now() == if first then old(Now()).(stopping := true, log := old(model).log + [Stopped]) else old(Now())
    {
      hide Inv;
      InterruptKeepsInv(model);
      model := Interrupt(model);
      if stopping {
        return false;
      }
      stopping := true;
      first := true;
    }

    method StopForBackpressure(why: string) returns (finish: Option<Outcome>)
      requires Valid()
      modifies this
      ensures Valid() && model == Backpressure(old(model), why)
      ensures finish == (if !finished && !old(stopping) && turnId.Some? then Some(Failed(why)) else None)
      ensures Carries(old(model).duty.captured, finish)
      ensures Now() == if finish.Some? then old(Now()).(stopping := true, log := old(model).log + [Stopped]) else old(Now())
    {
      hide Inv;
      BackpressureKeepsInv(model, why);
      model := Backpressure(model, why);
      if finished || stopping || turnId.None? {
        return None;
      }
      stopping := true;
      finish := Some(Failed(why));
    }

    /** An exit of the server process, or a request it should not make, fails the attempt. */
    method CaptureFailure(reason: string) returns (finish: Outcome)
      requires Valid()
      modifies this
      ensures Valid() && model == Step(old(model), Fail(reason))
      ensures finish == Failed(reason) && Carries(old(model).duty.captured, Some(finish)) && Now() == old(Now())
    {
      hide Inv;
      CaptureKeepsInv(model, reason);
      model := model.(duty := Capture(model.duty, Failed(reason)));
      finish := Failed(reason);
    }

    /** The winner of `finish` fences off every call that has not started, and must send the result. */
    method FinishAttempt(outcome: Outcome) returns (won: bool)
      requires Valid() && outcome in model.duty.captured
      modifies this
      ensures Valid() && model == FinishWith(old(model), outcome)
      ensures won == !old(finished)
      ensures won ==> model.duty.sending == Some(outcome)
      ensures Now() == if won then old(Now()).(finished := true, calls := toolCalls, log := old(model).log + [Finished(outcome)])
                       else old(Now())
      ensures won ==> IsFenced(old(toolCalls), toolCalls)
    {
      hide Inv;
      FinishKeepsInv(model, outcome);
      model := FinishWith(model, outcome);
      if finished {
        return false;
      }
      finished := true;
      toolCalls := MarkTerminal(toolCalls);
      won := true;
    }

    method MarkTerminal(calls: map<string, CallState>) returns (marked: map<string, CallState>)
      ensures marked == (map c | c in calls :: Fence(calls[c])) && IsFenced(calls, marked)
    {
      marked := calls;
      var pending := calls.Keys;
      while pending != {}
        invariant marked.Keys == calls.Keys && pending <= calls.Keys
        invariant forall c | c in pending :: marked[c] == calls[c]
        invariant forall c | c in calls.Keys - pending :: marked[c] == Fence(calls[c])
        decreases |pending|
      {
        var c :| c in pending;
        if !marked[c].handlerStarted {
          marked := marked[c := marked[c].(terminal := true)];
        }
        pending := pending - {c};
      }
    }

    /** The channel holds one result; the one sender finds it empty. */
    method SendResult(outcome: Outcome)
      requires Valid() && model.duty.sending == Some(outcome)
      modifies this
      ensures Valid() && model == SendDone(old(model))
      ensures Now() == old(Now()).(done := [outcome], log := old(model).log + [Delivered(outcome)]) && model.duty.sending.None?
    {
      hide Inv;
      SendKeepsInv(model);
      NothingSent(model);
      model := SendDone(model);
      done := done + [outcome];
    }

    /** Registers a request that arrived for `turn`; refused after the end or for another turn. */
    method RegisterRequest(ghost pid: nat, call: string, turn: string) returns (registered: bool)
      requires Valid() && pid !in model.work.handlers
      modifies this
      ensures Valid() && model == RegisterCall(old(model), pid, call, turn)
      ensures registered == (!finished && turnId == Some(turn))
      ensures Now() == if registered && call !in old(toolCalls) then old(Now()).(calls := old(toolCalls)[call := CallState(false, false)])
                       else old(Now())
      ensures registered ==> pid in model.work.handlers && model.work.handlers[pid] == Handler(call, turn, Registered)
    {
      hide Inv;
      RegisterKeepsInv(model, pid, call, turn);
      model := RegisterCall(model, pid, call, turn);
      if finished || turnId != Some(turn) {
        return false;
      }
      if call !in toolCalls {
        toolCalls := toolCalls[call := CallState(false, false)];
      }
      registered := true;
    }

    method AcquireActionSlot(ghost pid: nat) returns (acquired: bool)
      requires Valid() && pid in model.work.handlers && model.work.handlers[pid].phase.Registered?
      modifies this
      ensures Valid() && model == AcquireSlot(old(model), pid)
      ensures acquired == (old(actionSlots) < 4)
      ensures Now() == if acquired then old(Now()).(slots := old(actionSlots) + 1) else old(Now())
      ensures acquired ==> pid in model.work.handlers
                           && model.work.handlers[pid] == old(model).work.handlers[pid].(phase := Holding)
    {
      hide Inv;
      AcquireFields(model, pid);
      hide AcquireSlot, FieldsOf;
      model := AcquireSlot(model, pid);
      if actionSlots >= SLOTS {
        return false;
      }
      actionSlots := actionSlots + 1;
      acquired := true;
    }

    /** The permit to start; a refused request gives its slot back. */
    method PermitHandler(ghost pid: nat, call: string, turn: string) returns (permitted: bool)
      requires Valid() && pid in model.work.handlers && model.work.handlers[pid] == Handler(call, turn, Holding)
      modifies this
      ensures Valid() && model == PermitCall(old(model), pid)
      ensures permitted == Permits(old(Now()), call, turn)
      ensures var was := old(Now());
              && was.slots > 0
              && Now() == if permitted then was.(calls := was.calls[call := CallState(true, false)], log := was.log + [Started(pid, turn)])
                          else was.(slots := was.slots - 1)
      ensures if permitted then pid in model.work.handlers && model.work.handlers[pid] == Handler(call, turn, Running)
              else pid !in model.work.handlers
    {
      hide Inv;
      hide PermitCall, FieldsOf;
      permitted :=
        !finished && turnId == Some(turn) && call in toolCalls
        && !toolCalls[call].terminal && !toolCalls[call].handlerStarted;
      assert permitted == Permits(Now(), call, turn);
      hide Permits;
      if permitted {
        PermittedFields(model, pid);
        toolCalls := toolCalls[call := toolCalls[call].(handlerStarted := true)];
      } else {
        RefusedFields(model, pid);
        actionSlots := actionSlots - 1;
      }
      model := PermitCall(model, pid);
    }

    /** The handler has returned; its slot is free again. */
    method ReleaseHandler(ghost pid: nat)
      requires Valid() && pid in model.work.handlers && model.work.handlers[pid].phase.Running?
      modifies this
      ensures Valid() && model == LeaveCall(old(model), pid)
      ensures old(actionSlots) > 0 && Now() == old(Now()).(slots := old(actionSlots) - 1) && pid !in model.work.handlers
    {
      hide Inv;
      LeaveFields(model, pid);
      hide LeaveCall, FieldsOf;
      model := LeaveCall(model, pid);
      actionSlots := actionSlots - 1;
    }

    /** A response was written: the call's entry is removed. */
    method HandleServerResponse(call: string, turn: string)
      requires Valid()
      modifies this
      ensures Valid() && model == RespondTo(old(model), call, turn)
      ensures Now() == if turnId == Some(turn) then old(Now()).(calls := old(toolCalls) - {call}) else old(Now())
    {
      hide Inv;
      RespondKeepsInv(model, call, turn);
      model := RespondTo(model, call, turn);
      if turnId != Some(turn) {
        return;
      }
      toolCalls := toolCalls - {call};
    }
  }
}
