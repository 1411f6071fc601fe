/**
 The result outbox of scheduled runs. Runs and deliveries are tables; each SQL statement is one atomic guarded
 step. `Deliver` calls are processes that remember only what a Go stack remembers, so a crash forgets them and
 keeps the tables. Any number of dispatchers, crashes and startup reconciliations interleave.
 */
module DeliveryOutbox {
  import opened Common
  import Text

  // ---------- tables ----------

  datatype RunState = Claimed | Queued | Running | Succeeded | Failed | Cancelled | Unknown | Skipped

  predicate Terminal(s: RunState) {
    s.Succeeded? || s.Failed? || s.Cancelled? || s.Unknown? || s.Skipped?
  }

  datatype Run = Run(state: RunState, claimToken: Option<string>, silent: bool)

  datatype Kind = ResultCard | FallbackText

  datatype Stage = Pending | InFlight

  datatype Outcome = Sent | Rejected | UnknownOutcome | Suppressed

  datatype Row = Row(runId: string, kind: Kind, stage: Option<Stage>, outcome: Option<Outcome>)

  datatype Tables = Tables(runs: map<string, Run>, deliveries: map<string, Row>)

  // ---------- statements ----------

  /** A scheduler transaction inserts a run: claimed, or already terminal for a skipped or revoked slot. */
  function InsertRun(t: Tables, runId: string, run: Run): Tables {
    if runId in t.runs then t else t.(runs := t.runs[runId := run])
  }

  predicate OwnsRun(t: Tables, runId: string, token: string, states: set<RunState>) {
    runId in t.runs && t.runs[runId].claimToken == Some(token) && t.runs[runId].state in states
  }

  function SetRunState(t: Tables, runId: string, state: RunState): Tables
    requires runId in t.runs
  {
    t.(runs := t.runs[runId := t.runs[runId].(state := state)])
  }

  function MarkQueued(t: Tables, runId: string, token: string): Tables {
    if OwnsRun(t, runId, token, {Claimed}) then SetRunState(t, runId, Queued) else t
  }

  function MarkRunning(t: Tables, runId: string, token: string): Tables {
    if OwnsRun(t, runId, token, {Queued}) then SetRunState(t, runId, Running) else t
  }

  function CompleteRun(t: Tables, runId: string, token: string, state: RunState): Tables {
    if Terminal(state) && OwnsRun(t, runId, token, {Claimed, Queued, Running}) then SetRunState(t, runId, state) else t
  }

  function ReconcileRuns(t: Tables): Tables {
    t.(runs := map id | id in t.runs :: if Terminal(t.runs[id].state) then t.runs[id] else t.runs[id].(state := Unknown))
  }

  datatype Insertion = Inserted | NoSource | Duplicate

  ghost predicate KeyTaken(t: Tables, id: string, runId: string, kind: Kind) {
    || id in t.deliveries
    || exists other :: other in t.deliveries && t.deliveries[other].runId == runId && t.deliveries[other].kind == kind
  }

  /** INSERT ... SELECT from a terminal run; a silent run is suppressed at once. */
  ghost function InsertResult(t: Tables, id: string, runId: string): (Tables, Insertion) {
    if runId !in t.runs || !Terminal(t.runs[runId].state) then (t, NoSource)
    else if KeyTaken(t, id, runId, ResultCard) then (t, Duplicate)
    else
      var row := if t.runs[runId].silent then Row(runId, ResultCard, None, Some(Suppressed))
                 else Row(runId, ResultCard, Some(Pending), None);
      (t.(deliveries := t.deliveries[id := row]), Inserted)
  }

  ghost predicate CardRejected(t: Tables, runId: string) {
    exists card :: card in t.deliveries && t.deliveries[card] == Row(runId, ResultCard, None, Some(Rejected))
  }

  /** INSERT ... SELECT from a card row whose stored outcome is rejected. */
  ghost function InsertFallback(t: Tables, id: string, runId: string): (Tables, Insertion) {
    if !CardRejected(t, runId) then (t, NoSource)
    else if KeyTaken(t, id, runId, FallbackText) then (t, Duplicate)
    else (t.(deliveries := t.deliveries[id := Row(runId, FallbackText, Some(Pending), None)]), Inserted)
  }

  predicate IsStage(t: Tables, id: string, stage: Stage) {
    id in t.deliveries && t.deliveries[id].stage == Some(stage) && t.deliveries[id].outcome.None?
  }

  function Claim(t: Tables, id: string): (Tables, bool) {
    if IsStage(t, id, Pending)
    then (t.(deliveries := t.deliveries[id := t.deliveries[id].(stage := Some(InFlight))]), true)
    else (t, false)
  }

  function Complete(t: Tables, id: string, outcome: Outcome): (Tables, bool) {
    if IsStage(t, id, InFlight)
    then (t.(deliveries := t.deliveries[id := t.deliveries[id].(stage := None, outcome := Some(outcome))]), true)
    else (t, false)
  }

  function ReconcileDeliveries(t: Tables): Tables {
    t.(deliveries := map id | id in t.deliveries ::
      if IsStage(t, id, InFlight) then t.deliveries[id].(stage := None, outcome := Some(UnknownOutcome))
      else t.deliveries[id])
  }

  // ---------- the repository object ----------

  datatype Intent = Intent(id: string, outcome: Option<Outcome>)

  /** Exactly the holder of the token moves a run, from one of the given states, and no other run. */
  ghost predicate MovesRun(before: map<string, Run>, after: map<string, Run>, ok: bool, runId: string, token: string,
                           from: set<RunState>, to: RunState)
  {
    && (ok <==> runId in before && before[runId].claimToken == Some(token) && before[runId].state in from)
    && after == if ok then before[runId := before[runId].(state := to)] else before
  }

  /** The run is over: it is neither waiting nor running. */
  ghost predicate IsOver(runs: map<string, Run>, runId: string) {
    runId in runs && runs[runId].state !in {Claimed, Queued, Running}
  }

  ghost predicate IsFree(deliveries: map<string, Row>, id: string, runId: string, kind: Kind) {
    && id !in deliveries
    && forall x | x in deliveries :: deliveries[x].runId != runId || deliveries[x].kind != kind
  }

  /** The repository: its statements change the tables exactly as the functions above say. */
  class Repository {
    var runs: map<string, Run>
    var deliveries: map<string, Row>

    ghost function View(): Tables
      reads this
    {
      Tables(runs, deliveries)
    }

    constructor ()
      ensures View() == Tables(map[], map[])
    {
      runs, deliveries := map[], map[];
    }

    method MarkRunQueued(runId: string, token: string) returns (ok: bool)
      modifies this
      ensures View() == MarkQueued(old(View()), runId, token)
      ensures deliveries == old(deliveries) && MovesRun(old(runs), runs, ok, runId, token, {Claimed}, Queued)
    {
      ok := runId in runs && runs[runId].claimToken == Some(token) && runs[runId].state == Claimed;
      if ok { runs := runs[runId := runs[runId].(state := Queued)]; }
    }

    method MarkRunRunning(runId: string, token: string) returns (ok: bool)
      modifies this
      ensures View() == MarkRunning(old(View()), runId, token)
      ensures deliveries == old(deliveries) && MovesRun(old(runs), runs, ok, runId, token, {Queued}, Running)
    {
      ok := runId in runs && runs[runId].claimToken == Some(token) && runs[runId].state == Queued;
      if ok { runs := runs[runId := runs[runId].(state := Running)]; }
    }

    method FinishRun(runId: string, token: string, state: RunState) returns (ok: bool)
      modifies this
      ensures View() == CompleteRun(old(View()), runId, token, state)
      ensures deliveries == old(deliveries)
      ensures if state in {Claimed, Queued, Running} then !ok && runs == old(runs)
              else MovesRun(old(runs), runs, ok, runId, token, {Claimed, Queued, Running}, state)
    {
      ok := && Terminal(state) && runId in runs && runs[runId].claimToken == Some(token)
            && runs[runId].state in {Claimed, Queued, Running};
      if ok { runs := runs[runId := runs[runId].(state := state)]; }
    }

    method ReconcileInterruptedRuns()
      modifies this
      ensures View() == ReconcileRuns(old(View()))
      ensures deliveries == old(deliveries) && runs.Keys == old(runs).Keys
      ensures forall id | id in runs ::
                runs[id] == if IsOver(old(runs), id) then old(runs)[id] else old(runs)[id].(state := Unknown)
    {
      runs := map id | id in runs :: if Terminal(runs[id].state) then runs[id] else runs[id].(state := Unknown);
    }

    /** The statement followed by the read that both the new and the duplicate case end in. */
    method CreateResultDelivery(runId: string, newId: string) returns (r: Option<Intent>)
      modifies this
      ensures View() == InsertResult(old(View()), newId, runId).0
      ensures runs == old(runs)
      ensures deliveries == if !IsOver(runs, runId) || !IsFree(old(deliveries), newId, runId, ResultCard) then old(deliveries)
                            else if runs[runId].silent then old(deliveries)[newId := Row(runId, ResultCard, None, Some(Suppressed))]
                            else old(deliveries)[newId := Row(runId, ResultCard, Some(Pending), None)]
      ensures r.Some? <==> IsOver(runs, runId) && exists id :: RowIs(View(), id, runId, ResultCard)
      ensures InsertResult(old(View()), newId, runId).1.NoSource? ==> r.None?
      ensures InsertResult(old(View()), newId, runId).1.Inserted? ==> r.Some?
      ensures HasEnded(old(View()), runId) && r.None? ==> forall id :: !RowIs(View(), id, runId, ResultCard)
      ensures r.Some? ==> r.value.id in deliveries && deliveries[r.value.id].runId == runId
                          && deliveries[r.value.id].kind == ResultCard && r.value.outcome == deliveries[r.value.id].outcome
    {
      if runId !in runs || !Terminal(runs[runId].state) {
        return None;
      }
      var taken := newId in deliveries
                   || exists other :: other in deliveries && deliveries[other].runId == runId && deliveries[other].kind == ResultCard;
      if !taken {
        deliveries := deliveries[newId := if runs[runId].silent then Row(runId, ResultCard, None, Some(Suppressed))
                                          else Row(runId, ResultCard, Some(Pending), None)];
        assert deliveries[newId].runId == runId;
      }
      if id :| id in deliveries && deliveries[id].runId == runId && deliveries[id].kind == ResultCard {
        assert RowIs(View(), id, runId, ResultCard);
        return Some(Intent(id, deliveries[id].outcome));
      }
      return None;
    }

    method ClaimDelivery(id: string) returns (won: bool)
      modifies this
      ensures (View(), won) == Claim(old(View()), id)
      ensures runs == old(runs)
      ensures won <==> id in old(deliveries) && old(deliveries)[id].stage == Some(Pending) && old(deliveries)[id].outcome.None?
      ensures deliveries == if won then old(deliveries)[id := old(deliveries)[id].(stage := Some(InFlight))] else old(deliveries)
    {
      won := id in deliveries && deliveries[id].stage == Some(Pending) && deliveries[id].outcome.None?;
      if won { deliveries := deliveries[id := deliveries[id].(stage := Some(InFlight))]; }
    }

    method CompleteDelivery(id: string, outcome: Outcome) returns (won: bool)
      requires !outcome.Suppressed?
      modifies this
      ensures (View(), won) == Complete(old(View()), id, outcome)
      ensures runs == old(runs)
      ensures won <==> id in old(deliveries) && old(deliveries)[id].stage == Some(InFlight) && old(deliveries)[id].outcome.None?
      ensures deliveries == if won then old(deliveries)[id := old(deliveries)[id].(stage := None, outcome := Some(outcome))]
                            else old(deliveries)
    {
      won := id in deliveries && deliveries[id].stage == Some(InFlight) && deliveries[id].outcome.None?;
      if won { deliveries := deliveries[id := deliveries[id].(stage := None, outcome := Some(outcome))]; }
    }

    method CreateFallbackAfterRejected(runId: string, newId: string) returns (r: Option<Intent>)
      modifies this
      ensures View() == InsertFallback(old(View()), newId, runId).0
      ensures runs == old(runs)
      ensures var rejected := exists x :: x in old(deliveries) && old(deliveries)[x] == Row(runId, ResultCard, None, Some(Rejected));
              && deliveries == (if rejected && IsFree(old(deliveries), newId, runId, FallbackText)
                                then old(deliveries)[newId := Row(runId, FallbackText, Some(Pending), None)] else old(deliveries))
              && (r.Some? <==> rejected && exists id :: RowIs(View(), id, runId, FallbackText))
      ensures InsertFallback(old(View()), newId, runId).1.NoSource? ==> r.None?
      ensures InsertFallback(old(View()), newId, runId).1.Inserted? ==> r == Some(Intent(newId, None))
      ensures r.Some? ==> r.value.id in deliveries && deliveries[r.value.id].runId == runId
                          && deliveries[r.value.id].kind == FallbackText && r.value.outcome == deliveries[r.value.id].outcome
    {
      if !exists card :: card in deliveries && deliveries[card] == Row(runId, ResultCard, None, Some(Rejected)) {
        return None;
      }
      if newId in deliveries
         || exists other :: other in deliveries && deliveries[other].runId == runId && deliveries[other].kind == FallbackText {
        if id :| id in deliveries && deliveries[id].runId == runId && deliveries[id].kind == FallbackText {
          assert RowIs(View(), id, runId, FallbackText);
          return Some(Intent(id, deliveries[id].outcome));
        }
        return None;
      }
      deliveries := deliveries[newId := Row(runId, FallbackText, Some(Pending), None)];
      assert RowIs(View(), newId, runId, FallbackText);
      return Some(Intent(newId, None));
    }

    method ReconcileInFlightDeliveries()
      modifies this
      ensures View() == ReconcileDeliveries(old(View()))
      ensures runs == old(runs) && deliveries.Keys == old(deliveries).Keys
      ensures forall id | id in deliveries ::
                deliveries[id] == if old(deliveries)[id].stage == Some(InFlight) && old(deliveries)[id].outcome.None?
                                  then old(deliveries)[id].(stage := None, outcome := Some(UnknownOutcome)) else old(deliveries)[id]
    {
      deliveries := map id | id in deliveries ::
        if deliveries[id].stage == Some(InFlight) && deliveries[id].outcome.None?
        then deliveries[id].(stage := None, outcome := Some(UnknownOutcome)) else deliveries[id];
    }
  }

  // ---------- dispatchers ----------

  datatype SendError = NoError | CommandRejected | OtherError

  function Classify(e: SendError): Outcome {
    match e
    case NoError => Sent
    case CommandRejected => Rejected
    case OtherError => UnknownOutcome
  }

  /** What is stored for a send: a message that cannot be audited counts as unknown, never as retryable. */
  function Recorded(e: SendError, auditable: bool): Outcome {
    if Classify(e).Sent? && !auditable then UnknownOutcome else Classify(e)
  }

  /** Where a `Deliver` call stands, with the locals it still needs. */
  datatype Dispatcher =
    | Starting(runId: string)
    | Loading(runId: string, kind: Kind)
    | Intended(runId: string, kind: Kind, id: string)
    | Holding(runId: string, kind: Kind, id: string)
    | Reporting(runId: string, kind: Kind, id: string, recorded: Outcome)
    | FallingBack(runId: string)

  /** One external send, with the platform's own answer to it. */
  datatype Send = Send(runId: string, kind: Kind, id: string, answer: SendError)

  /** A send the user may have seen: anything the platform did not explicitly reject. */
  predicate Visible(s: Send) {
    !s.answer.CommandRejected?
  }

  datatype System = System(tables: Tables, calls: map<nat, Dispatcher>, sends: seq<Send>)

  datatype Event =
    | NewRun(runId: string, run: Run)
    | QueueRun(runId: string, token: string)
    | StartRun(runId: string, token: string)
    | EndRun(runId: string, token: string, state: RunState)
    | RestartRuns
    | RestartDeliveries
    | Deliver(pid: nat, runId: string)
    | InsertResultRow(pid: nat, newId: string)
    | LoadRow(pid: nat, id: string)
    | ClaimRow(pid: nat)
    | SendMessage(pid: nat, error: SendError, auditable: bool)
    | CompleteRow(pid: nat)
    | InsertFallbackRow(pid: nat, newId: string)
    | Abort(pid: nat)
    | Crash

  ghost function At(s: System, pid: nat, d: Dispatcher): System {
    s.(calls := s.calls[pid := d])
  }

  ghost function Return(s: System, pid: nat): System {
    s.(calls := s.calls - {pid})
  }

  /** What the scheduler, the workers and startup reconciliation do to the run table. */
  ghost function RunStep(t: Tables, e: Event): Tables {
    match e
    case NewRun(runId, run) => InsertRun(t, runId, run)
    case QueueRun(runId, token) => MarkQueued(t, runId, token)
    case StartRun(runId, token) => MarkRunning(t, runId, token)
    case EndRun(runId, token, state) => CompleteRun(t, runId, token, state)
    case RestartRuns => ReconcileRuns(t)
    case _ => t
  }

  /** What a dispatcher inside `Deliver` does next. */
  ghost function CallStep(s: System, pid: nat, e: Event): System
    requires pid in s.calls
  {
    var d := s.calls[pid];
    if e.InsertResultRow? && d.Starting? then StepInsertResult(s, pid, e.newId)
    else if e.LoadRow? && d.Loading? then StepLoad(s, pid, e.id)
    else if e.ClaimRow? && d.Intended? then StepClaim(s, pid)
    else if e.SendMessage? && d.Holding? then StepSend(s, pid, e.error, e.auditable)
    else if e.CompleteRow? && d.Reporting? then StepComplete(s, pid)
    else if e.InsertFallbackRow? && d.FallingBack? then StepInsertFallback(s, pid, e.newId)
    else if e.Abort? then Return(s, pid)
    else s
  }

  predicate IsCallEvent(e: Event) {
    || e.InsertResultRow? || e.LoadRow? || e.ClaimRow? || e.SendMessage? || e.CompleteRow? || e.InsertFallbackRow?
    || e.Abort?
  }

  /** One step of one actor; an event whose guard fails changes nothing. */
  ghost function Step(s: System, e: Event): System {
    if IsCallEvent(e) then (if e.pid in s.calls then CallStep(s, e.pid, e) else s)
    else if e.Deliver? then (if e.pid in s.calls then s else At(s, e.pid, Starting(e.runId)))
    else if e.Crash? then s.(calls := map[])
    else if e.RestartDeliveries? then s.(tables := ReconcileDeliveries(s.tables))
    else s.(tables := RunStep(s.tables, e))
  }

  ghost function StepInsertResult(s: System, pid: nat, newId: string): System
    requires pid in s.calls && s.calls[pid].Starting?
  {
    var (tables, insertion) := InsertResult(s.tables, newId, s.calls[pid].runId);
    if insertion.NoSource? then Return(s, pid)
    else At(s.(tables := tables), pid, Loading(s.calls[pid].runId, ResultCard))
  }

  /** The SELECT by run, kind and attempt returned the row `id`; a suppressed card ends the call. */
  ghost function StepLoad(s: System, pid: nat, id: string): System
    requires pid in s.calls && s.calls[pid].Loading?
  {
    var Loading(runId, kind) := s.calls[pid];
    if id !in s.tables.deliveries || s.tables.deliveries[id].runId != runId || s.tables.deliveries[id].kind != kind then s
    else if kind.ResultCard? && s.tables.deliveries[id].outcome == Some(Suppressed) then Return(s, pid)
    else At(s, pid, Intended(runId, kind, id))
  }

  ghost function StepClaim(s: System, pid: nat): System
    requires pid in s.calls && s.calls[pid].Intended?
  {
    var Intended(runId, kind, id) := s.calls[pid];
    var (tables, won) := Claim(s.tables, id);
    if won then At(s.(tables := tables), pid, Holding(runId, kind, id)) else Return(s, pid)
  }

  ghost function StepSend(s: System, pid: nat, error: SendError, auditable: bool): System
    requires pid in s.calls && s.calls[pid].Holding?
  {
    var Holding(runId, kind, id) := s.calls[pid];
    At(s.(sends := s.sends + [Send(runId, kind, id, error)]), pid,
       Reporting(runId, kind, id, Recorded(error, auditable)))
  }

  ghost function StepComplete(s: System, pid: nat): System
    requires pid in s.calls && s.calls[pid].Reporting?
  {
    var Reporting(runId, kind, id, recorded) := s.calls[pid];
    var (tables, won) := Complete(s.tables, id, recorded);
    if won && kind.ResultCard? && recorded.Rejected? then At(s.(tables := tables), pid, FallingBack(runId))
    else Return(s.(tables := tables), pid)
  }

  ghost function StepInsertFallback(s: System, pid: nat, newId: string): System
    requires pid in s.calls && s.calls[pid].FallingBack?
  {
    var runId := s.calls[pid].runId;
    var (tables, insertion) := InsertFallback(s.tables, newId, runId);
    match insertion
    case NoSource => Return(s, pid)
    case Duplicate => At(s, pid, Loading(runId, FallbackText))
    case Inserted => At(s.(tables := tables), pid, Intended(runId, FallbackText, newId))
  }

  const EMPTY := System(Tables(map[], map[]), map[], [])

  ghost function Steps(s: System, events: seq<Event>): System {
    if events == [] then s else Step(Steps(s, events[..|events| - 1]), events[|events| - 1])
  }

  /** The state after a whole history of interleaved events. */
  ghost function After(events: seq<Event>): System {
    Steps(EMPTY, events)
  }

  lemma StepsSnoc(s: System, events: seq<Event>, e: Event)
    ensures Steps(s, events + [e]) == Step(Steps(s, events), e)
  {
    assert (events + [e])[..|events + [e]| - 1] == events;
  }

  // ---------- the invariant ----------

  ghost predicate RowIs(t: Tables, id: string, runId: string, kind: Kind) {
    id in t.deliveries && t.deliveries[id].runId == runId && t.deliveries[id].kind == kind
  }

  ghost predicate KeysUnique(t: Tables) {
    forall a, b | a in t.deliveries && b in t.deliveries ::
      t.deliveries[a].runId == t.deliveries[b].runId && t.deliveries[a].kind == t.deliveries[b].kind ==> a == b
  }

  ghost predicate RowsOk(t: Tables) {
    forall id | id in t.deliveries ::
      var row := t.deliveries[id];
      && row.runId in t.runs && Terminal(t.runs[row.runId].state)
      && (row.stage.None? <==> row.outcome.Some?)
      && (row.kind.FallbackText? ==> CardRejected(t, row.runId))
      && (t.runs[row.runId].silent ==> row == Row(row.runId, ResultCard, None, Some(Suppressed)))
      && (row.outcome == Some(Suppressed) ==> t.runs[row.runId].silent)
  }

  /** The row left the pending stage through a claim; a suppressed row never does. */
  predicate WasClaimed(row: Row) {
    row.stage != Some(Pending) && row.outcome != Some(Suppressed)
  }

  /** Every send belongs to a row that has left the pending stage, and no row is sent twice. */
  ghost predicate SendsOk(t: Tables, sends: seq<Send>) {
    && (forall i | 0 <= i < |sends| ::
          && RowIs(t, sends[i].id, sends[i].runId, sends[i].kind)
          && WasClaimed(t.deliveries[sends[i].id]))
    && (forall i, j :: 0 <= i < j < |sends| ==> sends[i].id != sends[j].id)
  }

  ghost predicate SentAs(sends: seq<Send>, id: string, answer: SendError) {
    exists i :: 0 <= i < |sends| && sends[i].id == id && sends[i].answer == answer
  }

  /** A stored rejection is backed by a send the platform rejected, and a stored success by one it accepted. */
  ghost predicate OutcomesOk(t: Tables, sends: seq<Send>) {
    forall id | id in t.deliveries && t.deliveries[id].outcome.Some? :: Backed(sends, id, t.deliveries[id].outcome.value)
  }

  ghost predicate Backed(sends: seq<Send>, id: string, outcome: Outcome) {
    && (outcome.Rejected? ==> SentAs(sends, id, CommandRejected))
    && (outcome.Sent? ==> SentAs(sends, id, NoError))
  }

  /** A fallback is sent only after a rejected card of the same run. */
  ghost predicate FallbacksOk(sends: seq<Send>) {
    forall j | 0 <= j < |sends| && sends[j].kind.FallbackText? ::
      exists i :: 0 <= i < j && sends[i].runId == sends[j].runId && sends[i].kind.ResultCard? && sends[i].answer.CommandRejected?
  }

  ghost predicate CallOk(s: System, d: Dispatcher) {
    match d
    case Starting(_) => true
    case Loading(_, _) => true
    case FallingBack(_) => true
    case Intended(runId, kind, id) => RowIs(s.tables, id, runId, kind)
    case Holding(runId, kind, id) =>
      && RowIs(s.tables, id, runId, kind) && WasClaimed(s.tables.deliveries[id])
      && forall i | 0 <= i < |s.sends| :: s.sends[i].id != id
    case Reporting(runId, kind, id, recorded) =>
      RowIs(s.tables, id, runId, kind) && !recorded.Suppressed? && Backed(s.sends, id, recorded)
  }

  ghost predicate CallsOk(s: System) {
    && (forall p | p in s.calls :: CallOk(s, s.calls[p]))
    && (forall p, q :: p in s.calls && q in s.calls && s.calls[p].Holding? && s.calls[q].Holding? && p != q
                       ==> s.calls[p].id != s.calls[q].id)
  }

  ghost predicate Inv(s: System) {
    && KeysUnique(s.tables) && RowsOk(s.tables)
    && SendsOk(s.tables, s.sends) && OutcomesOk(s.tables, s.sends) && FallbacksOk(s.sends)
    && CallsOk(s)
  }

  // ---------- every step keeps it ----------

  /** Run updates never touch a terminal run, so they disturb no delivery. */
  lemma RunChange(s: System, t: Tables)
    requires Inv(s) && t.deliveries == s.tables.deliveries
    requires forall r | r in s.tables.runs && Terminal(s.tables.runs[r].state) :: r in t.runs && t.runs[r] == s.tables.runs[r]
    ensures Inv(s.(tables := t))
  {
    forall r | CardRejected(s.tables, r) ensures CardRejected(t, r) {
    }
  }

  /** What may be inserted: a row of a terminal run under a free key. */
  ghost predicate Insertable(t: Tables, id: string, row: Row) {
    && !KeyTaken(t, id, row.runId, row.kind)
    && row.runId in t.runs && Terminal(t.runs[row.runId].state)
    && (row.stage.None? <==> row.outcome.Some?)
    && (row.kind.FallbackText? ==> CardRejected(t, row.runId))
    && (t.runs[row.runId].silent ==> row == Row(row.runId, ResultCard, None, Some(Suppressed)))
    && (row.outcome == Some(Suppressed) ==> t.runs[row.runId].silent)
    && (row.outcome.None? || row.outcome == Some(Suppressed))
  }

  ghost function WithRow(t: Tables, id: string, row: Row): Tables {
    t.(deliveries := t.deliveries[id := row])
  }

  lemma InsertKeepsKeys(t: Tables, id: string, row: Row)
    requires KeysUnique(t) && !KeyTaken(t, id, row.runId, row.kind)
    ensures KeysUnique(WithRow(t, id, row))
  {
    var u := WithRow(t, id, row);
    assert forall x | x in t.deliveries :: !(t.deliveries[x].runId == row.runId && t.deliveries[x].kind == row.kind);
    hide KeyTaken;
    assert forall x | x in u.deliveries && x != id :: x in t.deliveries && u.deliveries[x] == t.deliveries[x];
  }

  lemma InsertKeepsRejections(t: Tables, id: string, row: Row, runId: string)
    requires id !in t.deliveries
    ensures CardRejected(t, runId) ==> CardRejected(WithRow(t, id, row), runId)
  {
    if CardRejected(t, runId) {
      var card :| card in t.deliveries && t.deliveries[card] == Row(runId, ResultCard, None, Some(Rejected));
      assert WithRow(t, id, row).deliveries[card] == t.deliveries[card];
    }
  }

  lemma InsertKeepsRows(t: Tables, id: string, row: Row)
    requires KeysUnique(t) && RowsOk(t) && Insertable(t, id, row)
    ensures KeysUnique(WithRow(t, id, row)) && RowsOk(WithRow(t, id, row))
  {
    var u := WithRow(t, id, row);
    InsertKeepsKeys(t, id, row);
    forall r ensures CardRejected(t, r) ==> CardRejected(u, r) {
      InsertKeepsRejections(t, id, row, r);
    }
    hide CardRejected, Terminal, KeyTaken, KeysUnique;
    forall x | x in u.deliveries && x != id ensures x in t.deliveries && u.deliveries[x] == t.deliveries[x] {}
  }

  /** Rows that stay as they are keep every call and send as it is. */
  lemma InsertKeepsCalls(s: System, id: string, row: Row)
    requires CallsOk(s) && SendsOk(s.tables, s.sends) && OutcomesOk(s.tables, s.sends)
    requires id !in s.tables.deliveries && (row.outcome.None? || row.outcome == Some(Suppressed))
    ensures var u := s.(tables := WithRow(s.tables, id, row));
            CallsOk(u) && SendsOk(u.tables, u.sends) && OutcomesOk(u.tables, u.sends)
  {
    hide SentAs, WasClaimed;
    var u := WithRow(s.tables, id, row);
    assert forall x | x in s.tables.deliveries :: x in u.deliveries && u.deliveries[x] == s.tables.deliveries[x];
  }

  lemma InsertRow(s: System, id: string, row: Row)
    requires Inv(s) && Insertable(s.tables, id, row)
    ensures Inv(s.(tables := WithRow(s.tables, id, row)))
  {
    InsertKeepsRows(s.tables, id, row);
    InsertKeepsCalls(s, id, row);
  }

  /** Rows only move forward: pending to in flight to a final outcome. */
  ghost predicate RowAdvanced(before: Row, after: Row) {
    && after.runId == before.runId && after.kind == before.kind
    && (before.stage.None? ==> after == before)
    && (after.stage == Some(Pending) ==> before.stage == Some(Pending))
    && (after.stage.None? <==> after.outcome.Some?)
    && (before.stage.Some? ==> after.outcome != Some(Suppressed))
  }

  lemma AdvanceRows(s: System, t: Tables)
    requires Inv(s) && t.runs == s.tables.runs && t.deliveries.Keys == s.tables.deliveries.Keys
    requires forall id | id in t.deliveries :: RowAdvanced(s.tables.deliveries[id], t.deliveries[id])
    requires OutcomesOk(t, s.sends)
    ensures Inv(s.(tables := t))
  {
    forall r | CardRejected(s.tables, r) ensures CardRejected(t, r) {
      var card :| card in s.tables.deliveries && s.tables.deliveries[card] == Row(r, ResultCard, None, Some(Rejected));
      assert t.deliveries[card] == Row(r, ResultCard, None, Some(Rejected));
    }
  }

  lemma MoveCall(s: System, pid: nat, d: Dispatcher)
    requires Inv(s) && CallOk(s, d)
    requires d.Holding? ==> forall q | q in s.calls && q != pid && s.calls[q].Holding? :: s.calls[q].id != d.id
    ensures Inv(At(s, pid, d)) && Inv(Return(s, pid))
  {
  }

  lemma ClaimKeepsInv(s: System, pid: nat)
    requires Inv(s) && pid in s.calls && s.calls[pid].Intended?
    ensures Inv(StepClaim(s, pid))
  {
    var Intended(runId, kind, id) := s.calls[pid];
    var (tables, won) := Claim(s.tables, id);
    MoveCall(s, pid, s.calls[pid]);
    if won {
      AdvanceRows(s, tables);
      MoveCall(s.(tables := tables), pid, Holding(runId, kind, id));
    }
  }

  lemma SendKeepsInv(s: System, pid: nat, error: SendError, auditable: bool)
    requires Inv(s) && pid in s.calls && s.calls[pid].Holding?
    ensures Inv(StepSend(s, pid, error, auditable))
  {
    var sent := StepSend(s, pid, error, auditable).sends;
    forall x, v | SentAs(s.sends, x, v) ensures SentAs(sent, x, v) {
      var i :| 0 <= i < |s.sends| && s.sends[i].id == x && s.sends[i].answer == v;
      assert sent[i] == s.sends[i];
    }
    FallbackSend(s, pid, error);
    SendKeepsCalls(s, pid, error, auditable);
  }

  lemma SendKeepsCalls(s: System, pid: nat, error: SendError, auditable: bool)
    requires Inv(s) && pid in s.calls && s.calls[pid].Holding?
    ensures CallsOk(StepSend(s, pid, error, auditable))
  {
    hide KeysUnique, RowsOk, SendsOk, OutcomesOk, FallbacksOk;
    var s' := StepSend(s, pid, error, auditable);
    forall p | p in s'.calls && p != pid ensures CallOk(s', s'.calls[p]) {
      SendKeepsCall(s, s', s.calls[p]);
    }
    assert s'.sends[|s.sends|].id == s.calls[pid].id;
  }

  lemma SendKeepsCall(s: System, s': System, d: Dispatcher)
    requires CallOk(s, d) && s'.tables == s.tables && |s'.sends| == |s.sends| + 1 && s.sends <= s'.sends
    requires d.Holding? ==> s'.sends[|s.sends|].id != d.id
    ensures CallOk(s', d)
  {
    if d.Reporting? && d.recorded.Rejected? {
      var i :| 0 <= i < |s.sends| && s.sends[i].id == d.id && s.sends[i].answer == CommandRejected;
      assert s'.sends[i] == s.sends[i];
    }
  }

  lemma FallbackSend(s: System, pid: nat, error: SendError)
    requires Inv(s) && pid in s.calls && s.calls[pid].Holding?
    ensures FallbacksOk(s.sends + [Send(s.calls[pid].runId, s.calls[pid].kind, s.calls[pid].id, error)])
  {
    var Holding(runId, kind, id) := s.calls[pid];
    var sent := s.sends + [Send(runId, kind, id, error)];
    if kind.FallbackText? {
      var card :| card in s.tables.deliveries && s.tables.deliveries[card] == Row(runId, ResultCard, None, Some(Rejected));
      var i :| 0 <= i < |s.sends| && s.sends[i].id == card && s.sends[i].answer == CommandRejected;
      assert sent[i].runId == runId && sent[i].kind == ResultCard;
    }
    forall j | 0 <= j < |s.sends| && sent[j].kind.FallbackText?
      ensures exists i :: 0 <= i < j && sent[i].runId == sent[j].runId && sent[i].kind.ResultCard? && sent[i].answer.CommandRejected?
    {
      var i :| 0 <= i < j && s.sends[i].runId == s.sends[j].runId && s.sends[i].kind.ResultCard? && s.sends[i].answer.CommandRejected?;
      assert sent[i] == s.sends[i];
    }
  }

  lemma CompleteKeepsInv(s: System, pid: nat)
    requires Inv(s) && pid in s.calls && s.calls[pid].Reporting?
    ensures Inv(StepComplete(s, pid))
  {
    var Reporting(runId, kind, id, recorded) := s.calls[pid];
    var (tables, won) := Complete(s.tables, id, recorded);
    AdvanceRows(s, tables);
    MoveCall(s.(tables := tables), pid, FallingBack(runId));
  }

  lemma InsertsKeepInv(s: System, pid: nat, newId: string)
    requires Inv(s) && pid in s.calls
    ensures s.calls[pid].Starting? ==> Inv(StepInsertResult(s, pid, newId))
    ensures s.calls[pid].FallingBack? ==> Inv(StepInsertFallback(s, pid, newId))
  {
    var runId := s.calls[pid].runId;
    MoveCall(s, pid, Loading(runId, FallbackText));
    if s.calls[pid].Starting? {
      var (tables, insertion) := InsertResult(s.tables, newId, runId);
      if insertion.Inserted? {
        InsertRow(s, newId, tables.deliveries[newId]);
      }
      MoveCall(s.(tables := tables), pid, Loading(runId, ResultCard));
    }
    if s.calls[pid].FallingBack? {
      var (tables, insertion) := InsertFallback(s.tables, newId, runId);
      if insertion.Inserted? {
        InsertRow(s, newId, tables.deliveries[newId]);
        MoveCall(s.(tables := tables), pid, Intended(runId, FallbackText, newId));
      }
    }
  }

  lemma CallStepKeepsInv(s: System, pid: nat, e: Event)
    requires Inv(s) && pid in s.calls
    ensures Inv(CallStep(s, pid, e))
  {
    var d := s.calls[pid];
    if e.InsertResultRow? && d.Starting? {
      InsertsKeepInv(s, pid, e.newId);
    } else if e.LoadRow? && d.Loading? {
      LoadKeepsInv(s, pid, e.id);
    } else if e.ClaimRow? && d.Intended? {
      ClaimKeepsInv(s, pid);
    } else if e.SendMessage? && d.Holding? {
      SendKeepsInv(s, pid, e.error, e.auditable);
    } else if e.CompleteRow? && d.Reporting? {
      CompleteKeepsInv(s, pid);
    } else if e.InsertFallbackRow? && d.FallingBack? {
      InsertsKeepInv(s, pid, e.newId);
    } else if e.Abort? {
      MoveCall(s, pid, Starting(""));
    }
  }

  lemma LoadKeepsInv(s: System, pid: nat, id: string)
    requires Inv(s) && pid in s.calls && s.calls[pid].Loading?
    ensures Inv(StepLoad(s, pid, id))
  {
    var Loading(runId, kind) := s.calls[pid];
    MoveCall(s, pid, s.calls[pid]);
    if RowIs(s.tables, id, runId, kind) { MoveCall(s, pid, Intended(runId, kind, id)); }
  }

  /** The run table is append-only for terminal runs. */
  lemma RunStepFreezesTerminal(t: Tables, e: Event)
    ensures RunStep(t, e).deliveries == t.deliveries
    ensures forall r | r in t.runs && Terminal(t.runs[r].state) ::
              r in RunStep(t, e).runs && RunStep(t, e).runs[r] == t.runs[r]
  {
  }

  lemma StepKeepsInv(s: System, e: Event)
    requires Inv(s)
    ensures Inv(Step(s, e))
  {
    if IsCallEvent(e) {
      if e.pid in s.calls { CallStepKeepsInv(s, e.pid, e); }
    } else if e.Deliver? {
      MoveCall(s, e.pid, Starting(e.runId));
    } else if e.Crash? {
    } else if e.RestartDeliveries? {
      AdvanceRows(s, ReconcileDeliveries(s.tables));
    } else {
      RunStepFreezesTerminal(s.tables, e);
      RunChange(s, RunStep(s.tables, e));
    }
  }

  lemma {:induction false} Reachable(events: seq<Event>)
    ensures Inv(After(events))
  {
    if events != [] {
      Reachable(events[..|events| - 1]);
      StepKeepsInv(After(events[..|events| - 1]), events[|events| - 1]);
    }
  }

  // ---------- the promises ----------

  /** In every history, two sends the user may have seen are never for the same run. */
  lemma AtMostOneVisibleSend(events: seq<Event>, i: nat, j: nat)
    requires i < |After(events).sends| && j < |After(events).sends|
    requires After(events).sends[i].runId == After(events).sends[j].runId
    requires Visible(After(events).sends[i]) && Visible(After(events).sends[j])
    ensures i == j
  {
    var sends := After(events).sends;
    if sends[i].kind == sends[j].kind {
      EachKindSentOnce(events, i, j);
    } else if sends[i].kind.ResultCard? {
      CardOfFallbackWasRejected(events, i, j);
    } else {
      CardOfFallbackWasRejected(events, j, i);
    }
  }

  lemma CardOfFallbackWasRejected(events: seq<Event>, card: nat, fallback: nat)
    requires card < |After(events).sends| && fallback < |After(events).sends|
    requires After(events).sends[card].runId == After(events).sends[fallback].runId
    requires After(events).sends[card].kind.ResultCard? && After(events).sends[fallback].kind.FallbackText?
    ensures card < fallback && After(events).sends[card].answer.CommandRejected?
  {
    Reachable(events);
    var sends := After(events).sends;
    var k :| 0 <= k < fallback && sends[k].runId == sends[fallback].runId && sends[k].kind.ResultCard? && sends[k].answer.CommandRejected?;
    EachKindSentOnce(events, k, card);
  }

  /** The card of a run is sent at most once, and so is its fallback. */
  lemma EachKindSentOnce(events: seq<Event>, i: nat, j: nat)
    requires i < |After(events).sends| && j < |After(events).sends|
    requires After(events).sends[i].runId == After(events).sends[j].runId
    requires After(events).sends[i].kind == After(events).sends[j].kind
    ensures i == j
  {
    Reachable(events);
  }

  /** A fallback follows a card that the platform rejected and that is stored as rejected. */
  lemma FallbackFollowsRejectedCard(events: seq<Event>, j: nat)
    requires j < |After(events).sends| && After(events).sends[j].kind.FallbackText?
    ensures CardRejected(After(events).tables, After(events).sends[j].runId)
    ensures exists i :: 0 <= i < j && After(events).sends[i].runId == After(events).sends[j].runId
                        && After(events).sends[i].kind.ResultCard? && After(events).sends[i].answer.CommandRejected?
  {
    Reachable(events);
  }

  lemma SilentRunSendsNothing(events: seq<Event>, runId: string, i: nat)
    requires runId in After(events).tables.runs && After(events).tables.runs[runId].silent
    requires i < |After(events).sends|
    ensures After(events).sends[i].runId != runId
  {
    Reachable(events);
  }

  /** Deliveries exist only for terminal runs, and a terminal run never changes again. */
  lemma DeliveriesNeedTerminalRuns(events: seq<Event>, id: string)
    requires id in After(events).tables.deliveries
    ensures var runId := After(events).tables.deliveries[id].runId;
            runId in After(events).tables.runs && Terminal(After(events).tables.runs[runId].state)
  {
    Reachable(events);
  }

  lemma StepFreezesTerminal(s: System, e: Event, runId: string)
    requires runId in s.tables.runs && Terminal(s.tables.runs[runId].state)
    ensures runId in Step(s, e).tables.runs && Step(s, e).tables.runs[runId] == s.tables.runs[runId]
  {
    hide RunStep;
    RunStepFreezesTerminal(s.tables, e);
    if IsCallEvent(e) && e.pid in s.calls {
      CallStepKeepsRuns(s, e.pid, e);
    }
  }

  lemma CallStepKeepsRuns(s: System, pid: nat, e: Event)
    requires pid in s.calls
    ensures CallStep(s, pid, e).tables.runs == s.tables.runs
  {
    hide KeyTaken, CardRejected, IsStage;
  }

  lemma {:induction false} TerminalRunIsFrozen(events: seq<Event>, later: seq<Event>, runId: string)
    requires runId in After(events).tables.runs && Terminal(After(events).tables.runs[runId].state)
    ensures runId in After(events + later).tables.runs
    ensures After(events + later).tables.runs[runId] == After(events).tables.runs[runId]
    decreases |later|
  {
    if later == [] {
      assert events + later == events;
    } else {
      var front := later[..|later| - 1];
      TerminalRunIsFrozen(events, front, runId);
      StepFreezesTerminal(After(events + front), later[|later| - 1], runId);
      assert (events + later)[..|events + later| - 1] == events + front;
      assert (events + later)[|events + later| - 1] == later[|later| - 1];
    }
  }

  // ---------- the dispatcher's program ----------

  datatype DeliverError = NotConfigured | NoIntent | NoRoute | NoSender | CompletionLost

  /**
   What the outside world answers during one call: whether any sender is configured at all, whether there is a route, and
   whether there is a sender for its app.
   */
  datatype Answers = Answers(newId: string, fallbackId: string, senderConfigured: bool, routeFound: bool, senderFound: bool,
                             card: SendError, cardAuditable: bool, text: SendError, textAuditable: bool)

  ghost predicate FreshIds(t: Tables, a: Answers) {
    a.newId !in t.deliveries && a.fallbackId !in t.deliveries && a.newId != a.fallbackId
  }

  /** The card of the run was not claimed yet, or does not exist yet. */
  ghost predicate CardIsFree(t: Tables, runId: string) {
    forall id | RowIs(t, id, runId, ResultCard) :: IsStage(t, id, Pending)
  }

  predicate HasEnded(t: Tables, runId: string) {
    runId in t.runs && Terminal(t.runs[runId].state)
  }

  /**
   What is stored after an answer: sent only when the platform accepted the message and it can be audited, rejected only
   when the platform rejected it, and unknown in every other case.
   */
  ghost predicate Reports(outcome: Outcome, answer: SendError, auditable: bool) {
    && (outcome.Sent? <==> answer.NoError? && auditable)
    && (outcome.Rejected? <==> answer.CommandRejected?)
    && (outcome.UnknownOutcome? <==> answer.OtherError? || (answer.NoError? && !auditable))
  }

  lemma RecordedReports(answer: SendError, auditable: bool)
    ensures Reports(Recorded(answer, auditable), answer, auditable)
  {
  }

  /** The message of row `id` went out, and an outcome that reports its answer is stored. */
  ghost predicate WentOut(t: Tables, runId: string, kind: Kind, id: string, answer: SendError, auditable: bool) {
    && RowIs(t, id, runId, kind) && t.deliveries[id].stage.None?
    && t.deliveries[id].outcome.Some? && Reports(t.deliveries[id].outcome.value, answer, auditable)
  }

  /** Nothing is sent, and a card that was free can still be claimed by a later call. */
  ghost predicate LeftAlone(s: System, u: System, runId: string, card: string) {
    u.sends == s.sends && RowIs(u.tables, card, runId, ResultCard) && (CardIsFree(s.tables, runId) <==> IsStage(u.tables, card, Pending))
  }

  /** The card is stored as suppressed, so that nobody ever sends it. */
  ghost predicate IsSuppressed(t: Tables, runId: string, card: string) {
    card in t.deliveries && t.deliveries[card] == Row(runId, ResultCard, None, Some(Suppressed))
  }

  /** What an undisturbed call achieves; `card` is the row of the run's card. */
  ghost predicate Achieves(s: System, u: System, runId: string, a: Answers, card: string, err: Option<DeliverError>) {
    var sent := Send(runId, ResultCard, card, a.card);
    var fallback := Send(runId, FallbackText, a.fallbackId, a.text);
    if Text.Blank(runId) then err == Some(NotConfigured) && u == s
    else if !HasEnded(s.tables, runId) then err == Some(NoIntent) && u == s
    else if !FreshIds(s.tables, a) then true
    else if s.tables.runs[runId].silent then err.None? && u.sends == s.sends && IsSuppressed(u.tables, runId, card)
    else if !a.senderConfigured then err == Some(NoSender) && LeftAlone(s, u, runId, card)
    else if !a.routeFound then err == Some(NoRoute) && LeftAlone(s, u, runId, card)
    else if !CardIsFree(s.tables, runId) then err.None? && u == s
    else if !a.senderFound then err == Some(NoSender) && u.sends == s.sends && IsStage(u.tables, card, InFlight)
    else
      && err.None? && WentOut(u.tables, runId, ResultCard, card, a.card, a.cardAuditable)
      && if a.card.CommandRejected?
         then u.sends == s.sends + [sent, fallback] && WentOut(u.tables, runId, FallbackText, a.fallbackId, a.text, a.textAuditable)
         else u.sends == s.sends + [sent]
  }

  lemma CallsAgain(s: System, pid: nat, d: Dispatcher, e: Dispatcher)
    requires pid !in s.calls
    ensures Return(At(s, pid, d), pid) == s && At(At(s, pid, d), pid, e) == At(s, pid, e)
  {
    assert s.calls[pid := d] - {pid} == s.calls && s.calls[pid := d][pid := e] == s.calls[pid := e];
  }

  lemma Overwrites(s: System, pid: nat, d: Dispatcher, e: Dispatcher)
    ensures Return(At(s, pid, d), pid) == Return(s, pid) && At(At(s, pid, d), pid, e) == At(s, pid, e)
  {
    assert s.calls[pid := d] - {pid} == s.calls - {pid} && s.calls[pid := d][pid := e] == s.calls[pid := e];
  }

  lemma FallbackEnds(w: System, v: System, pid: nat, runId: string, id: string, a: Answers)
    requires v == At(w.(tables := v.tables), pid, Intended(runId, FallbackText, id)) && RowIs(v.tables, id, runId, FallbackText)
    ensures IntentDone(v, pid, id, a.senderFound, a.text, a.textAuditable).calls == w.calls - {pid}
  {
    assert w.calls[pid := Intended(runId, FallbackText, id)] - {pid} == w.calls - {pid};
  }

  /** What each event of a call does where its program stands. */
  lemma ProgramStep(s: System, pid: nat, e: Event)
    requires pid in s.calls && IsCallEvent(e) && e.pid == pid
    ensures Step(s, e) == CallStep(s, pid, e)
    ensures e.Abort? ==> Step(s, e) == Return(s, pid)
    ensures e.ClaimRow? && s.calls[pid].Intended? ==> Step(s, e) == StepClaim(s, pid)
    ensures e.SendMessage? && s.calls[pid].Holding? ==> Step(s, e) == StepSend(s, pid, e.error, e.auditable)
    ensures e.CompleteRow? && s.calls[pid].Reporting? ==> Step(s, e) == StepComplete(s, pid)
    ensures e.InsertResultRow? && s.calls[pid].Starting? ==> Step(s, e) == StepInsertResult(s, pid, e.newId)
    ensures e.InsertFallbackRow? && s.calls[pid].FallingBack? ==> Step(s, e) == StepInsertFallback(s, pid, e.newId)
    ensures e.LoadRow? && s.calls[pid].Loading? ==> Step(s, e) == StepLoad(s, pid, e.id)
  {
    hide StepClaim, StepSend, StepComplete, StepInsertResult, StepInsertFallback, StepLoad;
  }

  /** The fallback row is inserted, found, or refused; an inserted one goes through the same steps as the card. */
  lemma FallbackPath(w: System, pid: nat, runId: string, a: Answers)
    requires pid in w.calls && w.calls[pid] == FallingBack(runId)
    ensures var (tables, insertion) := InsertFallback(w.tables, a.fallbackId, runId);
            var next := StepInsertFallback(w, pid, a.fallbackId);
            match insertion
            case NoSource => next == Return(w, pid)
            case Duplicate => next == At(w, pid, Loading(runId, FallbackText)) && tables == w.tables
            case Inserted =>
              && next == At(w.(tables := tables), pid, Intended(runId, FallbackText, a.fallbackId))
              && a.fallbackId in tables.deliveries
              && (a.senderFound ==>
                    IntentDone(next, pid, a.fallbackId, true, a.text, a.textAuditable) == FallbackDone(w, pid, runId, a))
    ensures forall d: Dispatcher :: At(w, pid, d).calls - {pid} == w.calls - {pid}
  {
    var (tables, insertion) := InsertFallback(w.tables, a.fallbackId, runId);
    if insertion.Inserted? {
      var row := Row(runId, FallbackText, Some(Pending), None);
      var final := Row(runId, FallbackText, None, Some(Recorded(a.text, a.textAuditable)));
      assert w.tables.deliveries[a.fallbackId := row][a.fallbackId := final] == w.tables.deliveries[a.fallbackId := final];
      assert w.calls[pid := Intended(runId, FallbackText, a.fallbackId)] - {pid} == w.calls - {pid};
    }
  }

  lemma BeginStep(s: System, pid: nat, runId: string)
    requires pid !in s.calls
    ensures Step(s, Event.Deliver(pid, runId)) == At(s, pid, Starting(runId))
  {
  }

  lemma InsertPath(s: System, pid: nat, runId: string, newId: string)
    requires pid !in s.calls
    ensures var starting := At(s, pid, Starting(runId));
            StepInsertResult(starting, pid, newId)
            == if !HasEnded(s.tables, runId) then s
               else At(s.(tables := InsertResult(s.tables, newId, runId).0), pid, Loading(runId, ResultCard))
  {
    CallsAgain(s, pid, Starting(runId), Starting(runId));
    CallsAgain(s.(tables := InsertResult(s.tables, newId, runId).0), pid, Starting(runId), Loading(runId, ResultCard));
  }

  lemma LoadPath(s: System, w: System, pid: nat, runId: string, a: Answers, card: string)
    requires pid !in s.calls && RowIs(w.tables, card, runId, ResultCard)
    requires w == At(s.(tables := InsertResult(s.tables, a.newId, runId).0), pid, Loading(runId, ResultCard))
    ensures if w.tables.deliveries[card].outcome == Some(Suppressed) then StepLoad(w, pid, card) == s.(tables := w.tables)
            else Loaded(s, StepLoad(w, pid, card), pid, runId, a, card)
  {
    CallsAgain(s.(tables := w.tables), pid, Loading(runId, ResultCard), Intended(runId, ResultCard, card));
  }

  /** Claim, send and record, one after the other. */
  lemma IntentPath(w: System, pid: nat, senderFound: bool, error: SendError, auditable: bool)
    requires pid in w.calls && w.calls[pid].Intended?
    requires RowIs(w.tables, w.calls[pid].id, w.calls[pid].runId, w.calls[pid].kind)
    ensures var id := w.calls[pid].id;
            var claimed := StepClaim(w, pid);
            var done := IntentDone(w, pid, id, senderFound, error, auditable);
            if !IsStage(w.tables, id, Pending) then claimed == done
            else
              && claimed == At(w.(tables := Claim(w.tables, id).0), pid, Holding(w.calls[pid].runId, w.calls[pid].kind, id))
              && if !senderFound then Return(claimed, pid) == done
                 else
                   var sent := StepSend(claimed, pid, error, auditable);
                   sent.calls[pid].Reporting? && IsStage(sent.tables, id, InFlight) && StepComplete(sent, pid) == done
  {
    var id := w.calls[pid].id;
    if IsStage(w.tables, id, Pending) {
      var claimed := StepClaim(w, pid);
      var row := w.tables.deliveries[id];
      assert claimed.calls - {pid} == w.calls - {pid};
      assert claimed.tables == WithRow(w.tables, id, row.(stage := Some(InFlight)));
      var sent := StepSend(claimed, pid, error, auditable);
      assert sent.calls - {pid} == w.calls - {pid};
      assert forall r: Row :: WithRow(claimed.tables, id, r) == WithRow(w.tables, id, r) by {
        forall r: Row ensures WithRow(claimed.tables, id, r) == WithRow(w.tables, id, r) {
          assert w.tables.deliveries[id := row.(stage := Some(InFlight))][id := r] == w.tables.deliveries[id := r];
        }
      }
      assert forall d: Dispatcher :: At(sent, pid, d).calls == At(w, pid, d).calls by {
        forall d: Dispatcher ensures At(sent, pid, d).calls == At(w, pid, d).calls {
          assert sent.calls[pid := d] == w.calls[pid := d];
        }
      }
    }
  }

  /** A call of `Deliver` has read the row of its card, which is not suppressed. */
  ghost predicate Loaded(s: System, w: System, pid: nat, runId: string, a: Answers, card: string) {
    && w == At(s.(tables := InsertResult(s.tables, a.newId, runId).0), pid, Intended(runId, ResultCard, card))
    && RowIs(w.tables, card, runId, ResultCard) && w.tables.deliveries[card].outcome != Some(Suppressed)
  }

  ghost predicate CardHandled(w: System, u: System, pid: nat, runId: string, a: Answers, card: string, err: Option<DeliverError>)
    requires pid in w.calls && w.calls[pid].Intended? && card in w.tables.deliveries
  {
    if !a.senderConfigured then err == Some(NoSender) && u == Return(w, pid)
    else if !a.routeFound then err == Some(NoRoute) && u == Return(w, pid)
    else
      var done := IntentDone(w, pid, card, a.senderFound, a.card, a.cardAuditable);
      if pid !in done.calls
      then u == done && err == (if IsStage(w.tables, card, Pending) && !a.senderFound then Some(NoSender) else None)
      else
        && u.calls == w.calls - {pid}
        && (InsertFallback(done.tables, a.fallbackId, runId).1.Inserted? && a.senderFound ==>
              err.None? && u == FallbackDone(done, pid, runId, a))
  }

  /** The card that was read is free exactly when it was free before, and then the run has no fallback yet. */
  lemma CardIsRead(s: System, w: System, pid: nat, runId: string, a: Answers, card: string)
    requires Inv(s) && Inv(w) && Loaded(s, w, pid, runId, a, card) && HasEnded(s.tables, runId) && FreshIds(s.tables, a)
    ensures !s.tables.runs[runId].silent && a.fallbackId !in w.tables.deliveries
    ensures CardIsFree(s.tables, runId) <==> IsStage(w.tables, card, Pending)
    ensures !CardIsFree(s.tables, runId) ==> w.tables == s.tables
    ensures CardIsFree(s.tables, runId) ==> forall x :: !RowIs(w.tables, x, runId, FallbackText)
  {
    hide CallsOk, SendsOk, OutcomesOk, FallbacksOk;
    if KeyTaken(s.tables, a.newId, runId, ResultCard) {
      assert w.tables == s.tables;
      forall id | RowIs(s.tables, id, runId, ResultCard) ensures id == card {}
    } else {
      assert RowIs(w.tables, a.newId, runId, ResultCard) && card == a.newId;
    }
    if IsStage(w.tables, card, Pending) {
      forall x ensures !RowIs(w.tables, x, runId, FallbackText) {
        FallbackNeedsRejection(w.tables, x, runId, card);
      }
    }
  }

  lemma FallbackNeedsRejection(t: Tables, x: string, runId: string, card: string)
    requires KeysUnique(t) && RowsOk(t) && RowIs(t, card, runId, ResultCard)
    ensures RowIs(t, x, runId, FallbackText) ==> t.deliveries[card] == Row(runId, ResultCard, None, Some(Rejected))
  {
    if RowIs(t, x, runId, FallbackText) {
      var other :| other in t.deliveries && t.deliveries[other] == Row(runId, ResultCard, None, Some(Rejected));
      assert other == card;
    }
  }

  lemma IntentAchieves(s: System, w: System, u: System, pid: nat, runId: string, a: Answers, card: string,
                       err: Option<DeliverError>)
    requires Inv(s) && Inv(w) && pid !in s.calls && !Text.Blank(runId) && HasEnded(s.tables, runId)
    requires Loaded(s, w, pid, runId, a, card) && CardHandled(w, u, pid, runId, a, card, err)
    ensures Achieves(s, u, runId, a, card, err) && u.calls == s.calls
  {
    CallsAgain(s.(tables := w.tables), pid, Intended(runId, ResultCard, card), Starting(""));
    if FreshIds(s.tables, a) {
      CardIsRead(s, w, pid, runId, a, card);
      hide Inv;
      if a.senderConfigured && a.routeFound && a.senderFound && CardIsFree(s.tables, runId) {
        CardAchieves(s, w, u, pid, runId, a, card, err);
      }
    }
  }

  lemma CardAchieves(s: System, w: System, u: System, pid: nat, runId: string, a: Answers, card: string, err: Option<DeliverError>)
    requires Loaded(s, w, pid, runId, a, card) && CardHandled(w, u, pid, runId, a, card, err)
    requires a.senderConfigured && a.routeFound && a.senderFound
    requires IsStage(w.tables, card, Pending) && a.fallbackId !in w.tables.deliveries
    requires forall x :: !RowIs(w.tables, x, runId, FallbackText)
    ensures err.None? && WentOut(u.tables, runId, ResultCard, card, a.card, a.cardAuditable)
    ensures var sent := Send(runId, ResultCard, card, a.card);
            var fallback := Send(runId, FallbackText, a.fallbackId, a.text);
            if a.card.CommandRejected?
            then u.sends == s.sends + [sent, fallback] && WentOut(u.tables, runId, FallbackText, a.fallbackId, a.text, a.textAuditable)
            else u.sends == s.sends + [sent]
  {
    var done := IntentDone(w, pid, card, a.senderFound, a.card, a.cardAuditable);
    assert done.tables.deliveries[card] == Row(runId, ResultCard, None, Some(Recorded(a.card, a.cardAuditable)));
    forall x | RowIs(done.tables, x, runId, FallbackText) ensures RowIs(w.tables, x, runId, FallbackText) {}
    if Recorded(a.card, a.cardAuditable).Rejected? {
      assert CardRejected(done.tables, runId);
      assert !KeyTaken(done.tables, a.fallbackId, runId, FallbackText) by {
        if exists x :: x in done.tables.deliveries && done.tables.deliveries[x].runId == runId && done.tables.deliveries[x].kind == FallbackText {
          var x :| x in done.tables.deliveries && done.tables.deliveries[x].runId == runId && done.tables.deliveries[x].kind == FallbackText;
          assert RowIs(done.tables, x, runId, FallbackText);
        }
      }
    }
  }

  /** A run that has ended has a card after the insertion; only the others leave a call without an intent. */
  lemma NoIntentAchieves(s: System, w: System, pid: nat, runId: string, a: Answers, card: string)
    requires pid !in s.calls && !Text.Blank(runId)
    requires w == if HasEnded(s.tables, runId)
                  then At(s.(tables := InsertResult(s.tables, a.newId, runId).0), pid, Loading(runId, ResultCard)) else s
    requires HasEnded(s.tables, runId) ==> forall id :: !RowIs(w.tables, id, runId, ResultCard)
    ensures Return(w, pid).calls == s.calls && Achieves(s, Return(w, pid), runId, a, card, Some(NoIntent))
  {
    assert s.calls - {pid} == s.calls;
    if HasEnded(s.tables, runId) {
      CallsAgain(s.(tables := w.tables), pid, Loading(runId, ResultCard), Starting(""));
      if a.newId !in s.tables.deliveries {
        if other :| other in s.tables.deliveries && s.tables.deliveries[other].runId == runId && s.tables.deliveries[other].kind == ResultCard {
          assert RowIs(w.tables, other, runId, ResultCard);
        } else {
          assert RowIs(w.tables, a.newId, runId, ResultCard);
        }
      }
    }
  }

  lemma SuppressedAchieves(s: System, w: System, runId: string, a: Answers, card: string)
    requires Inv(w) && w.tables == InsertResult(s.tables, a.newId, runId).0 && HasEnded(s.tables, runId) && !Text.Blank(runId)
    requires RowIs(w.tables, card, runId, ResultCard) && w.tables.deliveries[card].outcome == Some(Suppressed)
    requires w.sends == s.sends
    ensures Achieves(s, w, runId, a, card, None)
  {
    SuppressedIsSilent(s, w, runId, a, card);
  }

  /** A suppressed card belongs to a silent run. */
  lemma SuppressedIsSilent(s: System, w: System, runId: string, a: Answers, card: string)
    requires Inv(w) && w.tables == InsertResult(s.tables, a.newId, runId).0 && HasEnded(s.tables, runId)
    requires RowIs(w.tables, card, runId, ResultCard) && w.tables.deliveries[card].outcome == Some(Suppressed)
    ensures s.tables.runs[runId].silent
  {
  }

  /** Claiming, sending and recording row `id` for the call `pid` that intends to. */
  ghost function IntentDone(w: System, pid: nat, id: string, senderFound: bool, error: SendError, auditable: bool): System
    requires pid in w.calls && w.calls[pid].Intended? && id in w.tables.deliveries
  {
    var row := w.tables.deliveries[id];
    var outcome := Recorded(error, auditable);
    if !IsStage(w.tables, id, Pending) then Return(w, pid)
    else if !senderFound then Return(w.(tables := WithRow(w.tables, id, row.(stage := Some(InFlight)))), pid)
    else
      var sent := w.(tables := WithRow(w.tables, id, row.(stage := None, outcome := Some(outcome))),
                     sends := w.sends + [Send(w.calls[pid].runId, w.calls[pid].kind, id, error)]);
      if w.calls[pid].kind.ResultCard? && outcome.Rejected? then At(sent, pid, FallingBack(w.calls[pid].runId)) else Return(sent, pid)
  }

  ghost function FallbackDone(w: System, pid: nat, runId: string, a: Answers): System {
    Return(w.(tables := WithRow(w.tables, a.fallbackId, Row(runId, FallbackText, None, Some(Recorded(a.text, a.textAuditable)))),
              sends := w.sends + [Send(runId, FallbackText, a.fallbackId, a.text)]), pid)
  }

  lemma IntendedRow(w: System, pid: nat)
    requires Inv(w) && pid in w.calls && w.calls[pid].Intended?
    ensures RowIs(w.tables, w.calls[pid].id, w.calls[pid].runId, w.calls[pid].kind)
  {
    assert CallOk(w, w.calls[pid]);
  }

  /** A dispatcher: its program is a path of the step machine, one event per statement or send. */
  class ResultDeliveryDispatcher {
    const store: Repository
    ghost var world: System

    ghost predicate Valid()
      reads this, store
    {
      Inv(world) && world.tables == store.View()
    }

    constructor (store: Repository, ghost world: System)
      requires Inv(world) && world.tables == store.View()
      ensures Valid() && this.store == store && this.world == world
    {
      this.store, this.world := store, world;
    }

    ghost method Take(trace: seq<Event>, e: Event, start: System) returns (taken: seq<Event>)
      requires Inv(world) && world == Steps(start, trace)
      modifies this
      ensures world == Step(old(world), e) && Inv(world)
      ensures taken == trace + [e] && world == Steps(start, taken)
    {
      hide Inv, Step;
      StepKeepsInv(world, e);
      StepsSnoc(start, trace, e);
      world := Step(world, e);
      taken := trace + [e];
    }

    method Deliver(ghost pid: nat, runId: string, a: Answers)
      returns (err: Option<DeliverError>, ghost card: string, ghost trace: seq<Event>)
      requires Valid() && pid !in world.calls
      modifies this, store
      ensures Valid() && world == Steps(old(world), trace) && world.calls == old(world).calls
      ensures Achieves(old(world), world, runId, a, card, err)
    {
      ghost var start := world;
      trace, card := [], "";
      assert world == Steps(start, trace);
      hide Inv, Steps;
      if Text.Blank(runId) {
        return Some(NotConfigured), card, trace;
      }
      hide Step, InsertResult, StepInsertResult, StepLoad, Achieves;
      BeginStep(start, pid, runId);
      trace := Take(trace, Event.Deliver(pid, runId), start);
      ghost var starting := world;
      ProgramStep(starting, pid, InsertResultRow(pid, a.newId));
      InsertPath(start, pid, runId, a.newId);
      var intent := store.CreateResultDelivery(runId, a.newId);
      trace := Take(trace, InsertResultRow(pid, a.newId), start);
      if intent.None? {
        NoIntentAchieves(start, world, pid, runId, a, card);
        trace := AbortCall(pid, trace, start);
        return Some(NoIntent), card, trace;
      }
      card := intent.value.id;
      ProgramStep(world, pid, LoadRow(pid, card));
      LoadPath(start, world, pid, runId, a, card);
      trace := Take(trace, LoadRow(pid, card), start);
      if intent.value.outcome == Some(Suppressed) {
        SuppressedAchieves(start, world, runId, a, card);
        return None, card, trace;
      }
      ghost var loaded := world;
      err, trace := DeliverIntent(pid, runId, intent.value.id, a, start, trace);
      IntentAchieves(start, loaded, world, pid, runId, a, card, err);
    }

    /** Leaves the call, if it has not ended. */
    ghost method AbortCall(pid: nat, trace: seq<Event>, start: System) returns (taken: seq<Event>)
      requires Inv(world) && world == Steps(start, trace)
      modifies this
      ensures world == Return(old(world), pid) && Inv(world) && world == Steps(start, taken)
    {
      taken := trace;
      if pid in world.calls {
        ProgramStep(world, pid, Abort(pid));
        taken := Take(trace, Abort(pid), start);
      } else {
        assert world.calls - {pid} == world.calls;
      }
    }

    method DeliverIntent(ghost pid: nat, runId: string, id: string, a: Answers, ghost start: System, ghost before: seq<Event>)
      returns (err: Option<DeliverError>, ghost trace: seq<Event>)
      requires Valid() && world == Steps(start, before)
      requires pid in world.calls && world.calls[pid] == Intended(runId, ResultCard, id)
      modifies this, store
      ensures Valid() && world == Steps(start, trace)
      ensures CardHandled(old(world), world, pid, runId, a, id, err)
    {
      hide Inv, Steps, Step;
      IntendedRow(world, pid);
      trace := before;
      if !a.senderConfigured {
        trace := AbortCall(pid, trace, start);
        return Some(NoSender), trace;
      }
      if !a.routeFound {
        trace := AbortCall(pid, trace, start);
        return Some(NoRoute), trace;
      }
      var rejected;
      err, rejected, trace := SendIntent(pid, runId, ResultCard, id, a.senderFound, a.card, a.cardAuditable, start, trace);
      if rejected {
        err, trace := SendFallback(pid, runId, a, start, trace);
      }
    }

    /** Claim, send, record: the part `Deliver` and `sendFallback` share. */
    method SendIntent(ghost pid: nat, runId: string, kind: Kind, id: string, senderFound: bool, error: SendError,
                      auditable: bool, ghost start: System, ghost before: seq<Event>)
      returns (err: Option<DeliverError>, rejected: bool, ghost trace: seq<Event>)
      requires Valid() && world == Steps(start, before)
      requires pid in world.calls && world.calls[pid] == Intended(runId, kind, id)
      modifies this, store
      ensures Valid() && world == Steps(start, trace)
      ensures world == IntentDone(old(world), pid, id, senderFound, error, auditable)
      ensures err == if IsStage(old(world).tables, id, Pending) && !senderFound then Some(NoSender) else None
      ensures rejected == (pid in world.calls)
    {
      IntendedRow(world, pid);
      IntentPath(world, pid, senderFound, error, auditable);
      hide Inv, Steps, Step, IntentDone, StepClaim, StepComplete, StepSend, RowIs;
      ProgramStep(world, pid, ClaimRow(pid));
      var won := store.ClaimDelivery(id);
      trace := Take(before, ClaimRow(pid), start);
      if !won {
        return None, false, trace;
      }
      if !senderFound {
        trace := AbortCall(pid, trace, start);
        return Some(NoSender), false, trace;
      }
      var completed;
      completed, rejected, trace := SendClaimed(pid, runId, kind, id, error, auditable, start, trace);
      err := if completed then None else Some(CompletionLost);
    }

    method SendClaimed(ghost pid: nat, runId: string, kind: Kind, id: string, error: SendError, auditable: bool,
                       ghost start: System, ghost before: seq<Event>)
      returns (completed: bool, rejected: bool, ghost trace: seq<Event>)
      requires Valid() && world == Steps(start, before)
      requires pid in world.calls && world.calls[pid] == Holding(runId, kind, id)
      modifies this, store
      ensures Valid() && world == Steps(start, trace)
      ensures world == StepComplete(StepSend(old(world), pid, error, auditable), pid)
      ensures completed == IsStage(old(world).tables, id, InFlight) && rejected == (pid in world.calls)
    {
      hide Inv, Steps, Step;
      ProgramStep(world, pid, SendMessage(pid, error, auditable));
      trace := Take(before, SendMessage(pid, error, auditable), start);
      ProgramStep(world, pid, CompleteRow(pid));
      completed := store.CompleteDelivery(id, Recorded(error, auditable));
      trace := Take(trace, CompleteRow(pid), start);
      rejected := completed && kind.ResultCard? && Recorded(error, auditable).Rejected?;
    }

    method SendFallback(ghost pid: nat, runId: string, a: Answers, ghost start: System, ghost before: seq<Event>)
      returns (err: Option<DeliverError>, ghost trace: seq<Event>)
      requires Valid() && world == Steps(start, before)
      requires pid in world.calls && world.calls[pid] == FallingBack(runId)
      modifies this, store
      ensures Valid() && world == Steps(start, trace) && world.calls == old(world).calls - {pid}
      ensures InsertFallback(old(world).tables, a.fallbackId, runId).1.Inserted? && a.senderFound ==>
                err.None? && world == FallbackDone(old(world), pid, runId, a)
    {
      hide Inv, Steps, InsertFallback, FallbackDone, IntentDone;
      ghost var w := world;
      var id;
      id, trace := IntendFallback(pid, runId, a, start, before);
      if id.None? {
        return None, trace;
      }
      FallbackPath(w, pid, runId, a);
      FallbackEnds(w, world, pid, runId, id.value, a);
      hide StepInsertFallback;
      var rejected;
      err, rejected, trace := SendIntent(pid, runId, FallbackText, id.value, a.senderFound, a.text, a.textAuditable, start, trace);
    }

    /** Inserts the fallback row or finds the one that is there. */
    method IntendFallback(ghost pid: nat, runId: string, a: Answers, ghost start: System, ghost before: seq<Event>)
      returns (id: Option<string>, ghost trace: seq<Event>)
      requires Valid() && world == Steps(start, before)
      requires pid in world.calls && world.calls[pid] == FallingBack(runId)
      modifies this, store
      ensures Valid() && world == Steps(start, trace)
      ensures var (tables, insertion) := InsertFallback(old(world).tables, a.fallbackId, runId);
              && (insertion.Inserted? ==> id == Some(a.fallbackId))
              && (id.Some? ==> RowIs(tables, id.value, runId, FallbackText))
              && world == if id.None? then Return(old(world), pid)
                          else At(old(world).(tables := tables), pid, Intended(runId, FallbackText, id.value))
    {
      hide Inv, Steps, Step;
      ghost var w := world;
      ProgramStep(w, pid, InsertFallbackRow(pid, a.fallbackId));
      FallbackPath(w, pid, runId, a);
      hide StepInsertFallback, InsertFallback, KeyTaken, FallbackDone, IntentDone;
      var intent := store.CreateFallbackAfterRejected(runId, a.fallbackId);
      trace := Take(before, InsertFallbackRow(pid, a.fallbackId), start);
      if intent.None? {
        Overwrites(w, pid, Loading(runId, FallbackText), FallingBack(runId));
        trace := AbortCall(pid, trace, start);
        return None, trace;
      }
      id := Some(intent.value.id);
      if world.calls[pid].Loading? {
        ProgramStep(world, pid, LoadRow(pid, intent.value.id));
        trace := Take(trace, LoadRow(pid, intent.value.id), start);
      }
      Overwrites(w, pid, Loading(runId, FallbackText), Intended(runId, FallbackText, intent.value.id));
    }
  }

  // ---------- a fallback that is lost ----------

  /** The card of the run has been claimed, and no call of the run can still send or fall back. */
  ghost predicate CardIsSpent(s: System, runId: string) {
    && (exists card :: RowIs(s.tables, card, runId, ResultCard))
    && (forall card | RowIs(s.tables, card, runId, ResultCard) :: !IsStage(s.tables, card, Pending))
    && (forall p | p in s.calls && s.calls[p].runId == runId :: IsIdle(s.tables, s.calls[p]))
  }

  /** A call that will find nothing to claim, or that has no rejection of a card to store. */
  ghost predicate IsIdle(t: Tables, d: Dispatcher) {
    match d
    case Starting(_) => true
    case Loading(runId, kind) => kind.FallbackText? ==> forall x | RowIs(t, x, runId, FallbackText) :: !IsStage(t, x, Pending)
    case Intended(_, _, id) => !IsStage(t, id, Pending)
    case Holding(_, _, _) => false
    case Reporting(_, kind, id, recorded) => kind.FallbackText? || !recorded.Rejected? || !IsStage(t, id, InFlight)
    case FallingBack(runId) => exists x :: RowIs(t, x, runId, FallbackText) && !IsStage(t, x, Pending)
  }

  ghost predicate NoNewSend(s: System, u: System, runId: string) {
    s.sends <= u.sends && forall i | |s.sends| <= i < |u.sends| :: u.sends[i].runId != runId
  }

  /** The rows of the run are the same ones, none of them moves back, and those that are pending stay pending. */
  ghost predicate KeepsSpent(t: Tables, u: Tables, runId: string) {
    && (forall x, kind | RowIs(t, x, runId, kind) :: RowIs(u, x, runId, kind))
    && (forall x, kind | RowIs(u, x, runId, kind) :: RowIs(t, x, runId, kind))
    && (forall x, kind, stage | RowIs(u, x, runId, kind) && IsStage(u, x, stage) :: IsStage(t, x, stage))
    && (forall x, kind | RowIs(t, x, runId, kind) && IsStage(t, x, Pending) :: IsStage(u, x, Pending))
  }

  lemma KeepsOn(t: Tables, u: Tables, v: Tables, runId: string)
    requires KeepsSpent(t, u, runId) && KeepsSpent(u, v, runId)
    ensures KeepsSpent(t, v, runId)
  {
    hide IsStage, RowIs;
  }

  ghost predicate HasRow(t: Tables, d: Dispatcher) {
    d.Intended? || d.Holding? || d.Reporting? ==> RowIs(t, d.id, d.runId, d.kind)
  }

  /** Calls that were idle stay idle when the rows only move on. */
  lemma IdleStays(t: Tables, u: Tables, d: Dispatcher)
    requires KeepsSpent(t, u, d.runId) && IsIdle(t, d) && HasRow(t, d)
    ensures IsIdle(u, d)
  {
    hide IsStage, RowIs;
    if d.FallingBack? {
      var x :| RowIs(t, x, d.runId, FallbackText) && !IsStage(t, x, Pending);
      assert RowIs(u, x, d.runId, FallbackText);
    }
  }

  lemma SpentStays(s: System, u: System, runId: string)
    requires CardIsSpent(s, runId) && KeepsSpent(s.tables, u.tables, runId)
    requires forall p | p in u.calls && u.calls[p].runId == runId :: IsIdle(u.tables, u.calls[p])
    ensures CardIsSpent(u, runId)
  {
    hide IsStage, RowIs, IsIdle;
    var card :| RowIs(s.tables, card, runId, ResultCard);
    assert RowIs(u.tables, card, runId, ResultCard);
  }

  lemma SpentCallStep(s: System, pid: nat, e: Event, runId: string)
    requires Inv(s) && CardIsSpent(s, runId) && pid in s.calls
    ensures CardIsSpent(CallStep(s, pid, e), runId) && NoNewSend(s, CallStep(s, pid, e), runId)
    ensures KeepsSpent(s.tables, CallStep(s, pid, e).tables, runId)
  {
    var u := CallStep(s, pid, e);
    RowsOfCalls(s);
    SpentTables(s, pid, e, runId);
    SpentCalls(s, pid, e, runId);
    hide Inv, CallStep, KeepsSpent, IsIdle, HasRow;
    forall p | p in u.calls && u.calls[p].runId == runId ensures IsIdle(u.tables, u.calls[p]) {
      IdleStays(s.tables, u.tables, u.calls[p]);
    }
    SpentStays(s, u, runId);
  }

  lemma RowsOfCalls(s: System)
    requires Inv(s)
    ensures forall p | p in s.calls :: HasRow(s.tables, s.calls[p])
  {
    forall p | p in s.calls ensures CallOk(s, s.calls[p]) {}
  }

  /** A row that moves on, of this run or another, and a new row of another run. */
  lemma RowKeepsSpent(t: Tables, id: string, row: Row, runId: string)
    requires row.runId != runId || (row.stage.None? && !IsStage(t, id, Pending))
    requires id in t.deliveries ==> t.deliveries[id].runId == row.runId && t.deliveries[id].kind == row.kind
    requires id !in t.deliveries ==> row.runId != runId
    ensures KeepsSpent(t, WithRow(t, id, row), runId)
  {
  }

  lemma SpentTables(s: System, pid: nat, e: Event, runId: string)
    requires CardIsSpent(s, runId) && pid in s.calls && HasRow(s.tables, s.calls[pid])
    ensures KeepsSpent(s.tables, CallStep(s, pid, e).tables, runId)
  {
    hide KeepsSpent;
    var d, t := s.calls[pid], s.tables;
    SameRowsKeepSpent(t, t, runId);
    if e.InsertResultRow? && d.Starting? {
      var (tables, insertion) := InsertResult(t, e.newId, d.runId);
      if d.runId == runId {
        var card :| RowIs(t, card, runId, ResultCard);
        assert KeyTaken(t, e.newId, runId, ResultCard);
      } else if insertion.Inserted? {
        RowKeepsSpent(t, e.newId, tables.deliveries[e.newId], runId);
      }
    } else if e.InsertFallbackRow? && d.FallingBack? {
      var (tables, insertion) := InsertFallback(t, e.newId, d.runId);
      if d.runId == runId {
        var x :| RowIs(t, x, runId, FallbackText);
        assert KeyTaken(t, e.newId, runId, FallbackText);
      } else if insertion.Inserted? {
        RowKeepsSpent(t, e.newId, tables.deliveries[e.newId], runId);
      }
    } else if e.ClaimRow? && d.Intended? {
      if IsStage(t, d.id, Pending) {
        assert d.runId != runId;
        RowKeepsSpent(t, d.id, t.deliveries[d.id].(stage := Some(InFlight)), runId);
      }
    } else if e.CompleteRow? && d.Reporting? {
      if IsStage(t, d.id, InFlight) {
        RowKeepsSpent(t, d.id, t.deliveries[d.id].(stage := None, outcome := Some(d.recorded)), runId);
      }
    } else {
      assert CallStep(s, pid, e).tables == t;
    }
  }

  lemma SpentCalls(s: System, pid: nat, e: Event, runId: string)
    requires CardIsSpent(s, runId) && pid in s.calls && KeysUnique(s.tables)
    requires forall p | p in s.calls :: HasRow(s.tables, s.calls[p])
    ensures var u := CallStep(s, pid, e);
            && (forall p | p in u.calls && u.calls[p].runId == runId :: IsIdle(s.tables, u.calls[p]) && HasRow(s.tables, u.calls[p]))
            && NoNewSend(s, u, runId)
  {
    OnlyItsCall(s, pid, e);
    SpentCall(s, pid, e, runId);
    hide CallStep, IsIdle, HasRow, KeysUnique;
  }

  /** A step of a call leaves the other calls alone, and does not change the run it is for. */
  lemma OnlyItsCall(s: System, pid: nat, e: Event)
    requires pid in s.calls
    ensures var u := CallStep(s, pid, e);
            && u.calls - {pid} == s.calls - {pid} && (pid in u.calls ==> u.calls[pid].runId == s.calls[pid].runId)
            && (forall p | p in u.calls && p != pid :: p in s.calls && u.calls[p] == s.calls[p])
            && (u.sends == s.sends || (s.calls[pid].Holding? && s.sends <= u.sends && |u.sends| == |s.sends| + 1
                                       && u.sends[|s.sends|].runId == s.calls[pid].runId))
  {
    hide InsertResult, InsertFallback, Claim, Complete, Recorded, Classify;
  }

  lemma SpentCall(s: System, pid: nat, e: Event, runId: string)
    requires CardIsSpent(s, runId) && pid in s.calls && KeysUnique(s.tables)
    requires HasRow(s.tables, s.calls[pid])
    ensures var u := CallStep(s, pid, e);
            pid in u.calls && u.calls[pid].runId == runId ==> IsIdle(s.tables, u.calls[pid]) && HasRow(s.tables, u.calls[pid])
  {
    hide CardRejected;
    var d := s.calls[pid];
    if d.FallingBack? && d.runId == runId {
      var x :| RowIs(s.tables, x, runId, FallbackText) && !IsStage(s.tables, x, Pending);
      forall y | RowIs(s.tables, y, runId, FallbackText) ensures y == x {}
      assert e.InsertFallbackRow? ==> KeyTaken(s.tables, e.newId, runId, FallbackText);
    }
    hide KeyTaken, KeysUnique;
  }

  lemma SameRowsKeepSpent(t: Tables, u: Tables, runId: string)
    requires u.deliveries == t.deliveries
    ensures KeepsSpent(t, u, runId)
  {
  }

  lemma ReconcileKeepsSpent(t: Tables, runId: string)
    ensures KeepsSpent(t, ReconcileDeliveries(t), runId)
  {
  }

  lemma SpentStep(s: System, e: Event, runId: string)
    requires Inv(s) && CardIsSpent(s, runId)
    ensures CardIsSpent(Step(s, e), runId) && NoNewSend(s, Step(s, e), runId)
    ensures KeepsSpent(s.tables, Step(s, e).tables, runId)
  {
    if IsCallEvent(e) {
      if e.pid in s.calls { SpentCallStep(s, e.pid, e, runId); }
    } else {
      SpentOtherStep(s, e, runId);
    }
  }

  lemma SpentOtherStep(s: System, e: Event, runId: string)
    requires Inv(s) && CardIsSpent(s, runId) && !IsCallEvent(e)
    ensures CardIsSpent(Step(s, e), runId) && NoNewSend(s, Step(s, e), runId)
    ensures KeepsSpent(s.tables, Step(s, e).tables, runId)
  {
    hide RunStep, ReconcileDeliveries, KeepsSpent;
    RunStepFreezesTerminal(s.tables, e);
    var u := Step(s, e);
    if e.RestartDeliveries? {
      ReconcileKeepsSpent(s.tables, runId);
    } else {
      SameRowsKeepSpent(s.tables, u.tables, runId);
    }
    RowsOfCalls(s);
    hide Inv;
    forall p | p in u.calls && u.calls[p].runId == runId ensures IsIdle(u.tables, u.calls[p]) {
      if u.calls[p] != Starting(runId) {
        IdleStays(s.tables, u.tables, u.calls[p]);
      }
    }
    hide CardIsSpent, Step;
    SpentStays(s, u, runId);
  }

  /**
   A run whose card is spent sends nothing more, whatever happens: neither `Deliver` nor a restart tries again, and a
   fallback row that is still pending stays pending.
   */
  lemma {:induction false} SpentRunsStaySilent(s: System, later: seq<Event>, runId: string)
    requires Inv(s) && CardIsSpent(s, runId)
    ensures Inv(Steps(s, later)) && CardIsSpent(Steps(s, later), runId) && NoNewSend(s, Steps(s, later), runId)
    ensures KeepsSpent(s.tables, Steps(s, later).tables, runId)
  {
    hide Inv, CardIsSpent, Step, KeepsSpent;
    if later == [] {
      SameRowsKeepSpent(s.tables, s.tables, runId);
    } else {
      var before := Steps(s, later[..|later| - 1]);
      SpentRunsStaySilent(s, later[..|later| - 1], runId);
      SpentStep(before, later[|later| - 1], runId);
      StepKeepsInv(before, later[|later| - 1]);
      KeepsOn(s.tables, before.tables, Steps(s, later).tables, runId);
    }
  }

  /**
   A call that may still send the fallback of its run: it holds the row, or it is on the way to a row that is pending or,
   when the call has yet to insert it, missing.
   */
  ghost predicate MayFallBack(t: Tables, d: Dispatcher) {
    match d
    case Holding(_, kind, _) => kind.FallbackText?
    case Intended(_, kind, id) => kind.FallbackText? && IsStage(t, id, Pending)
    case Loading(runId, kind) => kind.FallbackText? && exists x :: RowIs(t, x, runId, FallbackText) && IsStage(t, x, Pending)
    case FallingBack(runId) => forall x | RowIs(t, x, runId, FallbackText) :: IsStage(t, x, Pending)
    case _ => false
  }

  ghost predicate FallsBack(s: System, runId: string) {
    exists p :: p in s.calls && s.calls[p].runId == runId && MayFallBack(s.tables, s.calls[p])
  }

  /** When the card is stored as rejected, no call but one that falls back can still send. */
  lemma RejectedCardIsSpent(s: System, runId: string)
    requires Inv(s) && CardRejected(s.tables, runId)
    requires !FallsBack(s, runId)
    ensures CardIsSpent(s, runId)
  {
    var card :| card in s.tables.deliveries && s.tables.deliveries[card] == Row(runId, ResultCard, None, Some(Rejected));
    assert RowIs(s.tables, card, runId, ResultCard);
    forall other | RowIs(s.tables, other, runId, ResultCard) ensures other == card {}
    RowsOfCalls(s);
    assert SentAs(s.sends, card, CommandRejected);
    forall p | p in s.calls && s.calls[p].runId == runId ensures IsIdle(s.tables, s.calls[p]) {
      assert CallOk(s, s.calls[p]) && HasRow(s.tables, s.calls[p]) && !MayFallBack(s.tables, s.calls[p]);
      RejectedIsIdle(s, s.calls[p], card);
    }
  }

  lemma RejectedIsIdle(s: System, d: Dispatcher, card: string)
    requires RowIs(s.tables, card, d.runId, ResultCard) && s.tables.deliveries[card].stage.None?
    requires forall other | RowIs(s.tables, other, d.runId, ResultCard) :: other == card
    requires CallOk(s, d) && HasRow(s.tables, d) && !MayFallBack(s.tables, d) && SentAs(s.sends, card, CommandRejected)
    ensures IsIdle(s.tables, d)
  {
  }

  ghost predicate SendsFallback(s: System, u: System, runId: string) {
    exists i :: |s.sends| <= i < |u.sends| && u.sends[i].runId == runId && u.sends[i].kind.FallbackText?
  }

  /** Some continuation sends the fallback of the run. */
  ghost predicate FallbackCanCome(s: System, runId: string) {
    exists later :: SendsFallback(s, Steps(s, later), runId)
  }

  /**
   Exactly when the fallback of a rejected card can still come: as long as a call is alive that holds the fallback row or
   is on the way to it. Nobody else ever tries again, be there no such row or one that is still pending.
   */
  lemma FallbackComesFromItsCall(s: System, runId: string)
    requires Inv(s) && CardRejected(s.tables, runId)
    ensures FallbackCanCome(s, runId) <==> FallsBack(s, runId)
    ensures !FallsBack(s, runId) ==> forall later :: NoNewSend(s, Steps(s, later), runId)
  {
    if FallsBack(s, runId) {
      RowsOfCalls(s);
      var p :| p in s.calls && s.calls[p].runId == runId && MayFallBack(s.tables, s.calls[p]);
      LiveCallFallsBack(s, p);
    } else {
      RejectedCardIsSpent(s, runId);
      forall later ensures NoNewSend(s, Steps(s, later), runId) {
        SpentRunsStaySilent(s, later, runId);
      }
    }
  }

  lemma LiveCallFallsBack(s: System, p: nat)
    requires p in s.calls && HasRow(s.tables, s.calls[p]) && MayFallBack(s.tables, s.calls[p])
    requires s.calls[p].FallingBack? ==> CardRejected(s.tables, s.calls[p].runId)
    ensures FallbackCanCome(s, s.calls[p].runId)
  {
    hide FallbackCanCome, CardRejected, Step;
    match s.calls[p] {
      case Holding(_, _, _) => HeldRowIsSent(s, p);
      case Intended(_, _, _) => IntendedRowIsSent(s, p);
      case Loading(_, _) => LoadedRowIsSent(s, p);
      case FallingBack(_) => InsertedRowIsSent(s, p);
    }
  }

  lemma HeldRowIsSent(s: System, p: nat)
    requires p in s.calls && s.calls[p].Holding? && s.calls[p].kind.FallbackText?
    ensures FallbackCanCome(s, s.calls[p].runId)
  {
    var send := SendMessage(p, NoError, true);
    ProgramStep(s, p, send);
    StepsSnoc(s, [], send);
    assert Steps(s, [] + [send]).sends[|s.sends|].runId == s.calls[p].runId;
    assert SendsFallback(s, Steps(s, [] + [send]), s.calls[p].runId);
  }

  lemma IntendedRowIsSent(s: System, p: nat)
    requires p in s.calls && s.calls[p].Intended? && s.calls[p].kind.FallbackText? && IsStage(s.tables, s.calls[p].id, Pending)
    ensures FallbackCanCome(s, s.calls[p].runId)
  {
    ProgramStep(s, p, ClaimRow(p));
    hide Step;
    HeldRowIsSent(Step(s, ClaimRow(p)), p);
    Sooner(s, ClaimRow(p), s.calls[p].runId);
  }

  lemma LoadedRowIsSent(s: System, p: nat)
    requires p in s.calls && s.calls[p].Loading? && s.calls[p].kind.FallbackText?
    requires exists x :: RowIs(s.tables, x, s.calls[p].runId, FallbackText) && IsStage(s.tables, x, Pending)
    ensures FallbackCanCome(s, s.calls[p].runId)
  {
    var x :| RowIs(s.tables, x, s.calls[p].runId, FallbackText) && IsStage(s.tables, x, Pending);
    ProgramStep(s, p, LoadRow(p, x));
    hide Step;
    IntendedRowIsSent(Step(s, LoadRow(p, x)), p);
    Sooner(s, LoadRow(p, x), s.calls[p].runId);
  }

  lemma InsertedRowIsSent(s: System, p: nat)
    requires p in s.calls && s.calls[p].FallingBack? && CardRejected(s.tables, s.calls[p].runId)
    requires forall x | RowIs(s.tables, x, s.calls[p].runId, FallbackText) :: IsStage(s.tables, x, Pending)
    ensures FallbackCanCome(s, s.calls[p].runId)
  {
    var runId := s.calls[p].runId;
    var id := FreshId(s.tables.deliveries.Keys);
    var u := Step(s, InsertFallbackRow(p, id));
    if x :| RowIs(s.tables, x, runId, FallbackText) {
      assert KeyTaken(s.tables, id, runId, FallbackText);
      ProgramStep(s, p, InsertFallbackRow(p, id));
      hide Step, KeyTaken;
      LoadedRowIsSent(u, p);
    } else {
      FallbackInserted(s, p, runId, id);
      hide Step;
      IntendedRowIsSent(u, p);
    }
    Sooner(s, InsertFallbackRow(p, id), runId);
  }

  /** What can come after a step that sends nothing could come before it. */
  lemma Sooner(s: System, e: Event, runId: string)
    requires FallbackCanCome(Step(s, e), runId) && Step(s, e).sends == s.sends
    ensures FallbackCanCome(s, runId)
  {
    hide Step;
    var later :| SendsFallback(Step(s, e), Steps(Step(s, e), later), runId);
    StepsCons(s, e, later);
    assert SendsFallback(s, Steps(s, [e] + later), runId);
  }

  lemma {:induction false} StepsCons(s: System, e: Event, later: seq<Event>)
    ensures Steps(s, [e] + later) == Steps(Step(s, e), later)
  {
    hide Step;
    var all := [e] + later;
    if later == [] {
      assert all[..0] == [] && Steps(s, []) == s;
    } else {
      assert all[..|all| - 1] == [e] + later[..|later| - 1];
      StepsCons(s, e, later[..|later| - 1]);
    }
  }

  lemma FallbackInserted(s: System, p: nat, runId: string, id: string)
    requires p in s.calls && s.calls[p] == FallingBack(runId) && id !in s.tables.deliveries
    requires CardRejected(s.tables, runId) && (forall x :: !RowIs(s.tables, x, runId, FallbackText))
    ensures var w := Step(s, InsertFallbackRow(p, id));
            && p in w.calls && w.calls[p] == Intended(runId, FallbackText, id) && w.sends == s.sends
            && RowIs(w.tables, id, runId, FallbackText) && IsStage(w.tables, id, Pending)
  {
    assert !KeyTaken(s.tables, id, runId, FallbackText) by {
      assert forall x | x in s.tables.deliveries :: !RowIs(s.tables, x, runId, FallbackText);
    }
    ProgramStep(s, p, InsertFallbackRow(p, id));
    hide Step, KeyTaken, CardRejected;
  }

  lemma {:induction false} FreshId(keys: set<string>) returns (id: string)
    ensures id !in keys
  {
    var n := LongerThan(keys);
    id := seq(n, i => 'x');
  }

  lemma {:induction false} LongerThan(keys: set<string>) returns (n: nat)
    ensures forall k | k in keys :: |k| < n
  {
    n := 0;
    if keys != {} {
      var k :| k in keys;
      n := LongerThan(keys - {k});
      n := if n <= |k| then |k| + 1 else n;
    }
  }

  /**
   A crash after the stored rejection loses a fallback that was not sent: before its insertion the row is never inserted,
   and between insertion and claim the row stays pending for ever.
   */
  lemma CrashLosesTheFallback(s: System, runId: string, later: seq<Event>)
    requires Inv(s) && CardRejected(s.tables, runId)
    ensures var w := Steps(Step(s, Crash), later);
            && NoNewSend(s, w, runId)
            && (forall x :: RowIs(w.tables, x, runId, FallbackText) <==> RowIs(s.tables, x, runId, FallbackText))
            && (forall x | RowIs(s.tables, x, runId, FallbackText) && IsStage(s.tables, x, Pending) :: IsStage(w.tables, x, Pending))
  {
    var u := Step(s, Crash);
    StepKeepsInv(s, Crash);
    hide Inv, RowIs, IsStage;
    RejectedCardIsSpent(u, runId);
    SpentRunsStaySilent(u, later, runId);
  }

  /** The second such moment exists too: the fallback row of a rejected card is there, and its call has not claimed it. */
  lemma PendingFallbackIsReachable() returns (events: seq<Event>, id: string)
    ensures var s := After(events);
            && 0 in s.calls && s.calls[0] == Intended("r", FallbackText, id) && CardRejected(s.tables, "r")
            && RowIs(s.tables, id, "r", FallbackText) && IsStage(s.tables, id, Pending)
            && s.sends == [Send("r", ResultCard, "c", CommandRejected)]
  {
    events := RejectedCardIsReachable();
    var s := After(events);
    id := FreshId(s.tables.deliveries.Keys);
    FallbackInserted(s, 0, "r", id);
    InsertKeepsRejections(s.tables, id, Row("r", FallbackText, Some(Pending), None), "r");
    ProgramStep(s, 0, InsertFallbackRow(0, id));
    StepsSnoc(EMPTY, events, InsertFallbackRow(0, id));
    events := events + [InsertFallbackRow(0, id)];
  }

  /** The first such moment exists: one run, one call, a rejected card and no fallback row. */
  lemma RejectedCardIsReachable() returns (events: seq<Event>)
    ensures var s := After(events);
            && 0 in s.calls && s.calls[0] == FallingBack("r") && CardRejected(s.tables, "r")
            && (forall x :: !RowIs(s.tables, x, "r", FallbackText))
            && s.sends == [Send("r", ResultCard, "c", CommandRejected)]
  {
    var runs := map["r" := Run(Succeeded, None, false)];
    StepsSnoc(EMPTY, [], NewRun("r", runs["r"]));
    assert map[]["r" := runs["r"]] == runs;
    LoadSteps([] + [NewRun("r", runs["r"])], runs);
    var loaded := [] + [NewRun("r", runs["r"])] + [Event.Deliver(0, "r")] + [InsertResultRow(0, "c")] + [LoadRow(0, "c")];
    SendSteps(loaded, runs);
    events := loaded + [ClaimRow(0)] + [SendMessage(0, CommandRejected, true)] + [CompleteRow(0)];
  }

  ghost function OneRow(runs: map<string, Run>, stage: Option<Stage>, outcome: Option<Outcome>): Tables {
    Tables(runs, map["c" := Row("r", ResultCard, stage, outcome)])
  }

  lemma LoadSteps(events: seq<Event>, runs: map<string, Run>)
    requires After(events) == System(Tables(runs, map[]), map[], [])
    requires "r" in runs && Terminal(runs["r"].state) && !runs["r"].silent
    ensures After(events + [Event.Deliver(0, "r")] + [InsertResultRow(0, "c")] + [LoadRow(0, "c")])
         == System(OneRow(runs, Some(Pending), None), map[0 := Intended("r", ResultCard, "c")], [])
  {
    var s, t := After(events), OneRow(runs, Some(Pending), None);
    StepsSnoc(EMPTY, events, Event.Deliver(0, "r"));
    StepsSnoc(EMPTY, events + [Event.Deliver(0, "r")], InsertResultRow(0, "c"));
    StepsSnoc(EMPTY, events + [Event.Deliver(0, "r")] + [InsertResultRow(0, "c")], LoadRow(0, "c"));
    hide Steps;
    BeginStep(s, 0, "r");
    ProgramStep(At(s, 0, Starting("r")), 0, InsertResultRow(0, "c"));
    InsertPath(s, 0, "r", "c");
    assert InsertResult(s.tables, "c", "r").0 == t;
    var loading := At(s.(tables := t), 0, Loading("r", ResultCard));
    ProgramStep(loading, 0, LoadRow(0, "c"));
    CallsAgain(s.(tables := t), 0, Loading("r", ResultCard), Intended("r", ResultCard, "c"));
    hide Step, StepInsertResult, InsertResult;
  }

  lemma SendSteps(events: seq<Event>, runs: map<string, Run>)
    requires After(events) == System(OneRow(runs, Some(Pending), None), map[0 := Intended("r", ResultCard, "c")], [])
    ensures var s := After(events + [ClaimRow(0)] + [SendMessage(0, CommandRejected, true)] + [CompleteRow(0)]);
            && 0 in s.calls && s.calls[0] == FallingBack("r") && CardRejected(s.tables, "r")
            && (forall x :: !RowIs(s.tables, x, "r", FallbackText))
            && s.sends == [Send("r", ResultCard, "c", CommandRejected)]
  {
    var s := After(events);
    var send := SendMessage(0, CommandRejected, true);
    StepsSnoc(EMPTY, events, ClaimRow(0));
    StepsSnoc(EMPTY, events + [ClaimRow(0)], send);
    StepsSnoc(EMPTY, events + [ClaimRow(0)] + [send], CompleteRow(0));
    hide Steps;
    IntentPath(s, 0, true, CommandRejected, true);
    DoneRejected(s, runs);
    hide IntentDone;
    var claimed := StepClaim(s, 0);
    ProgramStep(s, 0, ClaimRow(0));
    ProgramStep(claimed, 0, send);
    hide StepClaim;
    ProgramStep(StepSend(claimed, 0, CommandRejected, true), 0, CompleteRow(0));
    hide Step, StepSend, StepComplete;
  }

  lemma DoneRejected(s: System, runs: map<string, Run>)
    requires s == System(OneRow(runs, Some(Pending), None), map[0 := Intended("r", ResultCard, "c")], [])
    ensures var done := IntentDone(s, 0, "c", true, CommandRejected, true);
            && 0 in done.calls && done.calls[0] == FallingBack("r") && CardRejected(done.tables, "r")
            && (forall x :: !RowIs(done.tables, x, "r", FallbackText))
            && done.sends == [Send("r", ResultCard, "c", CommandRejected)]
  {
    var done := IntentDone(s, 0, "c", true, CommandRejected, true);
    assert done.tables.deliveries["c"] == Row("r", ResultCard, None, Some(Rejected));
  }
}
