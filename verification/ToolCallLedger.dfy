/**
 The durable gate in front of task mutations asked for by tool calls. The claim of a call, the task mutation and the
 stored answer are one transaction, so a call is carried out once and every repetition gets the stored answer.
 */
module ToolCallLedger {
  import opened Common
  import opened Text

  // ---------- data ----------

  datatype Identity = Identity(
    appId: string, channelKey: string, chatGroupId: string, threadId: string, turnId: string, callId: string, tool: string)

  /** The unique key of the table. */
  datatype Key = Key(appId: string, threadId: string, turnId: string, callId: string)

  function KeyOf(i: Identity): Key {
    Key(i.appId, i.threadId, i.turnId, i.callId)
  }

  predicate Complete(i: Identity) {
    && !Blank(i.appId) && !Blank(i.channelKey) && !Blank(i.chatGroupId) && !Blank(i.threadId) && !Blank(i.turnId)
    && !Blank(i.callId) && !Blank(i.tool)
  }

  datatype CallState = Claimed | InFlight | Succeeded | Rejected

  datatype CallRow = CallRow(arguments: string, state: CallState, result: string, errorCode: string, leaseUntil: Option<int>)

  datatype Task = Task(id: string, version: nat, body: string)

  datatype Input = Input(identity: Identity, arguments: string, lease: int)

  /** What the ledger remembers of one committed mutation. */
  datatype Commit = Commit(key: Key, payload: string)

  datatype Db = Db(calls: map<Key, CallRow>, tasks: map<string, Task>, commits: seq<Commit>)

  const EMPTY := Db(map[], map[], [])

  /** What a call asks for; `payload` is the encoded answer, none when encoding it fails. */
  datatype Request =
    | CreateTask(draft: Task, quotaLeft: bool, payload: Option<string>)
    | UpdateTask(taskId: string, expectedVersion: nat, body: string, payload: Option<string>)
    | ListTasks(payload: Option<string>)

  datatype Execution = Done(payload: string, replay: bool) | Refused(errorCode: string)

  datatype Error = InvalidInput | Conflict | Busy | MutationFailed

  // ---------- the transactions ----------

  const DEFAULT_LEASE := 30

  function Lease(input: Input): int {
    if input.lease <= 0 then DEFAULT_LEASE else input.lease
  }

  /** The task table after the mutation; none when the mutation, or encoding its answer, fails. */
  function Mutate(tasks: map<string, Task>, r: Request): Option<map<string, Task>> {
    if r.payload.None? then None
    else
      match r
      case CreateTask(draft, quotaLeft, _) => if quotaLeft && draft.id !in tasks then Some(tasks[draft.id := draft]) else None
      case UpdateTask(id, version, body, _) =>
        if id in tasks && tasks[id].version == version && version > 0
        then Some(tasks[id := Task(id, version + 1, body)]) else None
      case ListTasks(_) => Some(tasks)
  }

  /** The answer to a call that is already in the table. */
  function Answer(row: CallRow, arguments: string): Result<Execution, Error> {
    if row.arguments != arguments then Err(Conflict)
    else
      match row.state
      case Succeeded => Ok(Done(row.result, true))
      case Rejected => Ok(Refused(row.errorCode))
      case _ => Err(Busy)
  }

  predicate ValidInput(input: Input) {
    Complete(input.identity) && !Blank(input.arguments)
  }

  function ExecuteResult(db: Db, input: Input, r: Request): Result<Execution, Error> {
    var key := KeyOf(input.identity);
    if !ValidInput(input) then Err(InvalidInput)
    else if key in db.calls then Answer(db.calls[key], input.arguments)
    else if Mutate(db.tasks, r).None? then Err(MutationFailed)
    else Ok(Done(r.payload.GetOr(""), false))
  }

  function Execute(db: Db, input: Input, r: Request): Db {
    var key := KeyOf(input.identity);
    var tasks := Mutate(db.tasks, r);
    if !ValidInput(input) || key in db.calls || tasks.None? then db
    else
      var payload := r.payload.GetOr("");
      Db(db.calls[key := CallRow(input.arguments, Succeeded, payload, "", None)], tasks.value,
         db.commits + [Commit(key, payload)])
  }

  function Claim(db: Db, input: Input, now: int): Db {
    var key := KeyOf(input.identity);
    if !ValidInput(input) || key in db.calls then db
    else db.(calls := db.calls[key := CallRow(input.arguments, Claimed, "", "", Some(now + Lease(input)))])
  }

  predicate Expired(row: CallRow, now: int) {
    (row.state.Claimed? || row.state.InFlight?) && row.leaseUntil.Some? && row.leaseUntil.value < now
  }

  function ExpireRow(row: CallRow, now: int): CallRow {
    if Expired(row, now) then row.(state := Rejected, errorCode := "tool_call_lease_expired", leaseUntil := None) else row
  }

  function Reconcile(db: Db, now: int): Db {
    db.(calls := map k | k in db.calls :: ExpireRow(db.calls[k], now))
  }

  /** Calls, stand-alone claims, reconciliation, and whatever else changes tasks. */
  datatype Event =
    | Call(input: Input, request: Request)
    | ClaimOnly(input: Input, now: int)
    | ReconcileExpired(now: int)
    | ChangeTasks(tasks: map<string, Task>)

  function Step(db: Db, e: Event): Db {
    match e
    case Call(input, r) => Execute(db, input, r)
    case ClaimOnly(input, now) => Claim(db, input, now)
    case ReconcileExpired(now) => Reconcile(db, now)
    case ChangeTasks(tasks) => db.(tasks := tasks)
  }

  function After(db: Db, events: seq<Event>): Db {
    if events == [] then db else Step(After(db, events[..|events| - 1]), events[|events| - 1])
  }

  /** A history is its events, one after the other. */
  lemma EventsFollow(db: Db, events: seq<Event>, e: Event)
    ensures After(db, []) == db && After(db, events + [e]) == Step(After(db, events), e)
  {
    assert (events + [e])[..|events|] == events;
  }

  // ---------- the invariant ----------

  /** A call has succeeded exactly when its mutation was committed, once, with the stored answer. */
  ghost predicate Inv(db: Db) {
    && (forall i, j | 0 <= i < j < |db.commits| :: db.commits[i].key != db.commits[j].key)
    && (forall i | 0 <= i < |db.commits| ::
          && db.commits[i].key in db.calls
          && db.calls[db.commits[i].key].state.Succeeded?
          && db.calls[db.commits[i].key].result == db.commits[i].payload)
    && (forall k | k in db.calls && db.calls[k].state.Succeeded? :: exists i :: 0 <= i < |db.commits| && db.commits[i].key == k)
  }

  lemma StepKeepsInv(db: Db, e: Event)
    requires Inv(db)
    ensures Inv(Step(db, e))
  {
    match e {
      case Call(input, r) => CallKeepsInv(db, input, r);
      case ClaimOnly(input, now) =>
      case ReconcileExpired(now) =>
      case ChangeTasks(tasks) =>
    }
  }

  lemma CallKeepsInv(db: Db, input: Input, r: Request)
    requires Inv(db)
    ensures Inv(Execute(db, input, r))
  {
    hide ValidInput, Mutate;
    var next := Execute(db, input, r);
    if next != db {
      var key := KeyOf(input.identity);
      assert next.commits[|db.commits|].key == key;
      forall k | k in next.calls && next.calls[k].state.Succeeded?
        ensures exists i :: 0 <= i < |next.commits| && next.commits[i].key == k
      {
        if k != key {
          var i :| 0 <= i < |db.commits| && db.commits[i].key == k;
          assert next.commits[i].key == k;
        }
      }
    }
  }

  lemma {:induction false} AfterIsInv(events: seq<Event>)
    ensures Inv(After(EMPTY, events))
  {
    hide Inv, Step;
    if events == [] {
      assert Inv(EMPTY) by {
        EmptyIsInv();
      }
    } else {
      AfterIsInv(events[..|events| - 1]);
      StepKeepsInv(After(EMPTY, events[..|events| - 1]), events[|events| - 1]);
    }
  }

  lemma EmptyIsInv()
    ensures Inv(EMPTY)
  {
  }

  // ---------- exactly once ----------

  /** For each call at most one mutation is ever committed. */
  lemma AtMostOneCommit(events: seq<Event>, i: nat, j: nat)
    requires i < j < |After(EMPTY, events).commits|
    ensures After(EMPTY, events).commits[i].key != After(EMPTY, events).commits[j].key
  {
    AfterIsInv(events);
  }

  /** A finished call keeps its row, whatever happens later. */
  lemma FinishedStep(db: Db, e: Event, key: Key)
    requires key in db.calls && (db.calls[key].state.Succeeded? || db.calls[key].state.Rejected?)
    ensures key in Step(db, e).calls && Step(db, e).calls[key] == db.calls[key]
  {
    hide ValidInput, Mutate;
  }

  lemma {:induction false} FinishedIsFinal(db: Db, later: seq<Event>, key: Key)
    requires key in db.calls && (db.calls[key].state.Succeeded? || db.calls[key].state.Rejected?)
    ensures key in After(db, later).calls && After(db, later).calls[key] == db.calls[key]
  {
    hide Step;
    if later != [] {
      FinishedIsFinal(db, later[..|later| - 1], key);
      FinishedStep(After(db, later[..|later| - 1]), later[|later| - 1], key);
    }
  }

  /** A carried-out call, repeated at any later time with the same arguments, gives the same answer and changes nothing. */
  lemma RepetitionsReplay(db: Db, input: Input, r: Request, later: seq<Event>, again: Request, payload: string)
    requires ExecuteResult(db, input, r) == Ok(Done(payload, false))
    ensures var now := After(Execute(db, input, r), later);
            && ExecuteResult(now, input, again) == Ok(Done(payload, true))
            && Execute(now, input, again) == now
  {
    FinishedIsFinal(Execute(db, input, r), later, KeyOf(input.identity));
  }

  /** With other arguments it conflicts and changes nothing. */
  lemma OtherArgumentsConflict(db: Db, input: Input, r: Request, later: seq<Event>, other: Input, again: Request)
    requires ExecuteResult(db, input, r).Ok? && ValidInput(other)
    requires KeyOf(other.identity) == KeyOf(input.identity) && other.arguments != input.arguments
    ensures var now := After(Execute(db, input, r), later);
            ExecuteResult(now, other, again) == Err(Conflict) && Execute(now, other, again) == now
  {
    FinishedIsFinal(Execute(db, input, r), later, KeyOf(input.identity));
  }

  /** A call that was rejected after its lease ran out was never carried out and never will be. */
  lemma RejectedCallsNeverCommit(events: seq<Event>, later: seq<Event>, key: Key, i: nat)
    requires var db := After(EMPTY, events); key in db.calls && db.calls[key].state.Rejected?
    requires i < |After(EMPTY, events + later).commits|
    ensures After(EMPTY, events + later).commits[i].key != key
  {
    AfterIsInv(events + later);
    AfterConcat(EMPTY, events, later);
    FinishedIsFinal(After(EMPTY, events), later, key);
  }

  lemma {:induction false} AfterConcat(db: Db, a: seq<Event>, b: seq<Event>)
    ensures After(db, a + b) == After(After(db, a), b)
  {
    hide Step;
    if b == [] {
      assert a + b == a;
    } else {
      AfterConcat(db, a, b[..|b| - 1]);
      assert (a + b)[..|a + b| - 1] == a + b[..|b| - 1];
    }
  }

  // ---------- the repository ----------

  /** The mutation, or encoding its answer, fails. */
  predicate Fails(tasks: map<string, Task>, r: Request) {
    || r.payload.None?
    || match r
       case CreateTask(draft, quotaLeft, _) => !quotaLeft || draft.id in tasks
       case UpdateTask(id, version, _, _) => id !in tasks || version == 0 || tasks[id].version != version
       case ListTasks(_) => false
  }

  /** What a mutation that succeeds leaves in the table of tasks. */
  ghost predicate Mutates(before: map<string, Task>, after: map<string, Task>, r: Request) {
    match r
    case CreateTask(draft, _, _) => after == before[draft.id := draft]
    case UpdateTask(id, version, body, _) => after == before[id := Task(id, version + 1, body)]
    case ListTasks(_) => after == before
  }

  /** The answer that the row of an earlier call gives. */
  ghost predicate AnswersFrom(row: CallRow, arguments: string, answer: Result<Execution, Error>) {
    if row.arguments != arguments then answer == Err(Conflict)
    else if row.state.Succeeded? then answer == Ok(Done(row.result, true))
    else if row.state.Rejected? then answer == Ok(Refused(row.errorCode))
    else answer == Err(Busy)
  }

  /**
   What one call does: nothing when its input is incomplete, when it was there before, or when its mutation fails;
   otherwise it is carried out, and its answer is stored in the row of the call.
   */
  ghost predicate CarriesOut(before: Db, after: Db, input: Input, r: Request, result: Result<Execution, Error>) {
    var i := input.identity;
    var key := Key(i.appId, i.threadId, i.turnId, i.callId);
    if Blank(i.appId) || Blank(i.channelKey) || Blank(i.chatGroupId) || Blank(i.threadId) || Blank(i.turnId)
       || Blank(i.callId) || Blank(i.tool) || Blank(input.arguments)
    then result == Err(InvalidInput) && after == before
    else if key in before.calls then AnswersFrom(before.calls[key], input.arguments, result) && after == before
    else if Fails(before.tasks, r) then result == Err(MutationFailed) && after == before
    else
      && r.payload.Some? && result == Ok(Done(r.payload.value, false))
      && Mutates(before.tasks, after.tasks, r) && after.commits == before.commits + [Commit(key, r.payload.value)]
      && after.calls == before.calls[key := CallRow(input.arguments, Succeeded, r.payload.value, "", None)]
  }

  lemma CallCarriesOut(db: Db, input: Input, r: Request)
    ensures CarriesOut(db, Execute(db, input, r), input, r, ExecuteResult(db, input, r))
  {
  }

  /** A lease that has run out: the call was neither finished nor given up, and its time is over. */
  predicate RanOut(row: CallRow, now: int) {
    row.state in {Claimed, InFlight} && row.leaseUntil.Some? && row.leaseUntil.value < now
  }

  class Repository {
    var calls: map<Key, CallRow>
    var tasks: map<string, Task>
    ghost var commits: seq<Commit>

    ghost function View(): Db
      reads this
    {
      Db(calls, tasks, commits)
    }

    constructor ()
      ensures View() == EMPTY && Inv(View())
    {
      calls, tasks, commits := map[], map[], [];
      new;
      EmptyIsInv();
    }

    /** Inserts the claim, or answers from the row that is there; the row is part of the caller's transaction. */
    method ClaimToolCallTx(input: Input, now: int) returns (inserted: bool, answer: Result<Execution, Error>)
      modifies this`calls
      ensures var i := input.identity;
              var key := Key(i.appId, i.threadId, i.turnId, i.callId);
              var lease := if input.lease <= 0 then 30 else input.lease;
              && inserted == (key !in old(calls))
              && if inserted then calls == old(calls)[key := CallRow(input.arguments, Claimed, "", "", Some(now + lease))]
                 else calls == old(calls) && AnswersFrom(calls[key], input.arguments, answer)
      ensures inserted ==> calls == old(calls)[KeyOf(input.identity) := calls[KeyOf(input.identity)]]
      ensures !inserted ==> answer == Answer(calls[KeyOf(input.identity)], input.arguments)
    {
      var key := KeyOf(input.identity);
      if key !in calls {
        calls := calls[key := CallRow(input.arguments, Claimed, "", "", Some(now + Lease(input)))];
        return true, Err(Busy);
      }
      var stored := calls[key];
      if stored.arguments != input.arguments {
        return false, Err(Conflict);
      }
      if stored.state.Succeeded? {
        return false, Ok(Done(stored.result, true));
      }
      if stored.state.Rejected? {
        return false, Ok(Refused(stored.errorCode));
      }
      return false, Err(Busy);
    }

    /** A claim on its own: it is new, or answered from the row that is there. */
    method ClaimToolCall(input: Input, now: int) returns (inserted: bool, answer: Result<Execution, Error>)
      requires Inv(View())
      modifies this`calls
      ensures Inv(View()) && View() == Claim(old(View()), input, now)
      ensures inserted <==> ValidInput(input) && KeyOf(input.identity) !in old(calls)
      ensures inserted ==> calls.Keys == old(calls).Keys + {KeyOf(input.identity)} && calls[KeyOf(input.identity)].state.Claimed?
      ensures !inserted ==>
                && calls == old(calls)
                && if ValidInput(input) then AnswersFrom(calls[KeyOf(input.identity)], input.arguments, answer)
                   else answer == Err(InvalidInput)
    {
      hide Inv, ValidInput;
      StepKeepsInv(View(), ClaimOnly(input, now));
      if !ValidInput(input) {
        return false, Err(InvalidInput);
      }
      inserted, answer := ClaimToolCallTx(input, now);
    }

    method CompleteToolCallTx(key: Key, payload: string) returns (changed: bool)
      modifies this`calls
      ensures changed == (key in old(calls) && old(calls)[key].state.Claimed?)
      ensures calls == if changed
                       then old(calls)[key := old(calls)[key].(state := Succeeded, result := payload, leaseUntil := None)]
                       else old(calls)
    {
      if key !in calls || !calls[key].state.Claimed? {
        return false;
      }
      calls := calls[key := calls[key].(state := Succeeded, result := payload, leaseUntil := None)];
      return true;
    }

    /** One transaction for creating, updating and listing; any error rolls the claim and the mutation back. */
    method ExecuteToolCall(input: Input, request: Request, now: int) returns (result: Result<Execution, Error>)
      requires Inv(View())
      modifies this
      ensures Inv(View()) && View() == Execute(old(View()), input, request)
      ensures result == ExecuteResult(old(View()), input, request)
      ensures CarriesOut(old(View()), View(), input, request, result)
    {
      CallCarriesOut(View(), input, request);
      hide Inv, ValidInput, Mutate, CarriesOut;
      CallKeepsInv(View(), input, request);
      if !ValidInput(input) {
        return Err(InvalidInput);
      }
      var saved := calls;
      var inserted, answer := ClaimToolCallTx(input, now);
      if !inserted {
        return answer;
      }
      var mutated := Mutate(tasks, request);
      if mutated.None? {
        calls := saved;
        return Err(MutationFailed);
      }
      tasks := mutated.value;
      var payload := request.payload.GetOr("");
      var completed := CompleteToolCallTx(KeyOf(input.identity), payload);
      assert completed;
      assert calls == saved[KeyOf(input.identity) := CallRow(input.arguments, Succeeded, payload, "", None)];
      commits := commits + [Commit(KeyOf(input.identity), payload)];
      result := Ok(Done(payload, false));
    }

    method ReconcileExpiredToolCalls(now: int)
      requires Inv(View())
      modifies this`calls
      ensures Inv(View()) && View() == Reconcile(old(View()), now)
      ensures calls.Keys == old(calls).Keys
      ensures forall k | k in calls ::
                var row := old(calls)[k];
                calls[k] == if RanOut(row, now) then CallRow(row.arguments, Rejected, row.result, "tool_call_lease_expired", None) else row
    {
      hide Inv;
      StepKeepsInv(View(), ReconcileExpired(now));
      calls := map k | k in calls :: ExpireRow(calls[k], now);
    }
  }
}
