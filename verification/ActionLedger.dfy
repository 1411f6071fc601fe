/**
 Actions on the chat platform asked for by tool calls. A durable row per call is claimed before anything is checked and
 moved on before anything is sent; what was answered is sealed into the row. Any number of executions of one call, and
 their crashes, interleave at every statement and at the external call.
 */
module ActionLedger {
  import opened Common

  // ---------- data ----------

  /** The unique key of the table. */
  datatype Key = Key(appId: string, threadId: string, turnId: string, callId: string)

  datatype ActionState = Claimed | InFlight | Succeeded | Rejected | Unknown | CancelledBeforeSend

  predicate Terminal(s: ActionState) {
    !s.Claimed? && !s.InFlight?
  }

  /** A sealed text can be opened only for the call and tool it was sealed for. */
  datatype Sealed = Sealed(key: Key, tool: string, text: string)

  function Open(sealed: Sealed, key: Key, tool: string): Option<string> {
    if sealed.key == key && sealed.tool == tool then Some(sealed.text) else None
  }

  datatype Row = Row(id: nat, tool: string, digest: string, state: ActionState, result: Sealed)

  /** What the caller of a tool gets. */
  datatype Reply = Reply(success: bool, text: string)

  /** Short tool names stand for the full ones. */
  function CanonicalToolName(tool: string): string {
    if tool == "message_send_current_channel" then "feishu.message_send_current_channel"
    else if tool == "file_upload_and_send_current_channel" then "feishu.file_upload_and_send_current_channel"
    else if tool == "doc_create_and_announce" then "feishu.doc_create_and_announce"
    else if tool == "doc_read" then "feishu.doc_read"
    else tool
  }

  datatype Call = Call(key: Key, tool: string, digest: string)

  function Canonical(call: Call): Call {
    call.(tool := CanonicalToolName(call.tool))
  }

  /** What an execution is about to do. */
  datatype Phase =
    | Claiming
    | Checking
    | Sending
    | Recording(reply: Reply, state: ActionState)

  datatype Execution = Execution(call: Call, phase: Phase)

  /** The answer of the external service: a text, or an error that is or is not an explicit rejection. */
  datatype External = Delivered(text: string) | Refused(text: string, explicit: bool) | Malformed(text: string)

  function StateOf(answer: External): ActionState {
    match answer
    case Delivered(_) => Succeeded
    case Refused(_, explicit) => if explicit then Rejected else Unknown
    case Malformed(_) => Unknown
  }

  function ReplyOf(answer: External): Reply {
    Reply(answer.Delivered?, answer.text)
  }

  /** `calls` are the external calls made so far. */
  datatype World = World(rows: map<Key, Row>, procs: map<nat, Execution>, used: set<nat>, calls: seq<Key>)

  const NEW := World(map[], map[], {}, [])

  datatype Event =
    | Invoke(pid: nat, call: Call)
    | Claim(pid: nat)
    | GiveUp(pid: nat, text: string, cancelled: bool)
    | Start(pid: nat, lost: bool)
    | Send(pid: nat, answer: External)
    | Record(pid: nat)
    | Crash(pid: nat)

  // ---------- the statements ----------

  /** The stored answer of a finished call. */
  function Replay(rows: map<Key, Row>, call: Call): Option<Reply> {
    if call.key !in rows || !Terminal(rows[call.key].state) then None
    else
      var row := rows[call.key];
      if row.tool != call.tool || row.digest != call.digest then Some(Reply(false, "action call conflicts with prior arguments"))
      else
        match Open(row.result, call.key, call.tool)
        case None => Some(Reply(false, "action replay could not be decrypted"))
        case Some(text) => Some(Reply(row.state.Succeeded?, text))
  }

  function ClaimRow(rows: map<Key, Row>, call: Call, id: nat): map<Key, Row> {
    if call.key in rows then rows
    else rows[call.key := Row(id, call.tool, call.digest, Claimed, Sealed(call.key, call.tool, ""))]
  }

  predicate MayStart(rows: map<Key, Row>, key: Key) {
    key in rows && rows[key].state.Claimed?
  }

  function StartRow(rows: map<Key, Row>, key: Key): map<Key, Row> {
    if MayStart(rows, key) then rows[key := rows[key].(state := InFlight)] else rows
  }

  predicate MayComplete(rows: map<Key, Row>, key: Key) {
    key in rows && !Terminal(rows[key].state)
  }

  function CompleteRow(rows: map<Key, Row>, call: Call, text: string, state: ActionState): map<Key, Row> {
    if MayComplete(rows, call.key)
    then rows[call.key := rows[call.key].(state := state, result := Sealed(call.key, call.tool, text))]
    else rows
  }

  // ---------- the steps ----------

  function To(w: World, pid: nat, phase: Phase): World
    requires pid in w.procs
  {
    w.(procs := w.procs[pid := w.procs[pid].(phase := phase)])
  }

  function End(w: World, pid: nat): World {
    w.(procs := w.procs - {pid})
  }

  function Step(w: World, e: Event): World {
    if e.Invoke? then
      if e.pid in w.used then w
      else
        var entered := w.(used := w.used + {e.pid});
        if Replay(w.rows, e.call).Some? then entered else entered.(procs := w.procs[e.pid := Execution(e.call, Claiming)])
    else if e.pid !in w.procs then w
    else if e.Crash? then End(w, e.pid)
    else Continue(w, e, w.procs[e.pid].call, w.procs[e.pid].phase)
  }

  function Continue(w: World, e: Event, call: Call, phase: Phase): World
    requires e.pid in w.procs
  {
    match phase
    case Claiming =>
      if !e.Claim? then w
      else if call.key in w.rows then End(w, e.pid)
      else To(w.(rows := ClaimRow(w.rows, call, e.pid)), e.pid, Checking)
    case Checking =>
      if e.GiveUp? then To(w, e.pid, Recording(Reply(false, e.text), if e.cancelled then CancelledBeforeSend else Rejected))
      else if e.Start? then
        To(w.(rows := StartRow(w.rows, call.key)), e.pid,
           if e.lost || !MayStart(w.rows, call.key) then Recording(Reply(false, "action could not be started"), Unknown) else Sending)
      else w
    case Sending =>
      if e.Send? then To(w.(calls := w.calls + [call.key]), e.pid, Recording(ReplyOf(e.answer), StateOf(e.answer))) else w
    case Recording(reply, state) =>
      if e.Record? then End(w.(rows := CompleteRow(w.rows, call, reply.text, state)), e.pid) else w
  }

  function After(w: World, events: seq<Event>): World {
    if events == [] then w else Step(After(w, events[..|events| - 1]), events[|events| - 1])
  }

  // ---------- the invariant ----------

  ghost predicate Owns(w: World, pid: nat, call: Call) {
    call.key in w.rows && w.rows[call.key].id == pid && w.rows[call.key].tool == call.tool && w.rows[call.key].digest == call.digest
  }

  /** An execution past its claim owns the row of its call; before it may send, nothing was sent. */
  ghost predicate Holds(w: World, pid: nat, x: Execution) {
    match x.phase
    case Claiming => true
    case Checking => Owns(w, pid, x.call) && w.rows[x.call.key].state.Claimed? && x.call.key !in w.calls
    case Sending => Owns(w, pid, x.call) && w.rows[x.call.key].state.InFlight? && x.call.key !in w.calls
    case Recording(reply, state) =>
      Owns(w, pid, x.call) && !Terminal(w.rows[x.call.key].state) && Terminal(state) && (reply.success <==> state.Succeeded?)
  }

  ghost predicate RowsInOrder(w: World) {
    forall k | k in w.rows ::
      && w.rows[k].id in w.used
      && w.rows[k].result.key == k && w.rows[k].result.tool == w.rows[k].tool
  }

  ghost predicate Inv(w: World) {
    && (forall pid | pid in w.procs :: pid in w.used && Holds(w, pid, w.procs[pid]))
    && RowsInOrder(w)
    && (forall i, j | 0 <= i < j < |w.calls| :: w.calls[i] != w.calls[j])
    && (forall k | k in w.calls :: k in w.rows && !w.rows[k].state.Claimed?)
  }

  lemma StepKeepsInv(w: World, e: Event)
    requires Inv(w)
    ensures Inv(Step(w, e))
  {
    hide Continue, Replay;
    if !e.Invoke? && e.pid in w.procs && !e.Crash? {
      ContinueKeepsInv(w, e);
    }
  }

  lemma ContinueKeepsInv(w: World, e: Event)
    requires Inv(w) && e.pid in w.procs
    ensures Inv(Continue(w, e, w.procs[e.pid].call, w.procs[e.pid].phase))
  {
    var x := w.procs[e.pid];
    assert Holds(w, e.pid, x);
    match x.phase {
      case Claiming => ClaimKeepsInv(w, e);
      case Checking => CheckKeepsInv(w, e);
      case Sending => SendKeepsInv(w, e);
      case Recording(_, _) => RecordKeepsInv(w, e);
    }
  }

  lemma ClaimKeepsInv(w: World, e: Event)
    requires Inv(w) && e.pid in w.procs && w.procs[e.pid].phase.Claiming?
    ensures Inv(Continue(w, e, w.procs[e.pid].call, Claiming))
  {
  }

  lemma CheckKeepsInv(w: World, e: Event)
    requires Inv(w) && e.pid in w.procs && w.procs[e.pid].phase.Checking?
    ensures Inv(Continue(w, e, w.procs[e.pid].call, Checking))
  {
    assert Holds(w, e.pid, w.procs[e.pid]);
  }

  lemma SendKeepsInv(w: World, e: Event)
    requires Inv(w) && e.pid in w.procs && w.procs[e.pid].phase.Sending?
    ensures Inv(Continue(w, e, w.procs[e.pid].call, Sending))
  {
    assert Holds(w, e.pid, w.procs[e.pid]);
  }

  lemma RecordKeepsInv(w: World, e: Event)
    requires Inv(w) && e.pid in w.procs && w.procs[e.pid].phase.Recording?
    ensures Inv(Continue(w, e, w.procs[e.pid].call, w.procs[e.pid].phase))
  {
    assert Holds(w, e.pid, w.procs[e.pid]);
  }

  lemma NewIsInv()
    ensures Inv(NEW)
  {
  }

  lemma {:induction false} AfterIsInv(events: seq<Event>)
    ensures Inv(After(NEW, events))
  {
    hide Inv, Step;
    if events == [] {
      NewIsInv();
    } else {
      AfterIsInv(events[..|events| - 1]);
      StepKeepsInv(After(NEW, events[..|events| - 1]), events[|events| - 1]);
    }
  }

  // ---------- every run ----------

  /** However often a call is executed and wherever executions crash, at most one external call is made for it. */
  lemma AtMostOneExternalCall(events: seq<Event>, i: nat, j: nat)
    requires i < j < |After(NEW, events).calls|
    ensures After(NEW, events).calls[i] != After(NEW, events).calls[j]
  {
    AfterIsInv(events);
  }

  /** A finished row never changes. */
  lemma FinishedStep(w: World, e: Event, key: Key)
    requires Inv(w) && key in w.rows && Terminal(w.rows[key].state)
    ensures key in Step(w, e).rows && Step(w, e).rows[key] == w.rows[key]
  {
    if e.pid in w.procs {
      assert Holds(w, e.pid, w.procs[e.pid]);
    }
  }

  lemma {:induction false} FinishedIsFinal(w: World, later: seq<Event>, key: Key)
    requires Inv(w) && key in w.rows && Terminal(w.rows[key].state)
    ensures Inv(After(w, later)) && key in After(w, later).rows && After(w, later).rows[key] == w.rows[key]
  {
    hide Inv, Step;
    if later != [] {
      FinishedIsFinal(w, later[..|later| - 1], key);
      FinishedStep(After(w, later[..|later| - 1]), later[|later| - 1], key);
      StepKeepsInv(After(w, later[..|later| - 1]), later[|later| - 1]);
    }
  }

  /** A recorded answer is what every later execution with the same tool and arguments gets; others conflict. */
  lemma RecordedAnswersAreReplayed(events: seq<Event>, pid: nat, later: seq<Event>, again: Call)
    requires var w := After(NEW, events);
             pid in w.procs && w.procs[pid].phase.Recording? && w.procs[pid].call.key == again.key
    ensures var w := After(NEW, events);
            var x := w.procs[pid];
            Replay(After(Step(w, Record(pid)), later).rows, again)
            == if again.tool == x.call.tool && again.digest == x.call.digest then Some(x.phase.reply)
               else Some(Reply(false, "action call conflicts with prior arguments"))
  {
    var w := After(NEW, events);
    AfterIsInv(events);
    var x := w.procs[pid];
    assert Holds(w, pid, x);
    StepKeepsInv(w, Record(pid));
    FinishedIsFinal(Step(w, Record(pid)), later, again.key);
  }

  /** Once a call was sent, no execution of it that starts later can send again. */
  lemma SentCallsAreNotClaimed(events: seq<Event>, key: Key)
    requires key in After(NEW, events).calls
    ensures forall pid | pid in After(NEW, events).procs ::
              After(NEW, events).procs[pid].call.key == key ==>
                !After(NEW, events).procs[pid].phase.Sending? && !After(NEW, events).procs[pid].phase.Checking?
  {
    AfterIsInv(events);
    forall pid | pid in After(NEW, events).procs ensures Holds(After(NEW, events), pid, After(NEW, events).procs[pid]) {
    }
  }

  // ---------- the store and the service ----------

  /** The conditional statements on the table of calls. */
  class ActionStore {
    var rows: map<Key, Row>

    constructor ()
      ensures rows == map[]
    {
      rows := map[];
    }

    method ClaimAction(call: Call, id: nat) returns (claimed: bool)
      modifies this
      ensures claimed == (call.key !in old(rows)) && rows == ClaimRow(old(rows), call, id)
      ensures rows == if claimed
                      then old(rows)[call.key := Row(id, call.tool, call.digest, Claimed, Sealed(call.key, call.tool, ""))]
                      else old(rows)
    {
      claimed := call.key !in rows;
      if claimed {
        rows := rows[call.key := Row(id, call.tool, call.digest, Claimed, Sealed(call.key, call.tool, ""))];
      }
    }

    method StartAction(key: Key) returns (started: bool)
      modifies this
      ensures rows == StartRow(old(rows), key) && started == (key in old(rows) && old(rows)[key].state.Claimed?)
      ensures rows == if started then old(rows)[key := old(rows)[key].(state := InFlight)] else old(rows)
    {
      started := key in rows && rows[key].state.Claimed?;
      if started {
        rows := rows[key := rows[key].(state := InFlight)];
      }
    }

    method GetCompletedAction(key: Key) returns (row: Option<Row>)
      ensures row == if key in rows && Terminal(rows[key].state) then Some(rows[key]) else None
      ensures row.Some? ==> row.value.state in {Succeeded, Rejected, Unknown, CancelledBeforeSend}
    {
      row := if key in rows && Terminal(rows[key].state) then Some(rows[key]) else None;
    }

    method CompleteAction(call: Call, text: string, state: ActionState) returns (changed: bool)
      requires Terminal(state)
      modifies this
      ensures rows == CompleteRow(old(rows), call, text, state)
      ensures changed == (call.key in old(rows) && old(rows)[call.key].state in {Claimed, InFlight})
      ensures rows == if changed
                      then old(rows)[call.key := old(rows)[call.key].(state := state, result := Sealed(call.key, call.tool, text))]
                      else old(rows)
    {
      changed := call.key in rows && !Terminal(rows[call.key].state);
      if changed {
        rows := rows[call.key := rows[call.key].(state := state, result := Sealed(call.key, call.tool, text))];
      }
    }
  }

  /** What one execution meets; `invalid` is the reason why its arguments are refused, if they are. */
  datatype Surroundings = Surroundings(
    available: bool, cancelled: bool, invalid: Option<string>, startLost: bool, answer: External, sealed: bool, recordLost: bool)

  /** Four short names stand for the full ones, and every other name stands for itself. */
  lemma ShortNamesAreCompleted(tool: string)
    ensures CanonicalToolName("message_send_current_channel") == "feishu.message_send_current_channel"
    ensures CanonicalToolName("file_upload_and_send_current_channel") == "feishu.file_upload_and_send_current_channel"
    ensures CanonicalToolName("doc_create_and_announce") == "feishu.doc_create_and_announce"
    ensures CanonicalToolName("doc_read") == "feishu.doc_read"
    ensures tool !in {"message_send_current_channel", "file_upload_and_send_current_channel", "doc_create_and_announce", "doc_read"}
            ==> CanonicalToolName(tool) == tool
  {
  }

  const IN_PROGRESS := "action call is in progress or was already handled"
  const UNAVAILABLE := "current channel is unavailable"

  /** How a first execution ends: what it answers and what is stored. */
  ghost predicate EndsAs(around: Surroundings, reply: Reply, state: ActionState) {
    if around.cancelled then !reply.success && state.CancelledBeforeSend?
    else if around.invalid.Some? then reply == Reply(false, around.invalid.value) && state.Rejected?
    else if around.startLost then !reply.success && state.Unknown?
    else match around.answer
      case Delivered(text) => reply == Reply(true, text) && state.Succeeded?
      case Refused(text, explicit) => reply == Reply(false, text) && if explicit then state.Rejected? else state.Unknown?
      case Malformed(text) => reply == Reply(false, text) && state.Unknown?
  }

  /** What a finished row answers: the stored text, to the same arguments only. */
  ghost predicate Replays(row: Row, call: Call, reply: Reply) {
    if row.tool != call.tool || row.digest != call.digest
    then reply == Reply(false, "action call conflicts with prior arguments")
    else if row.result.key != call.key || row.result.tool != call.tool
    then reply == Reply(false, "action replay could not be decrypted")
    else reply == Reply(row.state.Succeeded?, row.result.text)
  }

  /** Whether a first execution comes to its external call. */
  predicate Goes(around: Surroundings) {
    around.available && !around.cancelled && around.invalid.None? && !around.startLost
  }

  class ActionService {
    const store: ActionStore
    ghost var world: World

    ghost predicate Valid()
      reads this, store
    {
      Inv(world) && world.rows == store.rows
    }

    constructor (store: ActionStore)
      requires store.rows == map[]
      ensures Valid() && world == NEW && this.store == store
    {
      this.store := store;
      world := NEW;
      new;
      NewIsInv();
    }

    ghost method Take(events: seq<Event>, e: Event, start: World) returns (taken: seq<Event>)
      requires Inv(world) && world == After(start, events)
      modifies this
      ensures world == Step(old(world), e) && Inv(world)
      ensures taken == events + [e] && world == After(start, taken)
    {
      hide Inv, Step;
      StepKeepsInv(world, e);
      world := Step(world, e);
      taken := events + [e];
    }

    /**
     One undisturbed execution. Its statements and its external call are steps of the interleaved machine. The first
     execution of a call makes the external call once, if nothing keeps it from going there, and returns the answer; what
     is recorded is what is returned, and it is what a repetition gets.
     */
    method Execute(pid: nat, requested: Call, around: Surroundings) returns (reply: Reply, ghost events: seq<Event>)
      requires Valid() && pid !in world.used
      modifies this, store
      ensures Valid() && world == After(old(world), events)
      ensures var call := Canonical(requested);
              && (call.key in old(store.rows) ==>
                    var row := old(store.rows)[call.key];
                    if row.state in {Claimed, InFlight} then reply == Reply(false, if around.available then IN_PROGRESS else UNAVAILABLE)
                    else Replays(row, call, reply))
              && (call.key in old(store.rows) || !around.available ==>
                    store.rows == old(store.rows) && world.calls == old(world).calls)
              && (call.key !in old(store.rows) && around.available && around.sealed && !around.recordLost ==>
                    Replay(store.rows, call) == Some(reply))
              && (call.key !in old(store.rows) ==>
                    && world.calls == old(world).calls + (if Goes(around) then [call.key] else [])
                    && (!around.available || !around.sealed || around.recordLost ==> !reply.success)
                    && (around.available && around.sealed && !around.recordLost ==>
                          call.key in store.rows && EndsAs(around, reply, store.rows[call.key].state)))
    {
      var call := Canonical(requested);
      hide CanonicalToolName;
      hide Inv, Continue;
      events := [];
      ghost var start := world;
      assert world == After(start, events);
      hide After;
      var stored := store.GetCompletedAction(call.key);
      events := Take(events, Invoke(pid, call), start);
      if stored.Some? {
        var row := stored.value;
        if row.tool != call.tool || row.digest != call.digest {
          return Reply(false, "action call conflicts with prior arguments"), events;
        }
        var text := Open(row.result, call.key, call.tool);
        if text.None? {
          return Reply(false, "action replay could not be decrypted"), events;
        }
        return Reply(row.state.Succeeded?, text.value), events;
      }
      if !around.available {
        return Reply(false, UNAVAILABLE), events;
      }
      reply, events := ClaimAndSend(pid, call, around, start, events);
    }

    method ClaimAndSend(pid: nat, call: Call, around: Surroundings, ghost start: World, ghost before: seq<Event>)
      returns (reply: Reply, ghost events: seq<Event>)
      requires Valid() && world == After(start, before)
      requires pid in world.procs && world.procs[pid] == Execution(call, Claiming)
      modifies this, store
      ensures Valid() && world == After(start, events)
      ensures call.key in old(store.rows) ==> store.rows == old(store.rows) && world.calls == old(world).calls
      ensures call.key !in old(store.rows) && around.sealed && !around.recordLost ==> Replay(store.rows, call) == Some(reply)
      ensures call.key !in old(store.rows) && around.available ==>
                && world.calls == old(world).calls + (if Goes(around) then [call.key] else [])
                && (!around.sealed || around.recordLost ==> !reply.success)
                && (around.sealed && !around.recordLost ==>
                      call.key in store.rows && EndsAs(around, reply, store.rows[call.key].state))
      ensures call.key in old(store.rows) ==> reply == Reply(false, IN_PROGRESS)
    {
      hide Inv, After;
      var claimed := store.ClaimAction(call, pid);
      events := Take(before, Claim(pid), start);
      if !claimed {
        return Reply(false, IN_PROGRESS), events;
      }
      var state;
      reply, state, events := CheckAndSend(pid, call, around, start, events);
      if !around.sealed {
        return Reply(false, "action result could not be secured"), events;
      }
      RecordingIsTerminal(world, pid);
      var changed := store.CompleteAction(call, reply.text, state);
      events := Take(events, Record(pid), start);
      if around.recordLost || !changed {
        reply := Reply(false, "action result could not be recorded");
      }
    }

    method CheckAndSend(pid: nat, call: Call, around: Surroundings, ghost start: World, ghost before: seq<Event>)
      returns (reply: Reply, state: ActionState, ghost events: seq<Event>)
      requires Valid() && world == After(start, before)
      requires pid in world.procs && world.procs[pid] == Execution(call, Checking) && MayStart(store.rows, call.key)
      modifies this, store
      ensures Valid() && world == After(start, events)
      ensures pid in world.procs && world.procs[pid] == Execution(call, Recording(reply, state))
      ensures around.available ==>
                && world.calls == old(world).calls + (if Goes(around) then [call.key] else [])
                && EndsAs(around, reply, state)
    {
      hide Inv, After;
      events := before;
      if around.cancelled {
        reply, state := Reply(false, "action was cancelled before it was sent"), CancelledBeforeSend;
        events := Take(events, GiveUp(pid, reply.text, true), start);
        return;
      }
      if around.invalid.Some? {
        reply, state := Reply(false, around.invalid.value), Rejected;
        events := Take(events, GiveUp(pid, reply.text, false), start);
        return;
      }
      var started := store.StartAction(call.key);
      events := Take(events, Start(pid, around.startLost), start);
      if around.startLost || !started {
        reply, state := Reply(false, "action could not be started"), Unknown;
        return;
      }
      events := Take(events, Send(pid, around.answer), start);
      reply, state := ReplyOf(around.answer), StateOf(around.answer);
    }
  }

  lemma RecordingIsTerminal(w: World, pid: nat)
    requires Inv(w) && pid in w.procs && w.procs[pid].phase.Recording?
    ensures var x := w.procs[pid];
            && Terminal(x.phase.state) && (x.phase.reply.success <==> x.phase.state.Succeeded?)
            && MayComplete(w.rows, x.call.key) && Owns(w, pid, x.call)
  {
    assert Holds(w, pid, w.procs[pid]);
  }
}
