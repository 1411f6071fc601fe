/**
 Recurring tasks and the slots recorded for them. Schedulers observe due tasks and later claim, skip or revoke the
 observed slot in a transaction that re-checks the task row; tasks are edited, disabled and re-enabled meanwhile.
 Observations never expire here, so every stale scheduler is covered.
 */
module ScheduleSlots {
  import opened Common
  import opened Text

  // ---------- data ----------

  /** Cron parsing and the next occurrence of an expression after an instant are left to the calendar. */
  datatype Calendar = Calendar(parses: string -> bool, next: (string, int) -> Option<int>)

  ghost predicate LooksAhead(cal: Calendar) {
    forall cron, t :: cal.next(cron, t).Some? ==> t < cal.next(cron, t).value
  }

  datatype Kind = Prompt | Script

  datatype Task = Task(kind: Kind, cron: string, payload: string, silent: bool, enabled: bool, version: nat,
                       nextRunAt: Option<int>, routeEnabled: bool)

  datatype Mark = Claimed | Skipped | Revoked

  /** A row of the run table: this slot of this task has been decided. */
  datatype Slot = Slot(taskId: string, scheduledFor: int, mark: Mark)

  /** What one scheduler saw about one due task at tick time `now`. */
  datatype Due = Due(taskId: string, version: nat, slot: int, kind: Kind, routeRevoked: bool, now: int)

  datatype Patch = Patch(taskId: string, expectedVersion: nat, cron: Option<string>, payload: Option<string>,
                         silent: Option<bool>, enabled: Option<bool>)

  datatype Store = Store(tasks: map<string, Task>, slots: seq<Slot>, clock: int, seen: set<Due>)

  // ---------- transactions ----------

  function CreateTask(s: Store, id: string, kind: Kind, cron: string, payload: string, silent: bool, routeEnabled: bool,
                      cal: Calendar): Store
  {
    var trimmed := TrimSpace(cron);
    if Blank(id) || payload == "" || id in s.tasks || !cal.parses(trimmed) || cal.next(trimmed, s.clock).None? then s
    else s.(tasks := s.tasks[id := Task(kind, trimmed, payload, silent, true, 1, cal.next(trimmed, s.clock), routeEnabled)])
  }

  datatype UpdateError =
    | MissingIdentity | EmptyUpdate | EmptyPayload | TaskNotFound | VersionConflict | BadCron | StoredPayloadMissing

  function CronAfter(t: Task, p: Patch): string {
    if p.cron.Some? then TrimSpace(p.cron.value) else t.cron
  }

  function PatchError(s: Store, p: Patch, cal: Calendar): Option<UpdateError> {
    if Blank(p.taskId) || p.expectedVersion == 0 then Some(MissingIdentity)
    else if p.cron.None? && p.payload.None? && p.silent.None? && p.enabled.None? then Some(EmptyUpdate)
    else if p.payload == Some("") then Some(EmptyPayload)
    else if p.taskId !in s.tasks then Some(TaskNotFound)
    else if s.tasks[p.taskId].version != p.expectedVersion then Some(VersionConflict)
    else if !cal.parses(CronAfter(s.tasks[p.taskId], p)) then Some(BadCron)
    else if p.payload.None? && Blank(s.tasks[p.taskId].payload) then Some(StoredPayloadMissing)
    else None
  }

  /** A cron edit, re-enabling and a missing slot compute a new one from the clock; anything else keeps it. */
  function Patched(t: Task, p: Patch, clock: int, cal: Calendar): Task {
    var cron, enabled := CronAfter(t, p), p.enabled.GetOr(t.enabled);
    var next := if !enabled then None
                else if t.nextRunAt.None? || !t.enabled || p.cron.Some? then cal.next(cron, clock)
                else t.nextRunAt;
    t.(cron := cron, payload := p.payload.GetOr(t.payload), silent := p.silent.GetOr(t.silent), enabled := enabled,
       version := t.version + 1, nextRunAt := next)
  }

  function UpdateTask(s: Store, p: Patch, cal: Calendar): Store {
    if PatchError(s, p, cal).Some? then s
    else s.(tasks := s.tasks[p.taskId := Patched(s.tasks[p.taskId], p, s.clock, cal)])
  }

  predicate IsCurrent(s: Store, d: Due) {
    && d.taskId in s.tasks && s.tasks[d.taskId].enabled
    && s.tasks[d.taskId].version == d.version && s.tasks[d.taskId].nextRunAt == Some(d.slot)
  }

  function Record(s: Store, d: Due, mark: Mark, next: int): Store
    requires d.taskId in s.tasks
  {
    s.(slots := s.slots + [Slot(d.taskId, d.slot, mark)],
       tasks := s.tasks[d.taskId := s.tasks[d.taskId].(nextRunAt := Some(next))])
  }

  /** The instant from which each transaction computes the next slot: a claim from its slot, the others from `now`. */
  function Base(d: Due, mark: Mark): int {
    if mark.Claimed? then d.slot else d.now
  }

  /** The row still is what the scheduler observed, and suits the transaction. */
  predicate Matches(s: Store, d: Due, mark: Mark) {
    && IsCurrent(s, d)
    && (mark.Revoked? <==> !s.tasks[d.taskId].routeEnabled)
    && (mark.Claimed? || s.tasks[d.taskId].kind == d.kind)
  }

  /** The transaction can be computed: the cron expression has a next instant, and a claimed run has a payload. */
  predicate Usable(t: Task, d: Due, mark: Mark, cal: Calendar) {
    && (mark.Claimed? ==> !Blank(t.payload))
    && cal.parses(t.cron) && cal.next(t.cron, Base(d, mark)).Some?
  }

  /** How a slot transaction ends: it commits, it conflicts with the row as it is now, or it fails otherwise. */
  datatype Verdict = Won | Conflict | Failed

  function VerdictOf(s: Store, d: Due, mark: Mark, cal: Calendar): Verdict {
    if Blank(d.taskId) || d.version == 0 then Failed
    else if !Matches(s, d, mark) then Conflict
    else if !Usable(s.tasks[d.taskId], d, mark, cal) then Failed
    else Won
  }

  predicate Decides(s: Store, d: Due, mark: Mark, cal: Calendar) {
    VerdictOf(s, d, mark, cal).Won?
  }

  /** `ClaimDue`, `SkipMisfire` and `FailRouteRevoked`: record the slot and advance the task, or change nothing. */
  function Decide(s: Store, d: Due, mark: Mark, cal: Calendar): Store {
    if Decides(s, d, mark, cal) then Record(s, d, mark, cal.next(s.tasks[d.taskId].cron, Base(d, mark)).value) else s
  }

  /** The scheduler's choice for an observation. */
  function Choose(d: Due, grace: nat): Mark {
    if d.routeRevoked then Revoked else if d.slot < d.now - grace then Skipped else Claimed
  }

  predicate IsDue(s: Store, d: Due) {
    && IsCurrent(s, d) && d.slot <= d.now <= s.clock
    && d.kind == s.tasks[d.taskId].kind && d.routeRevoked == !s.tasks[d.taskId].routeEnabled
  }

  // ---------- interleavings ----------

  datatype Event =
    | Wait(clock: int)
    | Create(id: string, kind: Kind, cron: string, payload: string, silent: bool, routeEnabled: bool)
    | Update(patch: Patch)
    | SetRoute(id: string, on: bool)
    | Observe(due: Due)
    | Act(due: Due, grace: nat)

  function Step(s: Store, e: Event, cal: Calendar): Store {
    match e
    case Wait(clock) => if s.clock <= clock then s.(clock := clock) else s
    case Create(id, kind, cron, payload, silent, routeEnabled) => CreateTask(s, id, kind, cron, payload, silent, routeEnabled, cal)
    case Update(patch) => UpdateTask(s, patch, cal)
    case SetRoute(id, on) => if id in s.tasks then s.(tasks := s.tasks[id := s.tasks[id].(routeEnabled := on)]) else s
    case Observe(due) => if IsDue(s, due) then s.(seen := s.seen + {due}) else s
    case Act(due, grace) => if due in s.seen then Decide(s, due, Choose(due, grace), cal) else s
  }

  function After(s: Store, events: seq<Event>, cal: Calendar): Store {
    if events == [] then s else Step(After(s, events[..|events| - 1], cal), events[|events| - 1], cal)
  }

  ghost predicate Reachable(s: Store, cal: Calendar) {
    exists clock, events :: s == After(Store(map[], [], clock, {}), events, cal)
  }

  // ---------- the invariant ----------

  /** Every recorded slot lies in the past and strictly below the task's next slot, when it has one. */
  ghost predicate SlotsBelowNext(s: Store) {
    forall i | 0 <= i < |s.slots| ::
      && s.slots[i].scheduledFor <= s.clock
      && s.slots[i].taskId in s.tasks
      && (s.tasks[s.slots[i].taskId].nextRunAt.Some? ==> s.slots[i].scheduledFor < s.tasks[s.slots[i].taskId].nextRunAt.value)
  }

  ghost predicate SlotsDistinct(s: Store) {
    forall i, j | 0 <= i < j < |s.slots| ::
      s.slots[i].taskId == s.slots[j].taskId ==> s.slots[i].scheduledFor != s.slots[j].scheduledFor
  }

  ghost predicate Inv(s: Store) {
    && SlotsBelowNext(s) && SlotsDistinct(s)
    && forall d | d in s.seen :: d.slot <= d.now <= s.clock
  }

  lemma DecideKeepsInv(s: Store, d: Due, mark: Mark, cal: Calendar)
    requires Inv(s) && LooksAhead(cal) && d in s.seen
    ensures Inv(Decide(s, d, mark, cal))
  {
    if Decides(s, d, mark, cal) {
      var t := Decide(s, d, mark, cal);
      var next := t.tasks[d.taskId].nextRunAt.value;
      assert d.slot < next;
      forall i | 0 <= i < |s.slots| && s.slots[i].taskId == d.taskId ensures s.slots[i].scheduledFor < d.slot {
      }
    }
  }

  lemma UpdateKeepsInv(s: Store, p: Patch, cal: Calendar)
    requires Inv(s) && LooksAhead(cal)
    ensures Inv(UpdateTask(s, p, cal))
  {
    if PatchError(s, p, cal).None? {
      var t, t' := s.tasks[p.taskId], Patched(s.tasks[p.taskId], p, s.clock, cal);
      assert t'.nextRunAt.Some? ==> t'.nextRunAt == t.nextRunAt || s.clock < t'.nextRunAt.value;
    }
  }

  lemma StepKeepsInv(s: Store, e: Event, cal: Calendar)
    requires Inv(s) && LooksAhead(cal)
    ensures Inv(Step(s, e, cal))
  {
    match e {
      case Update(patch) => UpdateKeepsInv(s, patch, cal);
      case Act(due, grace) => if due in s.seen { DecideKeepsInv(s, due, Choose(due, grace), cal); }
      case _ =>
    }
  }

  lemma {:induction false} InvContinues(s: Store, events: seq<Event>, cal: Calendar)
    requires Inv(s) && LooksAhead(cal)
    ensures Inv(After(s, events, cal))
  {
    if events != [] {
      InvContinues(s, events[..|events| - 1], cal);
      StepKeepsInv(After(s, events[..|events| - 1], cal), events[|events| - 1], cal);
    }
  }

  // ---------- the promises ----------

  /** No slot of a task is ever decided twice, whoever races and whatever is edited in between. */
  lemma SlotsAreDecidedOnce(s: Store, cal: Calendar, i: nat, j: nat)
    requires LooksAhead(cal) && Reachable(s, cal)
    requires i < |s.slots| && j < |s.slots|
    requires s.slots[i].taskId == s.slots[j].taskId && s.slots[i].scheduledFor == s.slots[j].scheduledFor
    ensures i == j
  {
    ReachableInv(s, cal);
  }

  /** The next slot of a task is later than every slot already decided for it. */
  lemma NextSlotIsNew(s: Store, cal: Calendar, i: nat)
    requires LooksAhead(cal) && Reachable(s, cal) && i < |s.slots|
    ensures s.slots[i].taskId in s.tasks && s.slots[i].scheduledFor <= s.clock
    ensures s.tasks[s.slots[i].taskId].nextRunAt.Some? ==>
              s.slots[i].scheduledFor < s.tasks[s.slots[i].taskId].nextRunAt.value
  {
    ReachableInv(s, cal);
  }

  lemma ReachableInv(s: Store, cal: Calendar)
    requires LooksAhead(cal) && Reachable(s, cal)
    ensures Inv(s)
  {
    var clock, events :| s == After(Store(map[], [], clock, {}), events, cal);
    InvContinues(Store(map[], [], clock, {}), events, cal);
  }

  /** A decided observation is spent: acting on it again, at any later time, records nothing. */
  lemma {:induction false} DecidedDueIsSpent(s: Store, d: Due, mark: Mark, again: Mark, later: seq<Event>, cal: Calendar)
    requires LooksAhead(cal) && Reachable(s, cal) && d in s.seen && Decides(s, d, mark, cal)
    ensures var t := After(Decide(s, d, mark, cal), later, cal); Decide(t, d, again, cal) == t
  {
    ReachableInv(s, cal);
    DecideKeepsInv(s, d, mark, cal);
    var u := Decide(s, d, mark, cal);
    InvContinues(u, later, cal);
    SlotsGrow(u, later, cal);
    var t := After(u, later, cal);
    assert t.slots[|s.slots|] == u.slots[|s.slots|] == Slot(d.taskId, d.slot, mark);
  }

  lemma {:induction false} SlotsGrow(s: Store, events: seq<Event>, cal: Calendar)
    ensures s.slots <= After(s, events, cal).slots
  {
    if events != [] {
      SlotsGrow(s, events[..|events| - 1], cal);
    }
  }

  // ---------- the repository and the tick ----------

  /** The row after a successful update: the given fields, the others as they were, and the slot that goes with them. */
  ghost predicate Edited(before: Task, after: Task, p: Patch, now: int, cal: Calendar) {
    && after.kind == before.kind && after.routeEnabled == before.routeEnabled && after.version == before.version + 1
    && (if p.cron.Some? then after.cron == TrimSpace(p.cron.value) else after.cron == before.cron)
    && (if p.payload.Some? then after.payload == p.payload.value else after.payload == before.payload)
    && (if p.silent.Some? then after.silent == p.silent.value else after.silent == before.silent)
    && (if p.enabled.Some? then after.enabled == p.enabled.value else after.enabled == before.enabled)
    && (!after.enabled ==> after.nextRunAt.None?)
    && (after.enabled && (p.cron.Some? || !before.enabled || before.nextRunAt.None?) ==> after.nextRunAt == cal.next(after.cron, now))
    && (after.enabled && p.cron.None? && before.enabled && before.nextRunAt.Some? ==> after.nextRunAt == before.nextRunAt)
  }

  /** The task is enabled and unedited, still at the observed slot, and its route is as the transaction needs it. */
  ghost predicate IsSuited(t: Task, d: Due, mark: Mark) {
    && t.enabled && t.version == d.version && t.nextRunAt == Some(d.slot)
    && (if mark.Revoked? then !t.routeEnabled else t.routeEnabled) && (!mark.Claimed? ==> t.kind == d.kind)
  }

  /** The slot is recorded and the task moves on: from the slot after a claim, from the tick's time otherwise. */
  ghost predicate Advances(before: Store, after: Store, d: Due, mark: Mark, cal: Calendar) {
    && d.taskId in before.tasks
    && var next := cal.next(before.tasks[d.taskId].cron, if mark.Claimed? then d.slot else d.now);
       after == before.(slots := before.slots + [Slot(d.taskId, d.slot, mark)],
                        tasks := before.tasks[d.taskId := before.tasks[d.taskId].(nextRunAt := next)])
  }

  /** What is wrong with an update that is refused. */
  ghost predicate Refuses(tasks: map<string, Task>, p: Patch, cal: Calendar, err: UpdateError) {
    match err
    case MissingIdentity => Blank(p.taskId) || p.expectedVersion == 0
    case EmptyUpdate => p.cron.None? && p.payload.None? && p.silent.None? && p.enabled.None?
    case EmptyPayload => p.payload == Some("")
    case TaskNotFound => p.taskId !in tasks
    case VersionConflict => p.taskId in tasks && tasks[p.taskId].version != p.expectedVersion
    case BadCron => p.taskId in tasks && !cal.parses(if p.cron.Some? then TrimSpace(p.cron.value) else tasks[p.taskId].cron)
    case StoredPayloadMissing => p.taskId in tasks && p.payload.None? && Blank(tasks[p.taskId].payload)
  }

  lemma UpdateMeans(s: Store, p: Patch, cal: Calendar)
    ensures var err, t := PatchError(s, p, cal), UpdateTask(s, p, cal);
            && (if err.Some? then Refuses(s.tasks, p, cal, err.value) && t == s
                else && p.taskId in s.tasks && p.taskId in t.tasks && t == s.(tasks := s.tasks[p.taskId := t.tasks[p.taskId]])
                     && Edited(s.tasks[p.taskId], t.tasks[p.taskId], p, s.clock, cal)
                     && forall e :: !Refuses(s.tasks, p, cal, e))
  {
  }

  /** A new task is enabled, at its first version, and waits for the next instant of its expression. */
  lemma NewTaskIsScheduled(s: Store, id: string, kind: Kind, cron: string, payload: string, silent: bool, routeEnabled: bool,
                           cal: Calendar)
    ensures var t, next := CreateTask(s, id, kind, cron, payload, silent, routeEnabled, cal), cal.next(TrimSpace(cron), s.clock);
            if !Blank(id) && payload != "" && id !in s.tasks && cal.parses(TrimSpace(cron)) && next.Some?
            then && id in t.tasks && t.tasks[id] == Task(kind, TrimSpace(cron), payload, silent, true, 1, next, routeEnabled)
                 && t == s.(tasks := s.tasks[id := t.tasks[id]])
            else t == s
  {
  }

  class Repository {
    const cal: Calendar
    var tasks: map<string, Task>
    var slots: seq<Slot>
    ghost var clock: int
    ghost var seen: set<Due>

    ghost function View(): Store
      reads this
    {
      Store(tasks, slots, clock, seen)
    }

    constructor (cal: Calendar, clock: int)
      ensures this.cal == cal && View() == Store(map[], [], clock, {})
    {
      this.cal := cal;
      tasks, slots := map[], [];
      this.clock, seen := clock, {};
    }

    method UpdateOwnedTask(p: Patch, now: int) returns (err: Option<UpdateError>)
      requires now == clock
      modifies this
      ensures View() == UpdateTask(old(View()), p, cal) && err == PatchError(old(View()), p, cal)
      ensures err.Some? ==> Refuses(old(tasks), p, cal, err.value) && View() == old(View())
      ensures err.None? ==> forall e :: !Refuses(old(tasks), p, cal, e)
      ensures err.None? ==> && p.taskId in old(tasks) && p.taskId in tasks
                            && Edited(old(tasks)[p.taskId], tasks[p.taskId], p, now, cal)
                            && View() == old(View()).(tasks := old(tasks)[p.taskId := tasks[p.taskId]])
    {
      UpdateMeans(View(), p, cal);
      hide Edited, Refuses;
      if Blank(p.taskId) || p.expectedVersion == 0 { return Some(MissingIdentity); }
      if p.cron.None? && p.payload.None? && p.silent.None? && p.enabled.None? { return Some(EmptyUpdate); }
      if p.payload.Some? && |p.payload.value| == 0 { return Some(EmptyPayload); }
      if p.taskId !in tasks { return Some(TaskNotFound); }
      var stored := tasks[p.taskId];
      if stored.version != p.expectedVersion { return Some(VersionConflict); }
      var cron := if p.cron.Some? then TrimSpace(p.cron.value) else stored.cron;
      if !cal.parses(cron) { return Some(BadCron); }
      var payload := stored.payload;
      if p.payload.Some? {
        payload := p.payload.value;
      } else if Blank(stored.payload) {
        return Some(StoredPayloadMissing);
      }
      var silent := if p.silent.Some? then p.silent.value else stored.silent;
      var enabled := if p.enabled.Some? then p.enabled.value else stored.enabled;
      var next: Option<int> := None;
      if enabled {
        if stored.nextRunAt.None? || !stored.enabled || p.cron.Some? {
          next := cal.next(cron, now);
        } else {
          next := stored.nextRunAt;
        }
      }
      tasks := tasks[p.taskId := stored.(cron := cron, payload := payload, silent := silent, enabled := enabled,
                                          version := stored.version + 1, nextRunAt := next)];
      return None;
    }

    /** The three slot transactions share this shape; only a transaction that commits changes anything. */
    method DecideSlot(d: Due, mark: Mark) returns (verdict: Verdict)
      modifies this
      ensures View() == Decide(old(View()), d, mark, cal) && verdict == VerdictOf(old(View()), d, mark, cal)
      ensures verdict.Conflict? <==> !Blank(d.taskId) && d.version != 0 && !(d.taskId in old(tasks) && IsSuited(old(tasks)[d.taskId], d, mark))
      ensures verdict.Won? <==>
                && !Blank(d.taskId) && d.version != 0 && d.taskId in old(tasks) && IsSuited(old(tasks)[d.taskId], d, mark)
                && (mark.Claimed? ==> !Blank(old(tasks)[d.taskId].payload)) && cal.parses(old(tasks)[d.taskId].cron)
                && cal.next(old(tasks)[d.taskId].cron, if mark.Claimed? then d.slot else d.now).Some?
      ensures !verdict.Won? ==> View() == old(View())
      ensures verdict.Won? ==> Advances(old(View()), View(), d, mark, cal)
    {
      if Blank(d.taskId) || d.version == 0 { return Failed; }
      if d.taskId !in tasks { return Conflict; }
      var stored := tasks[d.taskId];
      if !stored.enabled || stored.version != d.version || stored.nextRunAt != Some(d.slot) { return Conflict; }
      if stored.routeEnabled == mark.Revoked? { return Conflict; }
      if !mark.Claimed? && stored.kind != d.kind { return Conflict; }
      if mark.Claimed? && Blank(stored.payload) { return Failed; }
      if !cal.parses(stored.cron) { return Failed; }
      var next := cal.next(stored.cron, if mark.Claimed? then d.slot else d.now);
      if next.None? { return Failed; }
      slots := slots + [Slot(d.taskId, d.slot, mark)];
      tasks := tasks[d.taskId := stored.(nextRunAt := next)];
      return Won;
    }

    /**
     The scan for due tasks: no more than `limit` rows, one per task, earliest first, and all of them if they fit; no
     task that is left out is due before a listed one.
     */
    method ListDue(now: int, limit: nat) returns (due: seq<Due>)
      requires 1 <= limit <= 1000 && now <= clock
      modifies this`seen
      ensures View() == old(View()).(seen := old(seen) + Elements(due))
      ensures OnePerTask(due) && Ascending(due) && |due| <= limit
      ensures forall i | 0 <= i < |due| ::
                due[i].now == now && IsDue(View(), due[i]) && due[i].taskId in tasks && Observed(tasks[due[i].taskId], due[i])
      ensures forall id | id in tasks && tasks[id].enabled && tasks[id].nextRunAt.Some? && tasks[id].nextRunAt.value <= now ::
                !Listed(due, id) ==> |due| == limit && forall i | 0 <= i < |due| :: due[i].slot <= tasks[id].nextRunAt.value
    {
      due := [];
      var left := set id | id in tasks && DueAt(tasks[id], now);
      hide IsDue, Observed, Ascending, OnePerTask, Listed;
      while left != {} && |due| < limit
        invariant Scanned(tasks, due, left, now) && |due| <= limit && seen == old(seen)
        decreases |left|
      {
        hide Scanned;
        var id := Earliest(left);
        ScanNext(tasks, due, left, now, id);
        due := due + [DueOf(id, tasks[id], now)];
        left := left - {id};
      }
      ScanDone(View(), due, left, now);
      seen := seen + Elements(due);
    }

    method Earliest(ids: set<string>) returns (first: string)
      requires ids != {}
      ensures first in ids && forall id | id in ids :: SlotIn(tasks, first) <= SlotIn(tasks, id)
    {
      first :| first in ids;
      var left := ids - {first};
      while left != {}
        invariant first in ids && left <= ids
        invariant forall id | id in ids - left :: SlotIn(tasks, first) <= SlotIn(tasks, id)
        decreases |left|
      {
        var id :| id in left;
        if SlotIn(tasks, id) < SlotIn(tasks, first) {
          first := id;
        }
        left := left - {id};
      }
    }
  }

  function SlotIn(tasks: map<string, Task>, id: string): int {
    if id in tasks then tasks[id].nextRunAt.GetOr(0) else 0
  }

  function DueOf(id: string, t: Task, now: int): Due {
    Due(id, t.version, t.nextRunAt.GetOr(0), t.kind, !t.routeEnabled, now)
  }

  ghost predicate Listed(due: seq<Due>, id: string) {
    exists i :: 0 <= i < |due| && due[i].taskId == id
  }

  ghost predicate Ascending(due: seq<Due>) {
    forall i, j | 0 <= i < j < |due| :: due[i].slot <= due[j].slot
  }

  ghost predicate DueIn(tasks: map<string, Task>, id: string, now: int) {
    id in tasks && DueAt(tasks[id], now)
  }

  /** A scan has listed `due`, earliest first, and `left` are the due tasks it has not reached. */
  ghost predicate Scanned(tasks: map<string, Task>, due: seq<Due>, left: set<string>, now: int) {
    && OnePerTask(due) && Ascending(due)
    && (forall id :: DueIn(tasks, id, now) ==> id in left || Listed(due, id))
    && (forall id | id in left :: DueIn(tasks, id, now) && !Listed(due, id))
    && (forall i | 0 <= i < |due| ::
          DueIn(tasks, due[i].taskId, now) && due[i] == DueOf(due[i].taskId, tasks[due[i].taskId], now))
    && (forall i, id | 0 <= i < |due| && id in left :: due[i].slot <= SlotIn(tasks, id))
  }

  /** What is seen of a due task. */
  ghost predicate Observed(t: Task, d: Due) {
    && t.enabled && t.nextRunAt == Some(d.slot) && d.slot <= d.now
    && d.version == t.version && d.kind == t.kind && d.routeRevoked == !t.routeEnabled
  }

  lemma ScanDone(s: Store, due: seq<Due>, left: set<string>, now: int)
    requires Scanned(s.tasks, due, left, now) && now <= s.clock
    ensures OnePerTask(due) && Ascending(due)
    ensures forall i | 0 <= i < |due| ::
              due[i].now == now && IsDue(s, due[i]) && due[i].taskId in s.tasks && Observed(s.tasks[due[i].taskId], due[i])
    ensures forall id | id in s.tasks && s.tasks[id].enabled && s.tasks[id].nextRunAt.Some? && s.tasks[id].nextRunAt.value <= now ::
              !Listed(due, id) ==> id in left && forall i | 0 <= i < |due| :: due[i].slot <= s.tasks[id].nextRunAt.value
  {
    hide Listed;
    forall id | id in s.tasks && DueAt(s.tasks[id], now) && !Listed(due, id) ensures id in left {
      assert DueIn(s.tasks, id, now);
    }
  }

  lemma ListedNext(due: seq<Due>, d: Due, id: string)
    ensures Listed(due + [d], id) <==> Listed(due, id) || id == d.taskId
  {
    var next := due + [d];
    assert next[|due|] == d && forall i | 0 <= i < |due| :: next[i] == due[i];
  }

  lemma ScanNext(tasks: map<string, Task>, due: seq<Due>, left: set<string>, now: int, id: string)
    requires Scanned(tasks, due, left, now) && id in left
    requires forall other | other in left :: SlotIn(tasks, id) <= SlotIn(tasks, other)
    ensures id in tasks && Scanned(tasks, due + [DueOf(id, tasks[id], now)], left - {id}, now)
  {
    var d := DueOf(id, tasks[id], now);
    forall other ensures Listed(due + [d], other) <==> Listed(due, other) || other == id {
      ListedNext(due, d, other);
    }
    hide Listed;
    forall i | 0 <= i < |due| ensures due[i].taskId != id {
    }
  }

  predicate DueAt(t: Task, now: int) {
    t.enabled && t.nextRunAt.Some? && t.nextRunAt.value <= now
  }

  ghost predicate OnePerTask(due: seq<Due>) {
    forall i, j | 0 <= i < j < |due| :: due[i].taskId != due[j].taskId
  }

  lemma AfterSnoc(s: Store, events: seq<Event>, e: Event, cal: Calendar)
    ensures After(s, events + [e], cal) == Step(After(s, events, cal), e, cal)
  {
    assert (events + [e])[..|events + [e]| - 1] == events;
  }

  // ---------- one tick ----------

  /** A scheduler's settings; `refuses` are the claimed runs that its dispatcher will not take. */
  datatype Scheduler = Scheduler(misfireGrace: int, maxPromptDispatch: int, refuses: Due -> bool)
  {
    function Grace(): nat {
      if misfireGrace <= 0 then 60 else misfireGrace
    }

    function MaxPrompts(): nat {
      if maxPromptDispatch <= 0 then 20 else maxPromptDispatch
    }

    function Mark(d: Due): Mark {
      Choose(d, Grace())
    }
  }

  predicate IsPromptClaim(d: Due, mark: Mark) {
    mark.Claimed? && d.kind.Prompt?
  }

  /** How many prompts are claimed by handling these observations against `s`. */
  function Prompts(s: Store, due: seq<Due>, x: Scheduler, cal: Calendar): nat {
    if due == [] then 0
    else
      var before, d := Prompts(s, due[..|due| - 1], x, cal), due[|due| - 1];
      if Handles(d, before, x) && IsPromptClaim(d, x.Mark(d)) && Decides(s, d, x.Mark(d), cal) then before + 1 else before
  }

  /** An observation is passed over when it names nothing, or when it is a prompt beyond the limit. */
  predicate Handles(d: Due, prompts: nat, x: Scheduler) {
    && d.taskId != "" && d.version != 0
    && !(IsPromptClaim(d, x.Mark(d)) && prompts >= x.MaxPrompts())
  }

  /** The steps that handling these observations takes. */
  function Acts(s: Store, due: seq<Due>, x: Scheduler, cal: Calendar): seq<Event> {
    if due == [] then []
    else
      var init, d := due[..|due| - 1], due[|due| - 1];
      Acts(s, init, x, cal) + if Handles(d, Prompts(s, init, x, cal), x) then [Act(d, x.Grace())] else []
  }

  /** The slots that are recorded. */
  function Recorded(s: Store, due: seq<Due>, x: Scheduler, cal: Calendar): seq<Slot> {
    if due == [] then []
    else
      var init, d := due[..|due| - 1], due[|due| - 1];
      Recorded(s, init, x, cal)
      + if Handles(d, Prompts(s, init, x, cal), x) && Decides(s, d, x.Mark(d), cal) then [Slot(d.taskId, d.slot, x.Mark(d))] else []
  }

  /** The runs that are claimed and handed to the dispatcher. */
  function Claims(s: Store, due: seq<Due>, x: Scheduler, cal: Calendar): seq<Due> {
    if due == [] then []
    else
      var init, d := due[..|due| - 1], due[|due| - 1];
      Claims(s, init, x, cal)
      + if Handles(d, Prompts(s, init, x, cal), x) && x.Mark(d).Claimed? && Decides(s, d, x.Mark(d), cal) then [d] else []
  }

  /**
   Handling `d` ends the tick with an error: its transaction fails other than by a conflict, or it is a misfire that
   somebody else decided first, or the dispatcher refuses the claimed run. A lost claim or revocation does not.
   */
  predicate Ends(s: Store, d: Due, x: Scheduler, cal: Calendar) {
    var verdict := VerdictOf(s, d, x.Mark(d), cal);
    || verdict.Failed?
    || (verdict.Conflict? && x.Mark(d).Skipped?)
    || (verdict.Won? && x.Mark(d).Claimed? && x.refuses(d))
  }

  ghost predicate EndsAt(s: Store, due: seq<Due>, i: nat, x: Scheduler, cal: Calendar) {
    i < |due| && Handles(due[i], Prompts(s, due[..i], x, cal), x) && Ends(s, due[i], x, cal)
  }

  /** None of the first `k` observations ends the tick. */
  ghost predicate NoneEnds(s: Store, due: seq<Due>, k: nat, x: Scheduler, cal: Calendar) {
    forall i: nat | i < k :: !EndsAt(s, due, i, x, cal)
  }

  function PromptsIn(claims: seq<Due>): nat {
    if claims == [] then 0
    else PromptsIn(claims[..|claims| - 1]) + (if claims[|claims| - 1].kind.Prompt? then 1 else 0)
  }

  lemma {:induction false} PromptsAreClaims(s: Store, due: seq<Due>, x: Scheduler, cal: Calendar)
    ensures PromptsIn(Claims(s, due, x, cal)) == Prompts(s, due, x, cal)
    ensures PromptsIn(Claims(s, due, x, cal)) <= if x.maxPromptDispatch <= 0 then 20 else x.maxPromptDispatch
  {
    hide Decides, Choose;
    if due != [] {
      var init, d := due[..|due| - 1], due[|due| - 1];
      PromptsAreClaims(s, init, x, cal);
      var claims := Claims(s, init, x, cal);
      assert (claims + [d])[..|claims|] == claims && claims + [] == claims;
    }
  }

  /**
   An observation that names a task is passed over only when it is a prompt to be claimed and the limit is reached; any
   other whose transaction would succeed is recorded, and dispatched if it is a claim.
   */
  lemma {:induction false} NothingElseIsPassedOver(s: Store, due: seq<Due>, i: nat, x: Scheduler, cal: Calendar)
    requires i < |due| && !Blank(due[i].taskId) && due[i].version != 0 && Decides(s, due[i], x.Mark(due[i]), cal)
    requires due[i].kind.Prompt? && x.Mark(due[i]).Claimed? ==> PromptsIn(Claims(s, due[..i], x, cal)) < x.MaxPrompts()
    ensures Slot(due[i].taskId, due[i].slot, x.Mark(due[i])) in Recorded(s, due, x, cal)
    ensures x.Mark(due[i]).Claimed? ==> due[i] in Claims(s, due, x, cal)
  {
    hide Recorded, Claims, Prompts, PromptsIn, Acts, Decides, Choose, Handles, Blank;
    var n := |due| - 1;
    if i < n {
      assert due[..n][..i] == due[..i];
      NothingElseIsPassedOver(s, due[..n], i, x, cal);
      RecordsGrow(s, due, x, cal);
    } else {
      PromptsAreClaims(s, due[..n], x, cal);
      LastIsRecorded(s, due, x, cal);
    }
  }

  lemma RecordsGrow(s: Store, due: seq<Due>, x: Scheduler, cal: Calendar)
    requires due != []
    ensures Recorded(s, due[..|due| - 1], x, cal) <= Recorded(s, due, x, cal)
    ensures Claims(s, due[..|due| - 1], x, cal) <= Claims(s, due, x, cal)
  {
    hide Decides, Choose, Handles;
  }

  lemma LastIsRecorded(s: Store, due: seq<Due>, x: Scheduler, cal: Calendar)
    requires due != []
    requires var d := due[|due| - 1];
             && !Blank(d.taskId) && d.version != 0 && Decides(s, d, x.Mark(d), cal)
             && (d.kind.Prompt? && x.Mark(d).Claimed? ==> Prompts(s, due[..|due| - 1], x, cal) < x.MaxPrompts())
    ensures var d := due[|due| - 1];
            && Slot(d.taskId, d.slot, x.Mark(d)) in Recorded(s, due, x, cal)
            && (x.Mark(d).Claimed? ==> d in Claims(s, due, x, cal))
  {
    hide Decides, Choose;
  }

  /** Observations that name no task or no version are never acted upon. */
  lemma {:induction false} OnlyNamedTasksAreHandled(s: Store, due: seq<Due>, x: Scheduler, cal: Calendar)
    ensures forall e | e in Acts(s, due, x, cal) :: e.Act? && e.due in due && e.due.taskId != "" && e.due.version != 0
  {
    hide Prompts;
    if due != [] {
      OnlyNamedTasksAreHandled(s, due[..|due| - 1], x, cal);
    }
  }

  ghost predicate SameTask(a: Store, b: Store, id: string) {
    (id in a.tasks <==> id in b.tasks) && (id in a.tasks ==> a.tasks[id] == b.tasks[id])
  }

  lemma SameVerdict(a: Store, b: Store, d: Due, mark: Mark, cal: Calendar)
    requires SameTask(a, b, d.taskId)
    ensures VerdictOf(a, d, mark, cal) == VerdictOf(b, d, mark, cal)
  {
  }

  /**
   One tick over the observations of a scan, which may be stale. It fails exactly when the store it starts from makes
   some observation end it; it handles the observations in order up to there, and decides and dispatches nothing else.
   */
  method Tick(store: Repository, due: seq<Due>, x: Scheduler)
    returns (failed: bool, dispatched: seq<Due>, ghost handled: nat)
    requires OnePerTask(due) && forall i | 0 <= i < |due| :: due[i] in store.seen
    modifies store
    ensures var s := old(store.View());
            && handled <= |due|
            && store.View() == After(s, Acts(s, due[..handled], x, store.cal), store.cal)
            && store.slots == s.slots + Recorded(s, due[..handled], x, store.cal)
            && dispatched == Claims(s, due[..handled], x, store.cal) && PromptsIn(dispatched) <= x.MaxPrompts()
            && (failed <==> exists i: nat :: EndsAt(s, due, i, x, store.cal))
            && (if failed then handled > 0 && EndsAt(s, due, handled - 1, x, store.cal) && NoneEnds(s, due, handled - 1, x, store.cal)
                else handled == |due|)
  {
    ghost var s, cal := store.View(), store.cal;
    hide Ticking, EndsAt, NoneEnds, After, Acts, Claims, Recorded, PromptsIn;
    ghost var prompts;
    failed, dispatched, handled, prompts := HandleAll(store, due, x);
    TickDone(s, due, handled, x, cal, store.View(), dispatched, prompts);
  }

  /** The loop over the observations. */
  method HandleAll(store: Repository, due: seq<Due>, x: Scheduler)
    returns (failed: bool, dispatched: seq<Due>, ghost handled: nat, ghost prompts: nat)
    requires OnePerTask(due) && Ticking(store.View(), due, 0, x, store.cal, store.View(), [], 0)
    modifies store
    ensures var s := old(store.View());
            && handled <= |due| && Ticking(s, due, handled, x, store.cal, store.View(), dispatched, prompts)
            && (if failed then handled > 0 && EndsAt(s, due, handled - 1, x, store.cal) && NoneEnds(s, due, handled - 1, x, store.cal)
                else handled == |due| && NoneEnds(s, due, handled, x, store.cal))
  {
    ghost var s, cal := store.View(), store.cal;
    dispatched, handled, prompts := [], 0, 0;
    var promptCount := 0;
    assert NoneEnds(s, due, 0, x, cal);
    hide Ticking, Ends, EndsAt, NoneEnds, Decide, Decides, Choose, Handles;
    for i := 0 to |due|
      invariant handled == i && prompts == promptCount
      invariant Ticking(s, due, i, x, cal, store.View(), dispatched, promptCount)
      invariant NoneEnds(s, due, i, x, cal)
    {
      var d := due[i];
      TickNext(s, due, i, x, cal, store.View(), dispatched, promptCount);
      handled := i + 1;
      if !Handles(d, promptCount, x) {
        continue;
      }
      var ends, claimed := HandleDue(store, d, x);
      if claimed {
        promptCount := promptCount + if d.kind.Prompt? then 1 else 0;
        dispatched := dispatched + [d];
      }
      prompts := promptCount;
      if ends {
        return true, dispatched, handled, prompts;
      }
    }
    failed := false;
  }

  lemma DecideAdvances(s: Store, d: Due, mark: Mark, cal: Calendar)
    ensures if Decides(s, d, mark, cal) then Advances(s, Decide(s, d, mark, cal), d, mark, cal) else Decide(s, d, mark, cal) == s
  {
  }

  /** One observation: revoked, skipped, or claimed and dispatched. */
  method HandleDue(store: Repository, d: Due, x: Scheduler) returns (ends: bool, claimed: bool)
    modifies store
    ensures store.View() == Decide(old(store.View()), d, x.Mark(d), store.cal)
    ensures ends == Ends(old(store.View()), d, x, store.cal)
    ensures claimed == (x.Mark(d).Claimed? && Decides(old(store.View()), d, x.Mark(d), store.cal))
    ensures var late := d.slot < d.now - (if x.misfireGrace <= 0 then 60 else x.misfireGrace);
            var mark := if d.routeRevoked then Revoked else if late then Skipped else Claimed;
            var verdict := VerdictOf(old(store.View()), d, mark, store.cal);
            && (if verdict.Won? then Advances(old(store.View()), store.View(), d, mark, store.cal) else store.View() == old(store.View()))
            && (claimed <==> verdict.Won? && !d.routeRevoked && !late)
            && (ends <==> || verdict.Failed? || (verdict.Conflict? && late && !d.routeRevoked)
                          || (verdict.Won? && mark.Claimed? && x.refuses(d)))
  {
    DecideAdvances(store.View(), d, x.Mark(d), store.cal);
    hide VerdictOf;
    var verdict := store.DecideSlot(d, x.Mark(d));
    match x.Mark(d) {
      case Revoked => return verdict.Failed?, false;
      case Skipped => return !verdict.Won?, false;
      case Claimed =>
        if verdict.Conflict? {
          return false, false;
        }
        if verdict.Failed? {
          return true, false;
        }
        return x.refuses(d), true;
    }
  }

  /** Where a tick stands after the first `i` observations. */
  ghost predicate Ticking(s: Store, due: seq<Due>, i: nat, x: Scheduler, cal: Calendar, now: Store, claims: seq<Due>, prompts: nat) {
    && i <= |due|
    && now == After(s, Acts(s, due[..i], x, cal), cal) && now.seen == s.seen
    && now.slots == s.slots + Recorded(s, due[..i], x, cal)
    && claims == Claims(s, due[..i], x, cal) && prompts == Prompts(s, due[..i], x, cal)
    && forall j | i <= j < |due| :: due[j] in s.seen && SameTask(s, now, due[j].taskId)
  }

  lemma TickDone(s: Store, due: seq<Due>, i: nat, x: Scheduler, cal: Calendar, now: Store, claims: seq<Due>, prompts: nat)
    requires Ticking(s, due, i, x, cal, now, claims, prompts)
    ensures now == After(s, Acts(s, due[..i], x, cal), cal) && claims == Claims(s, due[..i], x, cal)
    ensures now.slots == s.slots + Recorded(s, due[..i], x, cal) && PromptsIn(claims) <= x.MaxPrompts()
  {
    PromptsAreClaims(s, due[..i], x, cal);
  }

  /** The next observation, as the specification and as the store see it. */
  lemma TickNext(s: Store, due: seq<Due>, i: nat, x: Scheduler, cal: Calendar, now: Store, claims: seq<Due>, prompts: nat)
    requires i < |due| && OnePerTask(due) && Ticking(s, due, i, x, cal, now, claims, prompts)
    ensures var d := due[i];
            var handles, mark := Handles(d, prompts, x), x.Mark(d);
            var claimed := handles && mark.Claimed? && Decides(now, d, mark, cal);
            && (EndsAt(s, due, i, x, cal) <==> handles && Ends(now, d, x, cal))
            && Ticking(s, due, i + 1, x, cal, if handles then Decide(now, d, mark, cal) else now,
                       if claimed then claims + [d] else claims, if claimed && d.kind.Prompt? then prompts + 1 else prompts)
  {
    hide VerdictOf, Choose, After, Acts, Claims, Prompts, Recorded, Decide;
    SameVerdict(s, now, due[i], x.Mark(due[i]), cal);
    TickStep(s, due, i, x, cal);
    ActStep(s, due, i, x, cal, now);
  }

  lemma TickStep(s: Store, due: seq<Due>, i: nat, x: Scheduler, cal: Calendar)
    requires i < |due|
    ensures var before, d := due[..i], due[i];
            var prompts := Prompts(s, before, x, cal);
            var handles, mark := Handles(d, prompts, x), x.Mark(d);
            var claims := handles && mark.Claimed? && Decides(s, d, mark, cal);
            && Prompts(s, due[..i + 1], x, cal) == prompts + (if claims && d.kind.Prompt? then 1 else 0)
            && Acts(s, due[..i + 1], x, cal)
               == (if handles then Acts(s, before, x, cal) + [Act(d, x.Grace())] else Acts(s, before, x, cal))
            && Recorded(s, due[..i + 1], x, cal)
               == (if handles && Decides(s, d, mark, cal) then Recorded(s, before, x, cal) + [Slot(d.taskId, d.slot, mark)]
                   else Recorded(s, before, x, cal))
            && Claims(s, due[..i + 1], x, cal) == if claims then Claims(s, before, x, cal) + [d] else Claims(s, before, x, cal)
  {
    hide VerdictOf, Choose;
    var next := due[..i + 1];
    assert next[..|next| - 1] == due[..i] && next[|next| - 1] == due[i];
  }

  /** Acting on one observation takes its step and leaves the tasks of the other observations alone. */
  lemma ActStep(s: Store, due: seq<Due>, i: nat, x: Scheduler, cal: Calendar, now: Store)
    requires i < |due| && OnePerTask(due) && due[i] in now.seen
    requires now == After(s, Acts(s, due[..i], x, cal), cal)
    ensures var next := Decide(now, due[i], x.Mark(due[i]), cal);
            && After(s, Acts(s, due[..i], x, cal) + [Act(due[i], x.Grace())], cal) == next && next.seen == now.seen
            && next.slots == (if Decides(now, due[i], x.Mark(due[i]), cal)
                              then now.slots + [Slot(due[i].taskId, due[i].slot, x.Mark(due[i]))] else now.slots)
            && forall j | i < j < |due| :: SameTask(now, next, due[j].taskId)
  {
    hide Acts, After;
    AfterSnoc(s, Acts(s, due[..i], x, cal), Act(due[i], x.Grace()), cal);
    forall j | i < j < |due| ensures due[j].taskId != due[i].taskId {}
  }

  // ---------- a lost misfire ----------

  /** A misfire that another scheduler has decided ends the tick of everybody who still holds the observation. */
  lemma LostMisfireEnds(s: Store, d: Due, later: seq<Event>, x: Scheduler, cal: Calendar)
    requires LooksAhead(cal) && Reachable(s, cal) && d in s.seen && x.Mark(d).Skipped? && Decides(s, d, Skipped, cal)
    ensures Ends(After(Decide(s, d, Skipped, cal), later, cal), d, x, cal)
  {
    DecidedDueIsSpent(s, d, Skipped, Skipped, later, cal);
    assert x.Mark(d) == Skipped;
  }

  /** Every expression is due a minute after any instant. */
  function EveryMinute(): Calendar {
    Calendar((cron: string) => true, (cron: string, t: int) => Some(t + 60))
  }

  /** A prompt task created at time 0 and observed at time `now`. */
  function Sample(payload: string, now: int): (Store, Due) {
    var d := Due("t", 1, 60, Prompt, false, now);
    (Store(map["t" := Task(Prompt, "* * * * *", payload, false, true, 1, Some(60), true)], [], now, {d}), d)
  }

  lemma SampleIsReachable(payload: string, now: int)
    requires payload != "" && now >= 60
    ensures LooksAhead(EveryMinute()) && Reachable(Sample(payload, now).0, EveryMinute())
    ensures IsDue(Sample(payload, now).0, Sample(payload, now).1)
  {
    var start, cal, d := Store(map[], [], 0, {}), EveryMinute(), Sample(payload, now).1;
    var created := Create("t", Prompt, "* * * * *", payload, false, true);
    var s1 := Step(start, created, cal);
    assert s1.tasks == map["t" := Task(Prompt, "* * * * *", payload, false, true, 1, Some(60), true)];
    AfterThree(start, created, Wait(now), Observe(d), cal);
  }

  /** Two schedulers that see the same misfire: the first skips it, and the tick of the second fails at it. */
  lemma TwoSchedulersOneMisfire(x: Scheduler) returns (cal: Calendar, s: Store, d: Due)
    requires x.misfireGrace == 60
    ensures LooksAhead(cal) && Reachable(s, cal) && d in s.seen && OnePerTask([d])
    ensures !EndsAt(s, [d], 0, x, cal) && Decides(s, d, Skipped, cal)
    ensures EndsAt(Decide(s, d, Skipped, cal), [d], 0, x, cal)
  {
    SampleIsReachable("run", 1000);
    cal, s, d := EveryMinute(), Sample("run", 1000).0, Sample("run", 1000).1;
    assert x.Mark(d) == Skipped && [d][..0] == [];
    hide Reachable, LooksAhead;
    LostMisfireEnds(s, d, [], x, cal);
  }

  /**
   Creation and update refuse an empty payload but not one of white space; a claim refuses both, and not as a conflict.
   A prompt of white space gets as far as the table, and ends every tick that comes to claim it.
   */
  lemma BlankPayloadEndsTheTick(x: Scheduler) returns (cal: Calendar, s: Store, d: Due)
    ensures LooksAhead(cal) && Reachable(s, cal) && d in s.seen && IsDue(s, d)
    ensures EndsAt(s, [d], 0, x, cal)
  {
    SampleIsReachable(" ", 60);
    cal, s, d := EveryMinute(), Sample(" ", 60).0, Sample(" ", 60).1;
    hide Reachable, LooksAhead;
    assert x.Mark(d) == Claimed && [d][..0] == [];
  }

  lemma AfterThree(s: Store, a: Event, b: Event, c: Event, cal: Calendar)
    ensures After(s, [a, b, c], cal) == Step(Step(Step(s, a, cal), b, cal), c, cal)
  {
    hide Step, After;
    AfterSnoc(s, [], a, cal);
    AfterSnoc(s, [a], b, cal);
    AfterSnoc(s, [a, b], c, cal);
    assert [] + [a] == [a] && [a] + [b] == [a, b] && [a, b] + [c] == [a, b, c];
    AfterNothing(s, cal);
  }

  lemma AfterNothing(s: Store, cal: Calendar)
    ensures After(s, [], cal) == s
  {
  }
}
