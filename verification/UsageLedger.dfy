/**
 Durable token accounting: a ledger of completed turns, one row of effective usage per thread, and session totals that
 are derived from the thread rows. Each record is one transaction; an error rolls all of it back.
 */
module UsageLedger {
  import opened Common
  import opened TokenUsage

  datatype Session = Session(appId: string, chatType: string, chatId: string)

  predicate ValidSession(s: Session) {
    s.appId != "" && s.chatType != "" && s.chatId != ""
  }

  datatype TurnRecord = TurnRecord(traceId: string, threadId: string, turnId: string, session: Session, usage: Usage)

  datatype SnapshotRecord = SnapshotRecord(threadId: string, session: Session, usage: Usage)

  datatype ThreadRow = ThreadRow(session: Session, threadId: string, usage: Usage)

  datatype Total = Total(usage: Usage, completedTurns: nat)

  /** The primary key of the ledger. */
  datatype TurnKey = TurnKey(traceId: string, turnId: string)

  /** What was accepted for a thread: a turn that is new to the ledger, or a snapshot that is a high-water mark. */
  datatype Entry =
    | Turn(key: TurnKey, session: Session, threadId: string, usage: Usage)
    | Snapshot(session: Session, threadId: string, usage: Usage)

  datatype Tables = Tables(ledger: set<TurnKey>, threads: seq<ThreadRow>, totals: map<Session, Total>, log: seq<Entry>)

  const EMPTY := Tables({}, [], map[], [])

  datatype Failure = KeysRequired | ThreadRequired | OutOfRange

  datatype Recorded = Recorded(total: Total, inserted: bool)

  // ---------- the thread rows ----------

  /** The row of a thread, or the number of rows. */
  function Find(rows: seq<ThreadRow>, session: Session, thread: string): (k: nat)
    ensures k <= |rows|
    ensures k < |rows| ==> rows[k].session == session && rows[k].threadId == thread
    ensures forall i | 0 <= i < k :: !(rows[i].session == session && rows[i].threadId == thread)
  {
    if rows == [] then 0
    else
      var k := Find(rows[..|rows| - 1], session, thread);
      if k < |rows| - 1 then k
      else if rows[|rows| - 1].session == session && rows[|rows| - 1].threadId == thread then |rows| - 1
      else |rows|
  }

  function Usages(rows: seq<ThreadRow>, session: Session, thread: string): Option<Usage> {
    var k := Find(rows, session, thread);
    if k < |rows| then Some(rows[k].usage) else None
  }

  function Put(rows: seq<ThreadRow>, session: Session, thread: string, usage: Usage): seq<ThreadRow> {
    var k := Find(rows, session, thread);
    if k < |rows| then rows[k := ThreadRow(session, thread, usage)] else rows + [ThreadRow(session, thread, usage)]
  }

  function Sum(rows: seq<ThreadRow>, session: Session): Usage {
    if rows == [] then ZERO
    else
      var before, row := Sum(rows[..|rows| - 1], session), rows[|rows| - 1];
      if row.session == session then Plus(before, row.usage) else before
  }

  // ---------- the transactions ----------

  predicate InRange(u: Usage) {
    AtLeast(u, ZERO)
  }

  function DeriveTotal(db: Tables, session: Session, completed: bool): Tables {
    var turns := if session in db.totals then db.totals[session].completedTurns else 0;
    db.(totals := db.totals[session := Total(Sum(db.threads, session), turns + if completed then 1 else 0)])
  }

  function AddTurn(db: Tables, r: TurnRecord): Tables {
    var before := Usages(db.threads, r.session, r.threadId).GetOr(ZERO);
    db.(threads := Put(db.threads, r.session, r.threadId, Plus(before, r.usage)),
        log := db.log + [Turn(TurnKey(r.traceId, r.turnId), r.session, r.threadId, r.usage)])
  }

  function TurnFailure(db: Tables, r: TurnRecord): Option<Failure> {
    if r.traceId == "" || r.turnId == "" then Some(KeysRequired)
    else if !ValidSession(r.session) || TurnKey(r.traceId, r.turnId) in db.ledger then None
    else if r.threadId == "" then Some(ThreadRequired)
    else if !InRange(r.usage) then Some(OutOfRange)
    else None
  }

  function TurnStep(db: Tables, r: TurnRecord): Tables {
    if TurnFailure(db, r).Some? then db
    else
      var key := TurnKey(r.traceId, r.turnId);
      var inserted := key !in db.ledger;
      var kept := db.(ledger := db.ledger + {key});
      if !ValidSession(r.session) then kept
      else DeriveTotal(if inserted then AddTurn(kept, r) else kept, r.session, inserted)
  }

  function SnapshotFailure(db: Tables, r: SnapshotRecord): Option<Failure> {
    if r.threadId == "" || !ValidSession(r.session) then Some(KeysRequired)
    else if Usages(db.threads, r.session, r.threadId).None? && !InRange(r.usage) then Some(OutOfRange)
    else None
  }

  predicate IsHighWater(db: Tables, r: SnapshotRecord) {
    var current := Usages(db.threads, r.session, r.threadId);
    current.None? || AtLeast(r.usage, current.value)
  }

  function SnapshotStep(db: Tables, r: SnapshotRecord): Tables {
    if SnapshotFailure(db, r).Some? then db
    else
      DeriveTotal(if IsHighWater(db, r)
                  then db.(threads := Put(db.threads, r.session, r.threadId, r.usage),
                           log := db.log + [Snapshot(r.session, r.threadId, r.usage)])
                  else db,
                  r.session, false)
  }

  datatype Event = RecordTurn(turn: TurnRecord) | RecordSnapshot(snapshot: SnapshotRecord)

  function Step(db: Tables, e: Event): Tables {
    match e
    case RecordTurn(r) => TurnStep(db, r)
    case RecordSnapshot(r) => SnapshotStep(db, r)
  }

  function After(db: Tables, events: seq<Event>): Tables {
    if events == [] then db else Step(After(db, events[..|events| - 1]), events[|events| - 1])
  }

  /** A run of records is its records, one after the other. */
  lemma RecordsFollow(db: Tables, events: seq<Event>, e: Event)
    ensures After(db, []) == db && After(db, events + [e]) == Step(After(db, events), e)
  {
    assert (events + [e])[..|events|] == events;
  }

  // ---------- what the tables should hold ----------

  predicate About(e: Entry, session: Session, thread: string) {
    e.session == session && e.threadId == thread
  }

  /** The last accepted snapshot of a thread. */
  function Base(log: seq<Entry>, session: Session, thread: string): Usage {
    if log == [] then ZERO
    else
      var e := log[|log| - 1];
      if About(e, session, thread) && e.Snapshot? then e.usage else Base(log[..|log| - 1], session, thread)
  }

  /** The turns of a thread first recorded since its last accepted snapshot. */
  function Since(log: seq<Entry>, session: Session, thread: string): Usage {
    if log == [] then ZERO
    else
      var e := log[|log| - 1];
      if !About(e, session, thread) then Since(log[..|log| - 1], session, thread)
      else if e.Snapshot? then ZERO
      else Plus(Since(log[..|log| - 1], session, thread), e.usage)
  }

  predicate Mentioned(log: seq<Entry>, session: Session, thread: string) {
    log != [] && (About(log[|log| - 1], session, thread) || Mentioned(log[..|log| - 1], session, thread))
  }

  function Effective(log: seq<Entry>, session: Session, thread: string): Option<Usage> {
    if Mentioned(log, session, thread) then Some(Plus(Base(log, session, thread), Since(log, session, thread))) else None
  }

  /** The turns of a session that were new to the ledger. */
  function Insertions(log: seq<Entry>, session: Session): nat {
    if log == [] then 0
    else
      var e := log[|log| - 1];
      Insertions(log[..|log| - 1], session) + if e.Turn? && e.session == session then 1 else 0
  }

  /** The ledger keys of the turns in the log, and those of one session. */
  function AllKeys(log: seq<Entry>): set<TurnKey> {
    if log == [] then {} else AllKeys(log[..|log| - 1]) + if log[|log| - 1].Turn? then {log[|log| - 1].key} else {}
  }

  function TurnKeys(log: seq<Entry>, session: Session): set<TurnKey> {
    if log == [] then {}
    else
      var e := log[|log| - 1];
      TurnKeys(log[..|log| - 1], session) + if e.Turn? && e.session == session then {e.key} else {}
  }

  /** No turn is in the log twice. */
  ghost predicate TurnsDistinct(log: seq<Entry>) {
    log == [] || (TurnsDistinct(log[..|log| - 1]) && (log[|log| - 1].Turn? ==> log[|log| - 1].key !in AllKeys(log[..|log| - 1])))
  }

  lemma {:induction false} InsertionsAreKeys(log: seq<Entry>, session: Session)
    requires TurnsDistinct(log)
    ensures Insertions(log, session) == |TurnKeys(log, session)| && TurnKeys(log, session) <= AllKeys(log)
  {
    if log != [] {
      InsertionsAreKeys(log[..|log| - 1], session);
    }
  }

  ghost predicate KeysAgree(db: Tables) {
    TurnsDistinct(db.log) && AllKeys(db.log) <= db.ledger
  }

  ghost predicate RowsAgree(db: Tables) {
    forall s, t :: Usages(db.threads, s, t) == Effective(db.log, s, t)
  }

  ghost predicate TotalsAgree(db: Tables) {
    && (forall s | s in db.totals ::
          db.totals[s].usage == Sum(db.threads, s) && db.totals[s].completedTurns == Insertions(db.log, s))
    && (forall s | s !in db.totals :: Sum(db.threads, s) == ZERO && Insertions(db.log, s) == 0)
  }

  ghost predicate NonNegative(db: Tables) {
    forall i | 0 <= i < |db.threads| :: InRange(db.threads[i].usage)
  }

  ghost predicate Inv(db: Tables) {
    RowsAgree(db) && TotalsAgree(db) && NonNegative(db) && KeysAgree(db)
  }

  // ---------- one row changes ----------

  lemma {:induction false} PutFinds(rows: seq<ThreadRow>, session: Session, thread: string, usage: Usage, s: Session, t: string)
    ensures Usages(Put(rows, session, thread, usage), s, t)
         == if s == session && t == thread then Some(usage) else Usages(rows, s, t)
  {
    var next := Put(rows, session, thread, usage);
    var k := Find(rows, session, thread);
    var before, after := Find(rows, s, t), Find(next, s, t);
    assert forall i | 0 <= i < |rows| && i != k :: next[i] == rows[i];
    assert next[k] == ThreadRow(session, thread, usage);
    if s == session && t == thread {
      assert after <= k;
    } else {
      assert after < |next| ==> after != k;
      assert after < |rows| ==> next[after] == rows[after];
      assert before < |rows| ==> next[before] == rows[before];
      assert after < |rows| ==> before <= after;
      assert before < |rows| ==> after <= before;
    }
  }

  lemma {:induction false} SumOfOthers(rows: seq<ThreadRow>, k: nat, row: ThreadRow, s: Session)
    requires k < |rows| && rows[k].session == row.session != s
    ensures Sum(rows[k := row], s) == Sum(rows, s)
  {
    var init := rows[..|rows| - 1];
    if k < |rows| - 1 {
      SumOfOthers(init, k, row, s);
      assert rows[k := row][..|rows| - 1] == init[k := row];
    } else {
      assert rows[k := row][..|rows| - 1] == init;
    }
  }

  lemma {:induction false} SumGrows(rows: seq<ThreadRow>, k: nat, row: ThreadRow, s: Session)
    requires k < |rows| && rows[k].session == row.session && AtLeast(row.usage, rows[k].usage)
    ensures AtLeast(Sum(rows[k := row], s), Sum(rows, s))
  {
    var init := rows[..|rows| - 1];
    if k < |rows| - 1 {
      SumGrows(init, k, row, s);
      assert rows[k := row][..|rows| - 1] == init[k := row];
    } else {
      assert rows[k := row][..|rows| - 1] == init;
    }
  }

  /** Writing one row leaves the sums of other sessions, and no sum falls if the row does not. */
  lemma PutSums(rows: seq<ThreadRow>, session: Session, thread: string, usage: Usage, s: Session)
    requires AtLeast(usage, Usages(rows, session, thread).GetOr(ZERO))
    ensures s != session ==> Sum(Put(rows, session, thread, usage), s) == Sum(rows, s)
    ensures AtLeast(Sum(Put(rows, session, thread, usage), s), Sum(rows, s))
  {
    var k, row := Find(rows, session, thread), ThreadRow(session, thread, usage);
    if k < |rows| {
      SumGrows(rows, k, row, s);
      if s != session {
        SumOfOthers(rows, k, row, s);
      }
    } else {
      assert (rows + [row])[..|rows|] == rows;
    }
  }

  lemma EffectiveNext(log: seq<Entry>, e: Entry, s: Session, t: string)
    ensures var before := Effective(log, s, t);
            Effective(log + [e], s, t)
            == if !About(e, s, t) then before
               else if e.Snapshot? then Some(e.usage)
               else Some(Plus(before.GetOr(ZERO), e.usage))
    ensures Insertions(log + [e], s) == Insertions(log, s) + if e.Turn? && e.session == s then 1 else 0
  {
    assert (log + [e])[..|log|] == log;
    if !Mentioned(log, s, t) {
      Unmentioned(log, s, t);
    }
  }

  lemma {:induction false} Unmentioned(log: seq<Entry>, s: Session, t: string)
    requires !Mentioned(log, s, t)
    ensures Base(log, s, t) == ZERO && Since(log, s, t) == ZERO
  {
    if log != [] {
      Unmentioned(log[..|log| - 1], s, t);
    }
  }

  /** An accepted entry is written to its row and to the log together. */
  lemma WriteKeepsRows(db: Tables, e: Entry, usage: Usage)
    requires RowsAgree(db) && NonNegative(db) && InRange(usage)
    requires usage == if e.Snapshot? then e.usage else Plus(Usages(db.threads, e.session, e.threadId).GetOr(ZERO), e.usage)
    ensures var next := db.(threads := Put(db.threads, e.session, e.threadId, usage), log := db.log + [e]);
            RowsAgree(next) && NonNegative(next)
  {
    hide Usages, Effective, Put;
    forall s, t
      ensures Usages(Put(db.threads, e.session, e.threadId, usage), s, t) == Effective(db.log + [e], s, t)
    {
      PutFinds(db.threads, e.session, e.threadId, usage, s, t);
      EffectiveNext(db.log, e, s, t);
      assert Usages(db.threads, s, t) == Effective(db.log, s, t);
    }
    PutInRange(db.threads, e.session, e.threadId, usage);
  }

  lemma PutInRange(rows: seq<ThreadRow>, session: Session, thread: string, usage: Usage)
    requires InRange(usage) && forall i | 0 <= i < |rows| :: InRange(rows[i].usage)
    ensures forall i | 0 <= i < |Put(rows, session, thread, usage)| :: InRange(Put(rows, session, thread, usage)[i].usage)
  {
  }

  /** The session of the entry gets its new total; the others keep theirs. */
  lemma WriteKeepsTotals(db: Tables, e: Entry, usage: Usage, kept: Tables)
    requires TotalsAgree(db) && AtLeast(usage, Usages(db.threads, e.session, e.threadId).GetOr(ZERO))
    requires kept == db.(ledger := kept.ledger, threads := Put(db.threads, e.session, e.threadId, usage), log := db.log + [e])
    ensures TotalsAgree(DeriveTotal(kept, e.session, e.Turn?))
  {
    hide Put, Sum, Usages;
    forall s ensures s != e.session ==> Sum(kept.threads, s) == Sum(db.threads, s) {
      PutSums(db.threads, e.session, e.threadId, usage, s);
    }
    forall s ensures Insertions(kept.log, s) == Insertions(db.log, s) + if e.Turn? && e.session == s then 1 else 0 {
      EffectiveNext(db.log, e, s, "");
    }
  }

  lemma RefreshKeepsInv(db: Tables, session: Session)
    requires Inv(db)
    ensures Inv(DeriveTotal(db, session, false))
  {
    hide Sum, Usages, Effective, Insertions;
  }

  lemma {:induction false} TurnKeepsInv(db: Tables, r: TurnRecord)
    requires Inv(db)
    ensures Inv(TurnStep(db, r))
  {
    hide Sum, Usages, Effective, Insertions, Put, DeriveTotal;
    var key := TurnKey(r.traceId, r.turnId);
    var kept := db.(ledger := db.ledger + {key});
    if TurnFailure(db, r).None? && ValidSession(r.session) {
      RefreshKeepsInv(kept, r.session);
      if key !in db.ledger {
        var e := Turn(TurnKey(r.traceId, r.turnId), r.session, r.threadId, r.usage);
        RowInRange(db, r.session, r.threadId);
        var usage := Plus(Usages(db.threads, r.session, r.threadId).GetOr(ZERO), r.usage);
        WriteKeepsRows(kept, e, usage);
        WriteKeepsTotals(kept, e, usage, AddTurn(kept, r));
        DeriveKeepsRows(AddTurn(kept, r), r.session, true);
      }
    }
  }

  lemma RowInRange(db: Tables, session: Session, thread: string)
    requires NonNegative(db)
    ensures InRange(Usages(db.threads, session, thread).GetOr(ZERO))
  {
  }

  lemma DeriveKeepsRows(db: Tables, session: Session, completed: bool)
    requires RowsAgree(db) && NonNegative(db)
    ensures RowsAgree(DeriveTotal(db, session, completed)) && NonNegative(DeriveTotal(db, session, completed))
    ensures KeysAgree(DeriveTotal(db, session, completed)) <==> KeysAgree(db)
  {
    hide Usages, Effective;
  }

  lemma SnapshotKeepsInv(db: Tables, r: SnapshotRecord)
    requires Inv(db)
    ensures Inv(SnapshotStep(db, r))
  {
    hide Sum, Usages, Effective, Insertions, Put, DeriveTotal;
    if SnapshotFailure(db, r).None? {
      RefreshKeepsInv(db, r.session);
      if IsHighWater(db, r) {
        var e := Snapshot(r.session, r.threadId, r.usage);
        RowInRange(db, r.session, r.threadId);
        var kept := db.(threads := Put(db.threads, r.session, r.threadId, r.usage), log := db.log + [e]);
        WriteKeepsRows(db, e, r.usage);
        WriteKeepsTotals(db, e, r.usage, kept);
        DeriveKeepsRows(kept, r.session, false);
      }
    }
  }

  lemma StepKeepsInv(db: Tables, e: Event)
    requires Inv(db)
    ensures Inv(Step(db, e))
  {
    hide Inv, TurnStep, SnapshotStep;
    match e {
      case RecordTurn(r) => TurnKeepsInv(db, r);
      case RecordSnapshot(r) => SnapshotKeepsInv(db, r);
    }
  }

  lemma EmptyIsInv()
    ensures Inv(EMPTY)
  {
  }

  // ---------- every sequence of records ----------

  lemma {:induction false} AfterIsInv(events: seq<Event>)
    ensures Inv(After(EMPTY, events))
  {
    hide Inv, Step;
    if events == [] {
      EmptyIsInv();
    } else {
      AfterIsInv(events[..|events| - 1]);
      StepKeepsInv(After(EMPTY, events[..|events| - 1]), events[|events| - 1]);
    }
  }

  /** A thread's stored usage is its last accepted snapshot plus the turns first recorded since. */
  lemma ThreadUsageIsEffective(events: seq<Event>, session: Session, thread: string)
    ensures var db := After(EMPTY, events); Usages(db.threads, session, thread) == Effective(db.log, session, thread)
  {
    AfterIsInv(events);
  }

  /**
   A session's total is the sum of its threads, and it counts the rows of the ledger that were inserted for the session:
   as many as there are different keys among its turns.
   */
  lemma SessionTotalIsSumOfThreads(events: seq<Event>, session: Session)
    requires session in After(EMPTY, events).totals
    ensures var db := After(EMPTY, events);
            && db.totals[session] == Total(Sum(db.threads, session), |TurnKeys(db.log, session)|)
            && TurnKeys(db.log, session) <= db.ledger
  {
    AfterIsInv(events);
    InsertionsAreKeys(After(EMPTY, events).log, session);
  }

  /** Every turn in the log is a ledger row of its own. */
  lemma TurnsAreLedgerRows(events: seq<Event>, i: nat, j: nat)
    requires var log := After(EMPTY, events).log; i < j < |log| && log[i].Turn? && log[j].Turn?
    ensures var db := After(EMPTY, events);
            db.log[i].key != db.log[j].key && db.log[i].key in db.ledger && db.log[j].key in db.ledger
  {
    AfterIsInv(events);
    var log := After(EMPTY, events).log;
    KeyIsListed(log, j);
    KeyIsListed(log, i);
    DistinctAt(log, i, j);
  }

  lemma {:induction false} KeyIsListed(log: seq<Entry>, i: nat)
    requires i < |log| && log[i].Turn?
    ensures log[i].key in AllKeys(log)
  {
    if i < |log| - 1 {
      KeyIsListed(log[..|log| - 1], i);
    }
  }

  lemma {:induction false} DistinctAt(log: seq<Entry>, i: nat, j: nat)
    requires TurnsDistinct(log) && i < j < |log| && log[i].Turn? && log[j].Turn?
    ensures log[i].key != log[j].key
  {
    var init := log[..|log| - 1];
    if j == |log| - 1 {
      KeyIsListed(init, i);
    } else {
      DistinctAt(init, i, j);
    }
  }

  /** No counter of a thread or of a session ever falls. */
  lemma CountersNeverFall(db: Tables, e: Event, session: Session, thread: string)
    requires Inv(db)
    ensures AtLeast(Usages(Step(db, e).threads, session, thread).GetOr(ZERO), Usages(db.threads, session, thread).GetOr(ZERO))
    ensures session in db.totals ==>
              && session in Step(db, e).totals
              && AtLeast(Step(db, e).totals[session].usage, db.totals[session].usage)
              && Step(db, e).totals[session].completedTurns >= db.totals[session].completedTurns
  {
    hide Sum, Usages, Insertions, Put;
    match e {
      case RecordTurn(r) =>
        var usage := Plus(Usages(db.threads, r.session, r.threadId).GetOr(ZERO), r.usage);
        if InRange(r.usage) {
          PutFinds(db.threads, r.session, r.threadId, usage, session, thread);
          PutSums(db.threads, r.session, r.threadId, usage, session);
        }
      case RecordSnapshot(r) =>
        RowInRange(db, r.session, r.threadId);
        if IsHighWater(db, r) && SnapshotFailure(db, r).None? {
          PutFinds(db.threads, r.session, r.threadId, r.usage, session, thread);
          PutSums(db.threads, r.session, r.threadId, r.usage, session);
        }
    }
  }

  /**
   Recording a turn again changes no row and no count. The one thing it may add is an empty total, when the turn was
   first recorded without a session and comes back with one that has no total yet.
   */
  lemma RepeatedTurnsCountOnce(db: Tables, r: TurnRecord)
    requires Inv(db) && TurnKey(r.traceId, r.turnId) in db.ledger
    ensures TurnStep(db, r)
         == if r.traceId == "" || r.turnId == "" || !ValidSession(r.session) || r.session in db.totals then db
            else db.(totals := db.totals[r.session := Total(ZERO, 0)])
  {
    hide Sum, Usages, Effective, Insertions;
    assert db.ledger + {TurnKey(r.traceId, r.turnId)} == db.ledger;
    if r.session in db.totals {
      assert db.totals[r.session := db.totals[r.session]] == db.totals;
    }
  }

  // ---------- the store ----------

  /** Exactly the usage of one thread becomes `usage`. */
  ghost predicate OneThreadChanges(before: seq<ThreadRow>, after: seq<ThreadRow>, session: Session, thread: string, usage: Usage) {
    forall s, t :: Usages(after, s, t) == if s == session && t == thread then Some(usage) else Usages(before, s, t)
  }

  /** The session's total is derived again from its threads, and its count grows by `turns`. */
  ghost predicate IsDerived(before: Tables, after: Tables, session: Session, turns: nat) {
    var counted := if session in before.totals then before.totals[session].completedTurns else 0;
    after.totals == before.totals[session := Total(Sum(after.threads, session), counted + turns)]
  }

  /** A turn enters the ledger; if it is new and has a session, it adds to its thread and counts once. */
  ghost predicate TurnIsRecorded(before: Tables, after: Tables, r: TurnRecord, hasSession: bool, isNew: bool) {
    && after.ledger == before.ledger + {TurnKey(r.traceId, r.turnId)}
    && (if hasSession && isNew
        then OneThreadChanges(before.threads, after.threads, r.session, r.threadId,
                              Plus(Usages(before.threads, r.session, r.threadId).GetOr(ZERO), r.usage))
        else after.threads == before.threads)
    && if hasSession then IsDerived(before, after, r.session, if isNew then 1 else 0) else after.totals == before.totals
  }

  /** A snapshot replaces the usage of its thread if no counter falls by it, and is ignored otherwise. */
  ghost predicate SnapshotIsRecorded(before: Tables, after: Tables, r: SnapshotRecord) {
    var current := Usages(before.threads, r.session, r.threadId);
    && after.ledger == before.ledger && IsDerived(before, after, r.session, 0)
    && if current.None? || Subtract(r.usage, current.value).Some?
       then OneThreadChanges(before.threads, after.threads, r.session, r.threadId, r.usage)
       else after.threads == before.threads
  }

  lemma TurnMeans(db: Tables, r: TurnRecord)
    ensures TurnFailure(db, r).None? ==>
              TurnIsRecorded(db, TurnStep(db, r), r, r.session.appId != "" && r.session.chatType != "" && r.session.chatId != "",
                             TurnKey(r.traceId, r.turnId) !in db.ledger)
  {
    hide Usages, Put, Sum;
    forall s, t {
      PutFinds(db.threads, r.session, r.threadId, Plus(Usages(db.threads, r.session, r.threadId).GetOr(ZERO), r.usage), s, t);
    }
  }

  lemma SnapshotMeans(db: Tables, r: SnapshotRecord)
    ensures SnapshotFailure(db, r).None? ==> SnapshotIsRecorded(db, SnapshotStep(db, r), r)
  {
    hide Usages, Put, Sum;
    forall s, t {
      PutFinds(db.threads, r.session, r.threadId, r.usage, s, t);
    }
  }

  /** A session's sum moves by exactly as much as the usage of the thread that changes. */
  lemma SumMovesWithThread(rows: seq<ThreadRow>, session: Session, thread: string, usage: Usage)
    ensures Sum([], session) == ZERO
    ensures var next := Put(rows, session, thread, usage);
            Plus(Sum(next, session), Usages(rows, session, thread).GetOr(ZERO)) == Plus(Sum(rows, session), usage)
  {
    var k, row := Find(rows, session, thread), ThreadRow(session, thread, usage);
    if k < |rows| {
      SumWithOneChanged(rows, k, row);
    } else {
      assert (rows + [row])[..|rows|] == rows;
    }
  }

  lemma {:induction false} SumWithOneChanged(rows: seq<ThreadRow>, k: nat, row: ThreadRow)
    requires k < |rows| && rows[k].session == row.session
    ensures Plus(Sum(rows[k := row], row.session), rows[k].usage) == Plus(Sum(rows, row.session), row.usage)
  {
    var init := rows[..|rows| - 1];
    if k < |rows| - 1 {
      SumWithOneChanged(init, k, row);
      assert rows[k := row][..|rows| - 1] == init[k := row];
    } else {
      assert rows[k := row][..|rows| - 1] == init;
    }
  }

  class Store {
    var ledger: set<TurnKey>
    var threads: seq<ThreadRow>
    var totals: map<Session, Total>
    ghost var log: seq<Entry>

    ghost function View(): Tables
      reads this
    {
      Tables(ledger, threads, totals, log)
    }

    constructor ()
      ensures View() == EMPTY && Inv(View())
    {
      ledger, threads, totals, log := {}, [], map[], [];
      new;
      EmptyIsInv();
    }

    /** The transaction either runs to its end or leaves every table as it was. */
    method RecordTurnUsage(r: TurnRecord) returns (result: Result<Recorded, Failure>)
      requires Inv(View())
      modifies this
      ensures Inv(View()) && View() == TurnStep(old(View()), r)
      ensures var key, s := TurnKey(r.traceId, r.turnId), r.session;
              var hasSession := s.appId != "" && s.chatType != "" && s.chatId != "";
              var isNew := key !in old(ledger);
              && (result.Ok? <==> r.traceId != "" && r.turnId != "" && (hasSession && isNew ==> r.threadId != "" && InRange(r.usage)))
              && (result.Ok? ==> TurnIsRecorded(old(View()), View(), r, hasSession, isNew) && result.value.inserted == isNew
                                 && (hasSession ==> result.value.total == totals[s]))
              && (result.Err? ==> View() == old(View()))
    {
      TurnMeans(View(), r);
      hide TurnIsRecorded;
      hide Inv;
      TurnKeepsInv(View(), r);
      if r.traceId == "" || r.turnId == "" {
        return Err(KeysRequired);
      }
      var key := TurnKey(r.traceId, r.turnId);
      var inserted := key !in ledger;
      var total := Total(ZERO, 0);
      if ValidSession(r.session) && inserted {
        if r.threadId == "" {
          return Err(ThreadRequired);
        }
        if !InRange(r.usage) {
          return Err(OutOfRange);
        }
        var before := ReadThreadUsage(r.session, r.threadId);
        threads := Put(threads, r.session, r.threadId, Plus(before.GetOr(ZERO), r.usage));
        log := log + [Turn(TurnKey(r.traceId, r.turnId), r.session, r.threadId, r.usage)];
      }
      ledger := ledger + {key};
      if ValidSession(r.session) {
        total := ReplaceSessionUsage(r.session, inserted);
      }
      result := Ok(Recorded(total, inserted));
    }

    method RecordThreadUsageSnapshot(r: SnapshotRecord) returns (result: Result<Total, Failure>)
      requires Inv(View())
      modifies this
      ensures Inv(View()) && View() == SnapshotStep(old(View()), r)
      ensures var s, current := r.session, Usages(old(threads), r.session, r.threadId);
              && (result.Ok? <==> r.threadId != "" && s.appId != "" && s.chatType != "" && s.chatId != ""
                                  && (current.None? ==> InRange(r.usage)))
              && (result.Ok? ==> SnapshotIsRecorded(old(View()), View(), r) && s in totals && result.value == totals[s])
              && (result.Err? ==> View() == old(View()))
    {
      SnapshotMeans(View(), r);
      hide SnapshotIsRecorded;
      hide Inv;
      SnapshotKeepsInv(View(), r);
      if r.threadId == "" || !ValidSession(r.session) {
        return Err(KeysRequired);
      }
      var current := ReadThreadUsage(r.session, r.threadId);
      if current.None? && !InRange(r.usage) {
        return Err(OutOfRange);
      }
      if current.None? || AtLeast(r.usage, current.value) {
        threads := Put(threads, r.session, r.threadId, r.usage);
        log := log + [Snapshot(r.session, r.threadId, r.usage)];
      }
      var total := ReplaceSessionUsage(r.session, false);
      result := Ok(total);
    }

    method ReadThreadUsage(session: Session, thread: string) returns (usage: Option<Usage>)
      ensures usage == Usages(threads, session, thread)
    {
      var k := Find(threads, session, thread);
      usage := if k < |threads| then Some(threads[k].usage) else None;
    }

    method SumThreadUsage(session: Session) returns (usage: Usage)
      ensures usage == Sum(threads, session)
    {
      usage := ZERO;
      for i := 0 to |threads|
        invariant usage == Sum(threads[..i], session)
      {
        assert threads[..i + 1][..i] == threads[..i];
        if threads[i].session == session {
          usage := Plus(usage, threads[i].usage);
        }
      }
      assert threads[..|threads|] == threads;
    }

    method ReplaceSessionUsage(session: Session, incrementCompleted: bool) returns (total: Total)
      modifies this`totals
      ensures View() == DeriveTotal(old(View()), session, incrementCompleted)
      ensures session in totals && total == totals[session]
    {
      var completed := if session in totals then totals[session].completedTurns else 0;
      var usage := SumThreadUsage(session);
      total := Total(usage, if incrementCompleted then completed + 1 else completed);
      totals := totals[session := total];
    }
  }
}
