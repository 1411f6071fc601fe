/**
 Listing an owner's tasks page by page. A page is the next few rows in order of `(updated_at, id)` behind a cursor;
 the cursor travels through the client as a signed token. Task identifiers are represented by their rank in the
 order of the database.
 */
module TaskPages {
  import opened Common
  import opened Text

  // ---------- positions and rows ----------

  datatype Position = Position(updatedAt: int, id: nat)

  predicate Before(p: Position, q: Position) {
    p.updatedAt < q.updatedAt || (p.updatedAt == q.updatedAt && p.id < q.id)
  }

  /** Later times come later, and at one time higher ranks do: of two positions exactly one is before the other. */
  lemma PositionsAreOrdered(p: Position, q: Position, r: Position)
    ensures p.updatedAt < q.updatedAt ==> Before(p, q)
    ensures p.updatedAt == q.updatedAt && p.id < q.id ==> Before(p, q)
    ensures p != q ==> (Before(p, q) <==> !Before(q, p))
    ensures !Before(p, p) && (Before(p, q) && Before(q, r) ==> Before(p, r))
  {
  }

  datatype Row = Row(id: nat, owner: string, updatedAt: int, wellFormed: bool, payload: string)

  function At(r: Row): Position {
    Position(r.updatedAt, r.id)
  }

  /** The table in the order of the index. */
  ghost predicate Sorted(table: seq<Row>) {
    forall i, j | 0 <= i < j < |table| :: Before(At(table[i]), At(table[j]))
  }

  predicate Matches(r: Row, owner: string, after: Option<Position>) {
    r.owner == owner && (after.None? || Before(after.value, At(r)))
  }

  /** The rows of an owner behind a cursor. */
  function Select(table: seq<Row>, owner: string, after: Option<Position>): seq<Row> {
    if table == [] then []
    else
      var before, last := Select(table[..|table| - 1], owner, after), table[|table| - 1];
      if Matches(last, owner, after) then before + [last] else before
  }

  datatype Page = Page(tasks: seq<Row>, next: Option<Position>)

  datatype Error = InvalidPageSize | MalformedRow

  function PageOf(selected: seq<Row>, size: nat): Page
    requires size >= 1
  {
    if |selected| > size then Page(selected[..size], Some(At(selected[size - 1]))) else Page(selected, None)
  }

  function Fetched(selected: seq<Row>, size: nat): seq<Row> {
    if |selected| > size then selected[..size + 1] else selected
  }

  ghost predicate WellFormed(rows: seq<Row>) {
    forall i | 0 <= i < |rows| :: rows[i].wellFormed
  }

  /** Reads one row more than the page holds, to learn whether there is a next page. */
  method ListOwnedTasks(table: seq<Row>, owner: string, after: Option<Position>, size: int) returns (r: Result<Page, Error>)
    ensures r == Err(InvalidPageSize) <==> size < 1 || size > 100
    ensures 1 <= size <= 100 ==>
              var selected := Select(table, owner, after);
              r == if WellFormed(Fetched(selected, size)) then Ok(PageOf(selected, size)) else Err(MalformedRow)
  {
    if size < 1 || size > 100 {
      return Err(InvalidPageSize);
    }
    var tasks: seq<Row> := [];
    var i := 0;
    assert table[..0] == [];
    while i < |table| && |tasks| <= size
      invariant i <= |table|
      invariant tasks == Select(table[..i], owner, after) && |tasks| <= size + 1
      invariant WellFormed(tasks)
    {
      var row := table[i];
      assert table[..i + 1][..i] == table[..i];
      if Matches(row, owner, after) {
        if !row.wellFormed {
          SelectPrefix(table, i + 1, owner, after);
          assert tasks + [row] <= Select(table, owner, after);
          BadRowIsFetched(Select(table, owner, after), tasks, row, size);
          return Err(MalformedRow);
        }
        tasks := tasks + [row];
      }
      i := i + 1;
    }
    SelectPrefix(table, i, owner, after);
    assert table[..|table|] == table;
    PageFromFetched(Select(table, owner, after), tasks, size);
    if |tasks| > size {
      r := Ok(Page(tasks[..size], Some(At(tasks[size - 1]))));
    } else {
      r := Ok(Page(tasks, None));
    }
  }

  lemma BadRowIsFetched(selected: seq<Row>, tasks: seq<Row>, row: Row, size: nat)
    requires tasks + [row] <= selected && |tasks| <= size && !row.wellFormed
    ensures !WellFormed(Fetched(selected, size))
  {
    assert selected[|tasks|] == row;
    assert Fetched(selected, size)[|tasks|] == row;
  }

  lemma PageFromFetched(selected: seq<Row>, tasks: seq<Row>, size: nat)
    requires tasks <= selected && size >= 1 && (tasks == selected || |tasks| == size + 1) && |tasks| <= size + 1
    ensures tasks == Fetched(selected, size)
    ensures PageOf(selected, size)
         == if |tasks| > size then Page(tasks[..size], Some(At(tasks[size - 1]))) else Page(tasks, None)
  {
    if |tasks| > size {
      assert tasks[..size] == selected[..size];
    }
  }

  lemma {:induction false} SelectPrefix(table: seq<Row>, k: nat, owner: string, after: Option<Position>)
    requires k <= |table|
    ensures Select(table[..k], owner, after) <= Select(table, owner, after)
  {
    if k == |table| {
      assert table[..k] == table;
    } else {
      SelectPrefix(table[..|table| - 1], k, owner, after);
      assert table[..|table| - 1][..k] == table[..k];
    }
  }

  // ---------- the next page ----------

  lemma {:induction false} SelectedRows(table: seq<Row>, owner: string, after: Option<Position>)
    ensures forall r :: r in Select(table, owner, after) <==> r in table && Matches(r, owner, after)
  {
    if table != [] {
      SelectedRows(table[..|table| - 1], owner, after);
      assert table == table[..|table| - 1] + [table[|table| - 1]];
    }
  }

  /** Behind the `k`-th row of a listing stand exactly the rows that follow it. */
  lemma {:induction false} SelectBehind(table: seq<Row>, owner: string, after: Option<Position>, k: nat)
    requires Sorted(table) && 0 < k <= |Select(table, owner, after)|
    ensures Select(table, owner, Some(At(Select(table, owner, after)[k - 1]))) == Select(table, owner, after)[k..]
  {
    var init, last := table[..|table| - 1], table[|table| - 1];
    var before, all := Select(init, owner, after), Select(table, owner, after);
    var p := At(all[k - 1]);
    if k <= |before| {
      SelectBehind(init, owner, after, k);
      InOrder(table, owner, after, k - 1);
      if Matches(last, owner, after) {
        assert all[k..] == before[k..] + [last];
      } else {
        assert !Matches(last, owner, Some(p)) by {
          LaterThanCursor(table, owner, after, k - 1);
        }
      }
    } else {
      NothingBehindLast(init, owner, p, table);
      assert all[k..] == [];
    }
  }

  /** A selected row of the front part stands before the last row. */
  lemma InOrder(table: seq<Row>, owner: string, after: Option<Position>, k: nat)
    requires Sorted(table) && table != [] && k < |Select(table[..|table| - 1], owner, after)|
    ensures Before(At(Select(table[..|table| - 1], owner, after)[k]), At(table[|table| - 1]))
  {
    var init := table[..|table| - 1];
    SelectedRows(init, owner, after);
    var r := Select(init, owner, after)[k];
    assert r in init;
    var i :| 0 <= i < |init| && init[i] == r;
    assert table[i] == r;
  }

  lemma LaterThanCursor(table: seq<Row>, owner: string, after: Option<Position>, k: nat)
    requires k < |Select(table, owner, after)|
    ensures after.Some? ==> Before(after.value, At(Select(table, owner, after)[k]))
  {
    SelectedRows(table, owner, after);
    assert Select(table, owner, after)[k] in Select(table, owner, after);
  }

  lemma NothingBehindLast(init: seq<Row>, owner: string, p: Position, table: seq<Row>)
    requires table != [] && Sorted(table) && init == table[..|table| - 1] && p == At(table[|table| - 1])
    ensures Select(init, owner, Some(p)) == []
  {
    SelectedRows(init, owner, Some(p));
    forall r | r in init ensures !Matches(r, owner, Some(p)) {
      var i :| 0 <= i < |init| && init[i] == r;
      assert Before(At(table[i]), p);
    }
    NoMembers(Select(init, owner, Some(p)));
  }

  lemma NoMembers(rows: seq<Row>)
    ensures (forall r :: r !in rows) ==> rows == []
  {
    if rows != [] {
      assert rows[0] in rows;
    }
  }

  // ---------- following the cursors ----------

  /** Over a table that does not change, the pages put together are the whole listing, whatever their sizes. */
  method FollowCursors(table: seq<Row>, owner: string, sizes: nat -> int) returns (r: Result<seq<Row>, Error>, pages: nat)
    requires Sorted(table) && forall n: nat :: 1 <= sizes(n) <= 100
    ensures r == if WellFormed(Select(table, owner, None)) then Ok(Select(table, owner, None)) else Err(MalformedRow)
    ensures r.Ok? && r.value != [] ==> pages <= |r.value|
    ensures r.Ok? ==> pages > 0 && |r.value| <= 100 * pages
  {
    var listed: seq<Row> := [];
    var after: Option<Position> := None;
    ghost var all := Select(table, owner, None);
    pages := 0;
    while true
      invariant listed + Select(table, owner, after) == all
      invariant WellFormed(listed) && pages <= |listed| <= 100 * pages
      invariant pages > 0 ==> Select(table, owner, after) != []
      decreases |Select(table, owner, after)|
    {
      var size := sizes(pages);
      ghost var selected := Select(table, owner, after);
      var page := ListOwnedTasks(table, owner, after, size);
      if page.Err? {
        BadListing(listed, selected, size);
        return Err(MalformedRow), pages;
      }
      pages := pages + 1;
      if page.value.next.None? {
        listed := listed + page.value.tasks;
        return Ok(listed), pages;
      }
      SelectBehind(table, owner, after, size);
      Associated(listed, selected, size);
      listed := listed + page.value.tasks;
      after := page.value.next;
    }
  }

  lemma BadListing(listed: seq<Row>, selected: seq<Row>, size: nat)
    requires !WellFormed(Fetched(selected, size))
    ensures !WellFormed(listed + selected)
  {
    var i :| 0 <= i < |Fetched(selected, size)| && !Fetched(selected, size)[i].wellFormed;
    assert (listed + selected)[|listed| + i] == selected[i];
  }

  lemma Associated(listed: seq<Row>, selected: seq<Row>, k: nat)
    requires k <= |selected|
    ensures listed + selected[..k] + selected[k..] == listed + selected
  {
    assert selected[..k] + selected[k..] == selected;
  }

  /** The listing holds every task of the owner exactly once, in order. */
  lemma {:induction false} ListingIsComplete(table: seq<Row>, owner: string)
    requires Sorted(table)
    ensures Sorted(Select(table, owner, None))
    ensures forall r :: r in Select(table, owner, None) <==> r in table && r.owner == owner
  {
    SelectedRows(table, owner, None);
    if table != [] {
      var init, last := table[..|table| - 1], table[|table| - 1];
      ListingIsComplete(init, owner);
      var before := Select(init, owner, None);
      forall k | 0 <= k < |before| ensures Before(At(before[k]), At(last)) {
        InOrder(table, owner, None, k);
      }
    }
  }

  // ---------- tables that change between pages ----------

  datatype Walk = Walk(listed: seq<Row>, after: Option<Position>, done: bool)

  const START := Walk([], None, false)

  /** One page of a walk, read from the table as it is now. */
  function NextPage(w: Walk, table: seq<Row>, owner: string, size: nat): Walk
    requires size >= 1
  {
    if w.done then w
    else
      var page := PageOf(Select(table, owner, w.after), size);
      Walk(w.listed + page.tasks, if page.next.Some? then page.next else w.after, page.next.None?)
  }

  function WalkOver(tables: seq<seq<Row>>, owner: string, sizes: seq<nat>): Walk
    requires |tables| == |sizes| && forall i | 0 <= i < |sizes| :: sizes[i] >= 1
  {
    if tables == [] then START
    else
      var n := |tables| - 1;
      NextPage(WalkOver(tables[..n], owner, sizes[..n]), tables[n], owner, sizes[n])
  }

  /** While nothing changes, each page gets the walk further, until it has listed everything once and in order. */
  lemma {:induction false} SteadyWalkListsAll(tables: seq<seq<Row>>, table: seq<Row>, owner: string, sizes: seq<nat>)
    requires |tables| == |sizes| && (forall i | 0 <= i < |sizes| :: sizes[i] >= 1 && tables[i] == table) && Sorted(table)
    ensures var w, all := WalkOver(tables, owner, sizes), Select(table, owner, None);
            if w.done then w.listed == all
            else |w.listed| >= |sizes| && w.listed + Select(table, owner, w.after) == all
  {
    hide Select;
    if tables != [] {
      var n := |tables| - 1;
      var w := WalkOver(tables[..n], owner, sizes[..n]);
      SteadyWalkListsAll(tables[..n], table, owner, sizes[..n]);
      var selected := Select(table, owner, w.after);
      if !w.done && |selected| > sizes[n] {
        SelectBehind(table, owner, w.after, sizes[n]);
        Associated(w.listed, selected, sizes[n]);
      }
    }
  }

  ghost predicate Lists(rows: seq<Row>, id: nat) {
    exists k :: 0 <= k < |rows| && rows[k].id == id
  }

  /** Task `id` is there for its owner at every read, and its time never goes back. */
  ghost predicate Tracked(tables: seq<seq<Row>>, versions: seq<Row>, id: nat, owner: string) {
    && |versions| == |tables|
    && (forall i | 0 <= i < |tables| ::
          Sorted(tables[i]) && versions[i] in tables[i] && versions[i].id == id && versions[i].owner == owner)
    && (forall i, j | 0 <= i < j < |versions| :: versions[i].updatedAt <= versions[j].updatedAt)
  }

  /** A page lists a task or leaves it behind the new cursor. */
  lemma PageListsOrPasses(table: seq<Row>, owner: string, after: Option<Position>, size: nat, r: Row)
    requires Sorted(table) && r in table && Matches(r, owner, after) && size >= 1
    ensures var page := PageOf(Select(table, owner, after), size);
            Lists(page.tasks, r.id) || (page.next.Some? && Before(page.next.value, At(r)))
  {
    var selected := Select(table, owner, after);
    SelectedRows(table, owner, after);
    var k :| 0 <= k < |selected| && selected[k] == r;
    if |selected| > size && k >= size {
      SelectBehind(table, owner, after, size);
      assert selected[size..][k - size] == r;
      SelectedRows(table, owner, Some(At(selected[size - 1])));
      assert r in selected[size..];
    } else {
      assert PageOf(selected, size).tasks[k] == r;
    }
  }

  lemma ListsMore(a: seq<Row>, b: seq<Row>, id: nat)
    ensures Lists(a, id) || Lists(b, id) ==> Lists(a + b, id)
  {
    if Lists(a, id) {
      var k :| 0 <= k < |a| && a[k].id == id;
      assert (a + b)[k].id == id;
    } else if Lists(b, id) {
      var k :| 0 <= k < |b| && b[k].id == id;
      assert (a + b)[|a| + k].id == id;
    }
  }

  /** Until a task is listed it stands behind the cursor. */
  lemma {:induction false} ListedOrAhead(tables: seq<seq<Row>>, owner: string, sizes: seq<nat>, versions: seq<Row>, id: nat)
    requires |tables| == |sizes| > 0 && forall i | 0 <= i < |sizes| :: sizes[i] >= 1
    requires Tracked(tables, versions, id, owner)
    ensures var w := WalkOver(tables, owner, sizes);
            Lists(w.listed, id) || (!w.done && Matches(versions[|versions| - 1], owner, w.after))
  {
    hide PageOf, Select, Lists;
    var n := |tables| - 1;
    var before := WalkOver(tables[..n], owner, sizes[..n]);
    var now := versions[n];
    if n > 0 {
      ListedOrAhead(tables[..n], owner, sizes[..n], versions[..n], id);
      assert versions[n - 1].updatedAt <= now.updatedAt;
    }
    var page := PageOf(Select(tables[n], owner, before.after), sizes[n]);
    ListsMore(before.listed, page.tasks, id);
    if !before.done && Matches(now, owner, before.after) {
      PageListsOrPasses(tables[n], owner, before.after, sizes[n], now);
    }
  }

  /** No task that is there throughout is missed, whatever else is inserted, updated or deleted between the pages. */
  lemma NoTaskIsMissed(tables: seq<seq<Row>>, owner: string, sizes: seq<nat>, versions: seq<Row>, id: nat)
    requires |tables| == |sizes| && forall i | 0 <= i < |sizes| :: sizes[i] >= 1
    requires Tracked(tables, versions, id, owner) && WalkOver(tables, owner, sizes).done
    ensures Lists(WalkOver(tables, owner, sizes).listed, id)
  {
    if tables != [] {
      ListedOrAhead(tables, owner, sizes, versions, id);
    }
  }

  // ---------- the cursor as a token ----------

  const NS_PER_MS := 1_000_000
  const LIFETIME_MS := 15 * 60 * 1000

  /** A time in nanoseconds, cut to milliseconds. */
  function UnixMilli(ns: int): int {
    ns / NS_PER_MS
  }

  datatype Stamp = Stamp(updatedNs: int, taskId: string)

  datatype SignedCursor = SignedCursor(owner: string, updatedMs: int, taskId: string, issuedMs: int, version: int)

  /** A code that only the holder of the key can make for a payload. */
  datatype Mac = Mac(key: string, payload: SignedCursor)

  datatype Token = Token(payload: SignedCursor, mac: Mac)

  datatype Keyring = Keyring(active: int, keys: map<int, string>)

  datatype CursorError = InvalidPosition | NoActiveKey | InvalidCursor | ExpiredCursor

  /** The zero value of a time, the first instant of the year 1. */
  const ZERO_TIME_NS := -62_135_596_800_000_000_000

  function Encode(keys: Keyring, owner: string, p: Stamp, nowNs: int): Result<Token, CursorError> {
    if Blank(owner) || Blank(p.taskId) || p.updatedNs == ZERO_TIME_NS then Err(InvalidPosition)
    else if keys.active !in keys.keys then Err(NoActiveKey)
    else
      var payload := SignedCursor(owner, UnixMilli(p.updatedNs), p.taskId, UnixMilli(nowNs), keys.active);
      Ok(Token(payload, Mac(keys.keys[keys.active], payload)))
  }

  function Decode(keys: Keyring, owner: string, token: Token, nowNs: int): Result<Stamp, CursorError> {
    var c := token.payload;
    if Blank(owner) || c.version !in keys.keys then Err(InvalidCursor)
    else if token.mac != Mac(keys.keys[c.version], c) || c.owner != owner || c.taskId == "" then Err(InvalidCursor)
    else if (c.issuedMs + LIFETIME_MS) * NS_PER_MS < nowNs then Err(ExpiredCursor)
    else Ok(Stamp(c.updatedMs * NS_PER_MS, c.taskId))
  }

  /**
   A token gives its position back for its owner until it expires, and to nobody else; the position is cut to
   milliseconds, so it is the same exactly when it was a whole number of them.
   */
  lemma TokensRoundTrip(keys: Keyring, owner: string, p: Stamp, issuedNs: int, reader: string, nowNs: int)
    requires Encode(keys, owner, p, issuedNs).Ok? && !Blank(reader)
    ensures var r := Decode(keys, reader, Encode(keys, owner, p, issuedNs).value, nowNs);
            && (r.Ok? <==> reader == owner && nowNs <= (UnixMilli(issuedNs) + LIFETIME_MS) * NS_PER_MS)
            && (r.Ok? ==> r.value.taskId == p.taskId && r.value.updatedNs <= p.updatedNs < r.value.updatedNs + NS_PER_MS)
            && (r.Ok? ==> (r.value == p <==> p.updatedNs % NS_PER_MS == 0))
            && (reader != owner ==> r == Err(InvalidCursor))
  {
  }

  /** A token says nothing but what the signature covers: the code is that of a key of the ring, for this owner. */
  predicate Signed(keys: Keyring, owner: string, token: Token) {
    var c := token.payload;
    c.version in keys.keys && token.mac == Mac(keys.keys[c.version], c) && c.owner == owner
  }

  /**
   Only tokens that some key of the ring signed for this owner are accepted. Encoding gives exactly those back, except
   for a task id of white space or the zero time, which it refuses to sign and decoding does not look for.
   */
  lemma AcceptedTokensWereIssued(keys: Keyring, owner: string, token: Token, nowNs: int)
    requires Decode(keys, owner, token, nowNs).Ok?
    ensures Signed(keys, owner, token)
    ensures var c, p := token.payload, Decode(keys, owner, token, nowNs).value;
            var issued := Encode(keys.(active := c.version), owner, p, c.issuedMs * NS_PER_MS);
            if Blank(p.taskId) || p.updatedNs == ZERO_TIME_NS then issued == Err(InvalidPosition) else issued == Ok(token)
  {
    var c := token.payload;
    assert UnixMilli(c.updatedMs * NS_PER_MS) == c.updatedMs && UnixMilli(c.issuedMs * NS_PER_MS) == c.issuedMs;
  }

  // ---------- pages joined by tokens ----------

  /** The identifiers behind the ranks. */
  datatype Names = Names(name: nat -> string, rank: string -> nat)

  ghost predicate Naming(names: Names) {
    forall id: nat :: !Blank(names.name(id)) && names.rank(names.name(id)) == id
  }

  function ToStamp(p: Position, names: Names): Stamp {
    Stamp(p.updatedAt * NS_PER_MS, names.name(p.id))
  }

  function FromStamp(s: Stamp, names: Names): Position {
    Position(UnixMilli(s.updatedNs), names.rank(s.taskId))
  }

  predicate InTime(issuedNs: int, readNs: int) {
    readNs <= (UnixMilli(issuedNs) + LIFETIME_MS) * NS_PER_MS
  }

  predicate CanSign(keys: Keyring, owner: string) {
    !Blank(owner) && keys.active in keys.keys
  }

  /** A position of the table survives the way through the client, in time; later it is refused. */
  lemma TokenCarriesPosition(keys: Keyring, owner: string, p: Position, names: Names, issuedNs: int, readNs: int)
    requires CanSign(keys, owner) && Naming(names) && p.updatedAt * NS_PER_MS != ZERO_TIME_NS
    ensures var token := Encode(keys, owner, ToStamp(p, names), issuedNs);
            && token.Ok?
            && var read := Decode(keys, owner, token.value, readNs);
               if InTime(issuedNs, readNs) then read.Ok? && FromStamp(read.value, names) == p else read == Err(ExpiredCursor)
  {
    assert UnixMilli(p.updatedAt * NS_PER_MS) == p.updatedAt;
    hide Blank;
    assert names.rank(names.name(p.id)) == p.id;
  }

  datatype WalkError = BadRow | BadCursor | Expired

  /**
   The walk of a client: page `n` is asked for with the token that came with the page before, issued at `issued(n)` and
   read at `read(n)`. It lists what following the positions lists, unless a token has expired.
   */
  method FollowTokens(table: seq<Row>, owner: string, sizes: nat -> int, keys: Keyring, names: Names,
                      issued: nat -> int, read: nat -> int)
    returns (r: Result<seq<Row>, WalkError>, ghost pages: nat)
    requires Sorted(table) && (forall n: nat :: 1 <= sizes(n) <= 100) && CanSign(keys, owner) && Naming(names)
    requires forall i | 0 <= i < |table| :: table[i].updatedAt * NS_PER_MS != ZERO_TIME_NS
    ensures r.Ok? ==> r.value == Select(table, owner, None)
    ensures r == Err(BadRow) ==> !WellFormed(Select(table, owner, None))
    ensures r == Err(Expired) ==> exists n: nat :: n < pages && !InTime(issued(n), read(n))
    ensures r != Err(BadCursor)
    ensures WellFormed(Select(table, owner, None)) && (forall n: nat :: InTime(issued(n), read(n))) ==> r.Ok?
  {
    var listed: seq<Row> := [];
    var after: Option<Position> := None;
    var n := 0;
    pages := 0;
    ghost var all := Select(table, owner, None);
    while true
      invariant listed + Select(table, owner, after) == all && pages == n
      decreases |Select(table, owner, after)|
    {
      ghost var selected := Select(table, owner, after);
      var page := ListOwnedTasks(table, owner, after, sizes(n));
      if page.Err? {
        BadListing(listed, selected, sizes(n));
        return Err(BadRow), pages;
      }
      if page.value.next.None? {
        listed := listed + page.value.tasks;
        return Ok(listed), pages;
      }
      SelectBehind(table, owner, after, sizes(n));
      Associated(listed, selected, sizes(n));
      NextIsInTable(table, owner, after, sizes(n));
      TokenCarriesPosition(keys, owner, page.value.next.value, names, issued(n), read(n));
      hide Encode, Decode;
      var token := Encode(keys, owner, ToStamp(page.value.next.value, names), issued(n));
      if token.Err? {
        return Err(BadCursor), pages;
      }
      pages := n + 1;
      var position := Decode(keys, owner, token.value, read(n));
      if position.Err? {
        return Err(Expired), pages;
      }
      listed := listed + page.value.tasks;
      after := Some(FromStamp(position.value, names));
      n := n + 1;
    }
  }

  lemma NextIsInTable(table: seq<Row>, owner: string, after: Option<Position>, size: nat)
    requires 1 <= size < |Select(table, owner, after)|
    ensures exists i :: 0 <= i < |table| && At(table[i]) == At(Select(table, owner, after)[size - 1])
  {
    SelectedRows(table, owner, after);
    var row := Select(table, owner, after)[size - 1];
    assert row in Select(table, owner, after);
    var i :| 0 <= i < |table| && table[i] == row;
  }
}
