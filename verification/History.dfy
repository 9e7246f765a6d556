/** The run history database: insertion, pruning to 200 rows and reading back
    (apps/resticpal-service/src/history.rs). Tables are values, ids strictly increase. */
module History {
  import opened Common
  import opened Status
  import opened FailureDetails

  const MAX_STORED_RUNS: nat := 200
  const MAX_HISTORY_RESULTS: nat := 100
  const MAX_IDENTIFIER_BYTES: nat := 128

  datatype RunOutcome = Succeeded | SucceededWithWarnings | Failed | Cancelled

  /** A finished run as the runtime hands it over; times in milliseconds. */
  datatype CompletedRun = CompletedRun(
    startedAt: int,
    completedAt: int,
    outcome: RunOutcome,
    errorCode: Option<string>,
    files: Option<nat>,
    bytes: Option<nat>,
    added: Option<nat>,
    snapshot: Option<string>,
    details: Details)

  /** A row of `backup_runs`. */
  datatype Row = Row(
    id: nat,
    startedAt: int,
    completedAt: int,
    outcome: RunOutcome,
    errorCode: Option<string>,
    files: Option<nat>,
    bytes: Option<nat>,
    added: Option<nat>,
    snapshot: Option<string>,
    omitted: nat)

  /** What a reader of the history is given for one run. */
  datatype Record = Record(row: Row, failedItemCount: nat)

  // ---------------------------------------------------------------- normalization

  predicate IdentifierChar(c: char) {
    'a' <= c <= 'z' || 'A' <= c <= 'Z' || '0' <= c <= '9' || c == '_' || c == '-'
  }

  predicate IsIdentifier(value: string) {
    1 <= |value| <= MAX_IDENTIFIER_BYTES && forall i :: 0 <= i < |value| ==> IdentifierChar(value[i])
  }

  function SanitizeIdentifier(value: Option<string>): Option<string> {
    if value.Some? && IsIdentifier(value.value) then value else None
  }

  function NormalizeUnsigned(value: Option<nat>): Option<nat> {
    if value.Some? then Some(Min(value.value, I64_MAX)) else None
  }

  /** Distinct safe items, at most a hundred, with a count that still fits a signed 64-bit total. */
  function Normalize(d: Details): Details {
    PushedIsBounded(d);
    var pushed := PushAll(Details([], d.omitted), d.items);
    Details(pushed.items, Min(pushed.omitted, I64_MAX - |pushed.items|))
  }

  function RowOf(id: nat, run: CompletedRun): Row {
    Row(id, run.startedAt, run.completedAt, run.outcome, SanitizeIdentifier(run.errorCode),
        NormalizeUnsigned(run.files), NormalizeUnsigned(run.bytes), NormalizeUnsigned(run.added),
        SanitizeIdentifier(run.snapshot), Normalize(run.details).omitted)
  }

  /** Retained plus omitted names, as the history lists them. */
  function ListedCount(d: Details): nat {
    |Normalize(d).items| + Normalize(d).omitted
  }

  lemma PushedIsBounded(d: Details)
    ensures
      var pushed := PushAll(Details([], d.omitted), d.items);
      |pushed.items| <= MAX_BACKUP_FAILED_ITEMS && Distinct(pushed.items) && AllSafe(pushed.items)
      && pushed.items == Take(AddNew([], d.items))
  {
    OmittedDoesNotMatter([], d.omitted, d.items);
    PushAllKeepsFirst(NO_DETAILS, d.items);
  }

  lemma {:induction false} OmittedDoesNotMatter(base: seq<Item>, omitted: nat, items: seq<Item>)
    ensures PushAll(Details(base, omitted), items).items == PushAll(Details(base, 0), items).items
  {
    if items != [] {
      OmittedDoesNotMatter(base, omitted, items[..|items| - 1]);
    }
  }

  /** Details that the collector produced are stored as they are, up to the 64-bit clamp. */
  lemma NormalizeKeepsCollected(d: Details)
    requires Bounded(d)
    ensures Normalize(d) == Details(d.items, Min(d.omitted, I64_MAX - |d.items|))
  {
    assert [] + d.items == d.items;
    PushAllDistinct(Details([], d.omitted), d.items);
  }

  // ---------------------------------------------------------------- ordering

  /** `ORDER BY completed_at_ms DESC, id DESC`. */
  predicate Before(a: Row, b: Row) {
    a.completedAt > b.completedAt || (a.completedAt == b.completedAt && a.id > b.id)
  }

  function Insert(sorted: seq<Row>, row: Row): seq<Row> {
    if sorted == [] then [row]
    else if Before(row, sorted[0]) then [row] + sorted
    else [sorted[0]] + Insert(sorted[1..], row)
  }

  function Ordered(rows: seq<Row>): seq<Row> {
    if rows == [] then [] else Insert(Ordered(rows[..|rows| - 1]), rows[|rows| - 1])
  }

  function First(rows: seq<Row>, n: nat): seq<Row> {
    rows[..Min(|rows|, n)]
  }

  predicate Descending(rows: seq<Row>) {
    forall i, j :: 0 <= i < j < |rows| ==> Before(rows[i], rows[j])
  }

  predicate DistinctIds(rows: seq<Row>) {
    forall i, j :: 0 <= i < j < |rows| ==> rows[i].id != rows[j].id
  }

  function IdsOf(rows: seq<Row>): set<nat> {
    set row | row in rows :: row.id
  }

  /** `DELETE ... WHERE id NOT IN`: the rows whose id is kept, in table order. */
  function Kept(rows: seq<Row>, ids: set<nat>): seq<Row> {
    if rows == [] then []
    else if rows[0].id in ids then [rows[0]] + Kept(rows[1..], ids)
    else Kept(rows[1..], ids)
  }

  function Prune(rows: seq<Row>): seq<Row> {
    Kept(rows, IdsOf(First(Ordered(rows), MAX_STORED_RUNS)))
  }

  /** The row's id is new to the sequence. */
  predicate NewId(s: seq<Row>, row: Row) {
    forall x :: x in s ==> x.id != row.id
  }

  lemma {:induction false} InsertMembers(s: seq<Row>, row: Row)
    ensures multiset(Insert(s, row)) == multiset(s) + multiset{row}
    ensures forall x :: x in Insert(s, row) <==> x in s || x == row
  {
    if s != [] {
      assert s == [s[0]] + s[1..];
      InsertMembers(s[1..], row);
    }
  }

  lemma DescendingCons(x: Row, s: seq<Row>)
    requires Descending(s) && forall y :: y in s ==> Before(x, y)
    ensures Descending([x] + s)
  {
  }

  lemma {:induction false} InsertKeepsDescending(s: seq<Row>, row: Row)
    requires Descending(s) && NewId(s, row)
    ensures Descending(Insert(s, row))
  {
    if s != [] {
      if Before(row, s[0]) {
        DescendingCons(row, s);
      } else {
        InsertKeepsDescending(s[1..], row);
        InsertMembers(s[1..], row);
        DescendingCons(s[0], Insert(s[1..], row));
      }
    }
  }

  lemma {:induction false} OrderedIsSorted(rows: seq<Row>)
    requires DistinctIds(rows)
    ensures Descending(Ordered(rows)) && multiset(Ordered(rows)) == multiset(rows)
    ensures forall x :: x in Ordered(rows) <==> x in rows
  {
    if rows != [] {
      var front, last := rows[..|rows| - 1], rows[|rows| - 1];
      assert rows == front + [last];
      OrderedIsSorted(front);
      InsertMembers(Ordered(front), last);
      InsertKeepsDescending(Ordered(front), last);
    }
  }

  lemma {:induction false} KeptMembers(rows: seq<Row>, ids: set<nat>)
    ensures forall x :: x in Kept(rows, ids) <==> x in rows && x.id in ids
  {
    if rows != [] {
      KeptMembers(rows[1..], ids);
      assert rows == [rows[0]] + rows[1..];
    }
  }

  lemma {:induction false} KeptDescending(rows: seq<Row>, ids: set<nat>)
    requires Descending(rows)
    ensures Descending(Kept(rows, ids))
  {
    if rows != [] {
      KeptDescending(rows[1..], ids);
      KeptMembers(rows[1..], ids);
      if rows[0].id in ids {
        DescendingCons(rows[0], Kept(rows[1..], ids));
      }
    }
  }

  lemma {:induction false} KeptDistinct(rows: seq<Row>, ids: set<nat>)
    requires DistinctIds(rows)
    ensures DistinctIds(Kept(rows, ids))
  {
    if rows != [] {
      KeptDistinct(rows[1..], ids);
      KeptMembers(rows[1..], ids);
    }
  }

  lemma {:induction false} KeptAppend(rows: seq<Row>, row: Row, ids: set<nat>)
    ensures Kept(rows + [row], ids) == Kept(rows, ids) + if row.id in ids then [row] else []
  {
    if rows == [] {
      assert rows + [row] == [row] && [row][1..] == [];
    } else {
      KeptAppend(rows[1..], row, ids);
      assert (rows + [row])[1..] == rows[1..] + [row];
    }
  }

  lemma {:induction false} KeptOfInsert(s: seq<Row>, row: Row, ids: set<nat>)
    requires Descending(s) && NewId(s, row)
    ensures Kept(Insert(s, row), ids) == if row.id in ids then Insert(Kept(s, ids), row) else Kept(s, ids)
  {
    if s != [] {
      if Before(row, s[0]) {
        KeptMembers(s, ids);
        var kept := Kept(s, ids);
        assert ([row] + s)[1..] == s;
        assert kept != [] ==> kept[0] in s;
      } else {
        KeptOfInsert(s[1..], row, ids);
        var inserted, kept := Insert(s[1..], row), Kept(s[1..], ids);
        assert ([s[0]] + inserted)[1..] == inserted && ([s[0]] + kept)[1..] == kept;
      }
    }
  }

  /** Deleting rows and then sorting is sorting and then deleting. */
  lemma {:induction false} OrderedOfKept(rows: seq<Row>, ids: set<nat>)
    requires DistinctIds(rows)
    ensures Ordered(Kept(rows, ids)) == Kept(Ordered(rows), ids)
  {
    if rows != [] {
      var front, last := rows[..|rows| - 1], rows[|rows| - 1];
      assert rows == front + [last];
      OrderedOfKept(front, ids);
      OrderedIsSorted(front);
      KeptAppend(front, last, ids);
      KeptOfInsert(Ordered(front), last, ids);
      var kept := Kept(front, ids);
      assert (kept + [last])[..|kept|] == kept && kept + [] == kept;
    }
  }

  lemma {:induction false} KeptAll(rows: seq<Row>, ids: set<nat>)
    requires forall i :: 0 <= i < |rows| ==> rows[i].id in ids
    ensures Kept(rows, ids) == rows
  {
    if rows != [] { KeptAll(rows[1..], ids); }
  }

  lemma {:induction false} KeptNone(rows: seq<Row>, ids: set<nat>)
    requires forall i :: 0 <= i < |rows| ==> rows[i].id !in ids
    ensures Kept(rows, ids) == []
  {
    if rows != [] { KeptNone(rows[1..], ids); }
  }

  lemma {:induction false} KeptConcat(a: seq<Row>, b: seq<Row>, ids: set<nat>)
    ensures Kept(a + b, ids) == Kept(a, ids) + Kept(b, ids)
  {
    if a == [] {
      assert a + b == b;
    } else {
      KeptConcat(a[1..], b, ids);
      assert (a + b)[1..] == a[1..] + b && (a + b)[0] == a[0];
      assert [a[0]] + (Kept(a[1..], ids) + Kept(b, ids)) == ([a[0]] + Kept(a[1..], ids)) + Kept(b, ids);
    }
  }

  lemma {:induction false} KeptFirst(sorted: seq<Row>, n: nat)
    requires DistinctIds(sorted)
    ensures Kept(sorted, IdsOf(First(sorted, n))) == First(sorted, n)
  {
    var head := First(sorted, n);
    var tail := sorted[|head|..];
    var ids := IdsOf(head);
    assert sorted == head + tail;
    KeptConcat(head, tail, ids);
    forall i | 0 <= i < |head|
      ensures head[i].id in ids
    {
      assert head[i] in head;
    }
    KeptAll(head, ids);
    forall i | 0 <= i < |tail|
      ensures tail[i].id !in ids
    {
      assert tail[i] == sorted[|head| + i];
      assert forall k :: 0 <= k < |head| ==> head[k] == sorted[k] && sorted[k].id != tail[i].id;
    }
    KeptNone(tail, ids);
  }

  /** Pruning keeps exactly the first 200 rows of the reading order. */
  lemma PruneKeepsFirst(rows: seq<Row>)
    requires DistinctIds(rows)
    ensures Ordered(Prune(rows)) == First(Ordered(rows), MAX_STORED_RUNS)
    ensures DistinctIds(Prune(rows))
    ensures forall x :: x in Prune(rows) ==> x in rows
  {
    var ids := IdsOf(First(Ordered(rows), MAX_STORED_RUNS));
    DistinctIdsOfSorted(rows);
    OrderedOfKept(rows, ids);
    KeptMembers(rows, ids);
    KeptDistinct(rows, ids);
    KeptFirst(Ordered(rows), MAX_STORED_RUNS);
  }

  lemma DistinctIdsOfSorted(rows: seq<Row>)
    requires DistinctIds(rows)
    ensures DistinctIds(Ordered(rows))
  {
    OrderedIsSorted(rows);
    var sorted := Ordered(rows);
    forall i, j | 0 <= i < j < |sorted|
      ensures sorted[i].id != sorted[j].id
    {
      assert Before(sorted[i], sorted[j]);
      assert sorted[i] in rows && sorted[j] in rows;
      var a :| 0 <= a < |rows| && rows[a] == sorted[i];
      var b :| 0 <= b < |rows| && rows[b] == sorted[j];
      assert a != b;
    }
  }

  // ---------------------------------------------------------------- pruning is invisible

  lemma {:induction false} InsertIntoFirst(s: seq<Row>, row: Row, n: nat)
    ensures First(Insert(First(s, n), row), n) == First(Insert(s, row), n)
  {
    var head := First(s, n);
    if n > 0 && s != [] {
      if Before(row, s[0]) {
        assert First([row] + head, n) == First([row] + s, n);
      } else {
        InsertIntoFirst(s[1..], row, n - 1);
        assert head[1..] == First(s[1..], n - 1);
        FirstCons(s[0], Insert(head[1..], row), n);
        FirstCons(s[0], Insert(s[1..], row), n);
      }
    }
  }

  lemma FirstCons(x: Row, s: seq<Row>, n: nat)
    requires n > 0
    ensures First([x] + s, n) == [x] + First(s, n - 1)
  {
  }

  /** One append, seen from any reader. */
  lemma AppendThenPrune(rows: seq<Row>, all: seq<Row>, row: Row)
    requires DistinctIds(rows + [row])
    requires Ordered(rows) == First(Ordered(all), MAX_STORED_RUNS)
    ensures Ordered(Prune(rows + [row])) == First(Ordered(all + [row]), MAX_STORED_RUNS)
  {
    PruneKeepsFirst(rows + [row]);
    assert (rows + [row])[..|rows|] == rows && (all + [row])[..|all|] == all;
    InsertIntoFirst(Ordered(all), row, MAX_STORED_RUNS);
  }

  /** The table after appending `all` one by one, pruning each time. */
  function Store(all: seq<Row>): seq<Row> {
    if all == [] then [] else Prune(Store(all[..|all| - 1]) + [all[|all| - 1]])
  }

  /** After any sequence of appends the table is the top 200 of everything ever appended, so a
      reader that asks for at most 200 rows cannot tell that anything was deleted. */
  lemma {:induction false} PruningIsInvisible(all: seq<Row>, limit: nat)
    requires DistinctIds(all) && limit <= MAX_STORED_RUNS
    ensures Ordered(Store(all)) == First(Ordered(all), MAX_STORED_RUNS)
    ensures First(Ordered(Store(all)), limit) == First(Ordered(all), limit)
    ensures DistinctIds(Store(all)) && forall x :: x in Store(all) ==> x in all
  {
    hide Prune;
    if all != [] {
      var front, last := all[..|all| - 1], all[|all| - 1];
      assert all == front + [last];
      PruningIsInvisible(front, limit);
      var rows := Store(front);
      StoreStaysDistinct(rows, front, last);
      AppendThenPrune(rows, front, last);
      PruneKeepsFirst(rows + [last]);
    }
  }

  lemma StoreStaysDistinct(rows: seq<Row>, front: seq<Row>, last: Row)
    requires DistinctIds(rows) && DistinctIds(front + [last]) && forall x :: x in rows ==> x in front
    ensures DistinctIds(rows + [last])
  {
    var all := front + [last];
    forall i | 0 <= i < |rows|
      ensures rows[i].id != last.id
    {
      assert rows[i] in front;
      var k :| 0 <= k < |front| && front[k] == rows[i];
      assert all[k] == front[k] && all[|front|] == last;
    }
  }

  // ---------------------------------------------------------------- failed items

  /** `backup_run_failed_items`, by its primary key (run id, ordinal). */
  type ItemTable = map<(nat, nat), Item>

  /** `SELECT item ... ORDER BY ordinal ASC`, from one ordinal on; ordinals stay below the limit. */
  function ItemsFrom(table: ItemTable, id: nat, ordinal: nat): seq<Item>
    decreases MAX_BACKUP_FAILED_ITEMS - ordinal
  {
    if ordinal >= MAX_BACKUP_FAILED_ITEMS then []
    else (if (id, ordinal) in table then [table[(id, ordinal)]] else []) + ItemsFrom(table, id, ordinal + 1)
  }

  /** The table holds exactly `items` for the run, in order. */
  ghost predicate Holds(table: ItemTable, id: nat, items: seq<Item>) {
    && |items| <= MAX_BACKUP_FAILED_ITEMS
    && (forall k: nat :: k < |items| ==> (id, k) in table && table[(id, k)] == items[k])
    && (forall k: nat :: (id, k) in table ==> k < |items|)
  }

  lemma {:induction false} HeldItemsReadBack(table: ItemTable, id: nat, items: seq<Item>, ordinal: nat)
    requires Holds(table, id, items) && ordinal <= MAX_BACKUP_FAILED_ITEMS
    ensures ItemsFrom(table, id, ordinal) == items[Min(ordinal, |items|)..]
    decreases MAX_BACKUP_FAILED_ITEMS - ordinal
  {
    if ordinal < MAX_BACKUP_FAILED_ITEMS {
      HeldItemsReadBack(table, id, items, ordinal + 1);
    }
  }

  /** `ON DELETE CASCADE`. */
  function Cascade(table: ItemTable, ids: set<nat>): ItemTable {
    map key | key in table && key.0 in ids :: table[key]
  }

  function AddItems(table: ItemTable, id: nat, items: seq<Item>): ItemTable {
    if items == [] then table
    else AddItems(table, id, items[..|items| - 1])[(id, |items| - 1) := items[|items| - 1]]
  }

  datatype Tables = Tables(rows: seq<Row>, items: ItemTable, nextId: nat)

  /** One transaction: insert the run and its items, then prune. */
  function AppendRun(t: Tables, run: CompletedRun): Tables {
    var rows := t.rows + [RowOf(t.nextId, run)];
    var ids := IdsOf(First(Ordered(rows), MAX_STORED_RUNS));
    Tables(Kept(rows, ids), Cascade(AddItems(t.items, t.nextId, Normalize(run.details).items), ids), t.nextId + 1)
  }

  function TablesAfter(runs: seq<CompletedRun>): Tables {
    if runs == [] then Tables([], map[], 1)
    else AppendRun(TablesAfter(runs[..|runs| - 1]), runs[|runs| - 1])
  }

  lemma TablesGrow(runs: seq<CompletedRun>, run: CompletedRun)
    ensures TablesAfter(runs + [run]) == AppendRun(TablesAfter(runs), run)
  {
    hide AppendRun;
    assert (runs + [run])[..|runs|] == runs;
  }

  /** The rows an unpruned table would hold: ids count up from one. */
  function AllRows(runs: seq<CompletedRun>): seq<Row> {
    seq(|runs|, i requires 0 <= i < |runs| => RowOf(i + 1, runs[i]))
  }

  /** The row is the run of its id, and the table holds that run's normalized items. */
  ghost predicate StoredRow(table: ItemTable, runs: seq<CompletedRun>, row: Row) {
    && 1 <= row.id <= |runs|
    && row == RowOf(row.id, runs[row.id - 1])
    && Holds(table, row.id, Normalize(runs[row.id - 1].details).items)
  }

  ghost predicate ItemsBelow(table: ItemTable, id: nat) {
    forall key :: key in table ==> key.0 < id
  }

  /** Adding a run's items touches no other run. */
  lemma {:induction false} AddItemsKeys(table: ItemTable, id: nat, items: seq<Item>)
    ensures forall key: (nat, nat) :: key in AddItems(table, id, items) <==>
            key in table || (key.0 == id && key.1 < |items|)
    ensures forall key: (nat, nat) :: key in AddItems(table, id, items) ==>
      AddItems(table, id, items)[key] == if key.0 == id && key.1 < |items| then items[key.1] else table[key]
  {
    if items != [] {
      AddItemsKeys(table, id, items[..|items| - 1]);
    }
  }

  lemma HoldsAdded(table: ItemTable, id: nat, items: seq<Item>)
    requires ItemsBelow(table, id) && |items| <= MAX_BACKUP_FAILED_ITEMS
    ensures Holds(AddItems(table, id, items), id, items) && ItemsBelow(AddItems(table, id, items), id + 1)
  {
    AddItemsKeys(table, id, items);
    forall k: nat | k < |items|
      ensures (id, k) in AddItems(table, id, items) && AddItems(table, id, items)[(id, k)] == items[k]
    {
      assert (id, k).0 == id && (id, k).1 == k;
    }
    forall k: nat | (id, k) in AddItems(table, id, items)
      ensures k < |items|
    {
      assert (id, k).0 == id;
    }
  }

  lemma HoldsElsewhere(table: ItemTable, id: nat, items: seq<Item>, other: nat, more: seq<Item>, ids: set<nat>)
    requires Holds(table, id, items) && id != other && id in ids
    ensures Holds(Cascade(AddItems(table, other, more), ids), id, items)
  {
    AddItemsKeys(table, other, more);
    var after := Cascade(AddItems(table, other, more), ids);
    forall k: nat | k < |items|
      ensures (id, k) in after && after[(id, k)] == items[k]
    {
      assert (id, k).0 == id;
    }
    forall k: nat | (id, k) in after
      ensures k < |items|
    {
      assert (id, k) in table;
    }
  }

  lemma HoldsAfterCascade(table: ItemTable, id: nat, items: seq<Item>, ids: set<nat>)
    requires Holds(table, id, items) && id in ids
    ensures Holds(Cascade(table, ids), id, items)
  {
    forall k: nat | k < |items|
      ensures (id, k) in Cascade(table, ids) && Cascade(table, ids)[(id, k)] == items[k]
    {
    }
  }

  lemma AllRowsGrow(runs: seq<CompletedRun>, run: CompletedRun)
    ensures AllRows(runs + [run]) == AllRows(runs) + [RowOf(|runs| + 1, run)]
  {
  }

  lemma {:induction false} TableRows(runs: seq<CompletedRun>)
    ensures TablesAfter(runs).nextId == |runs| + 1 && TablesAfter(runs).rows == Store(AllRows(runs))
  {
    if runs != [] {
      var front, run := runs[..|runs| - 1], runs[|runs| - 1];
      assert runs == front + [run];
      TableRows(front);
      AllRowsGrow(front, run);
      assert AllRows(runs)[..|front|] == AllRows(front);
    }
  }

  /** After any appends the two tables are in step with the whole history. */
  lemma {:induction false} TablesHoldHistory(runs: seq<CompletedRun>)
    ensures
      var t := TablesAfter(runs);
      && t.nextId == |runs| + 1
      && t.rows == Store(AllRows(runs))
      && ItemsBelow(t.items, t.nextId)
      && forall row :: row in t.rows ==> StoredRow(t.items, runs, row)
  {
    TableRows(runs);
    if runs != [] {
      var front, run := runs[..|runs| - 1], runs[|runs| - 1];
      assert runs == front + [run];
      TablesHoldHistory(front);
      AppendHoldsHistory(TablesAfter(front), front, run);
    }
  }

  lemma AppendHoldsHistory(t: Tables, front: seq<CompletedRun>, run: CompletedRun)
    requires t.nextId == |front| + 1 && ItemsBelow(t.items, t.nextId)
    requires forall row :: row in t.rows ==> StoredRow(t.items, front, row)
    ensures ItemsBelow(AppendRun(t, run).items, t.nextId + 1)
    ensures forall row :: row in AppendRun(t, run).rows ==> StoredRow(AppendRun(t, run).items, front + [run], row)
  {
    var ids := IdsOf(First(Ordered(t.rows + [RowOf(t.nextId, run)]), MAX_STORED_RUNS));
    PushedIsBounded(run.details);
    HoldsAdded(t.items, t.nextId, Normalize(run.details).items);
    forall x | x in AppendRun(t, run).rows
      ensures StoredRow(AppendRun(t, run).items, front + [run], x)
    {
      StoredRowStep(t, front, run, ids, x);
    }
  }

  lemma StoredRowStep(t: Tables, front: seq<CompletedRun>, run: CompletedRun, ids: set<nat>, x: Row)
    requires t.nextId == |front| + 1
    requires forall row :: row in t.rows ==> StoredRow(t.items, front, row)
    requires Holds(AddItems(t.items, t.nextId, Normalize(run.details).items), t.nextId, Normalize(run.details).items)
    requires x in Kept(t.rows + [RowOf(t.nextId, run)], ids)
    ensures StoredRow(Cascade(AddItems(t.items, t.nextId, Normalize(run.details).items), ids), front + [run], x)
  {
    KeptMembers(t.rows + [RowOf(t.nextId, run)], ids);
    var items := Normalize(run.details).items;
    if x == RowOf(t.nextId, run) {
      HoldsAfterCascade(AddItems(t.items, t.nextId, items), t.nextId, items, ids);
    } else {
      assert x in t.rows;
      HoldsElsewhere(t.items, x.id, Normalize(front[x.id - 1].details).items, t.nextId, items, ids);
    }
  }

  // ---------------------------------------------------------------- the object itself

  method NormalizeFailureDetails(d: Details) returns (normalized: Details)
    ensures normalized == Normalize(d)
  {
    var items, omitted := [], d.omitted;
    for i := 0 to |d.items|
      invariant Details(items, omitted) == PushAll(Details([], d.omitted), d.items[..i])
    {
      assert d.items[..i + 1][..i] == d.items[..i];
      var item := d.items[i];
      if item !in items {
        if |items| >= MAX_BACKUP_FAILED_ITEMS || !IsSafe(item) {
          omitted := SaturatingAdd(omitted, 1);
        } else {
          items := items + [item];
        }
      }
    }
    assert d.items[..|d.items|] == d.items;
    PushedIsBounded(d);
    var retained := |items|;
    return Details(items, Min(omitted, I64_MAX - retained));
  }

  /** Inserts the failed items of a new run, one ordinal at a time. */
  method InsertItems(table: ItemTable, id: nat, names: seq<Item>) returns (filled: ItemTable)
    ensures filled == AddItems(table, id, names)
  {
    filled := table;
    for ordinal := 0 to |names|
      invariant filled == AddItems(table, id, names[..ordinal])
    {
      assert names[..ordinal + 1][..ordinal] == names[..ordinal];
      filled := filled[(id, ordinal) := names[ordinal]];
    }
    assert names[..|names|] == names;
  }

  /** Re-validates stored names on the way out. */
  method ReadableNames(stored: seq<Item>) returns (names: seq<Item>)
    ensures names == AddNew([], stored)
  {
    names := [];
    for i := 0 to |stored|
      invariant names == AddNew([], stored[..i])
    {
      assert stored[..i + 1][..i] == stored[..i];
      if IsSafe(stored[i]) && stored[i] !in names {
        names := names + [stored[i]];
      }
    }
    assert stored[..|stored|] == stored;
  }

  lemma {:induction false} AddNewAllDistinct(items: seq<Item>)
    requires Distinct(items) && AllSafe(items)
    ensures AddNew([], items) == items
  {
    if items != [] {
      AddNewAllDistinct(items[..|items| - 1]);
    }
  }

  method FindRow(rows: seq<Row>, id: nat) returns (index: nat)
    ensures index <= |rows|
    ensures index < |rows| ==> rows[index].id == id
    ensures index == |rows| ==> forall row :: row in rows ==> row.id != id
  {
    index := 0;
    while index < |rows| && rows[index].id != id
      invariant index <= |rows|
      invariant forall j :: 0 <= j < index ==> rows[j].id != id
    {
      index := index + 1;
    }
  }

  /** The names of one stored row, as a detail request reads them. */
  method ReadRow(table: ItemTable, row: Row, ghost runs: seq<CompletedRun>) returns (d: Details)
    requires StoredRow(table, runs, row)
    ensures d == Normalize(runs[row.id - 1].details)
  {
    ghost var normalized := Normalize(runs[row.id - 1].details);
    PushedIsBounded(runs[row.id - 1].details);
    HeldItemsReadBack(table, row.id, normalized.items, 0);
    var stored := ItemsFrom(table, row.id, 0);
    AddNewAllDistinct(stored);
    var names := ReadableNames(stored);
    return Details(names, SaturatingAdd(row.omitted, |stored| - |names|));
  }

  /** The summary row a history list shows. */
  method ReadRecord(table: ItemTable, row: Row, ghost runs: seq<CompletedRun>) returns (record: Record)
    requires StoredRow(table, runs, row)
    ensures record == Record(row, ListedCount(runs[row.id - 1].details))
  {
    HeldItemsReadBack(table, row.id, Normalize(runs[row.id - 1].details).items, 0);
    return Record(row, row.omitted + |ItemsFrom(table, row.id, 0)|);
  }

  method ReadRecords(table: ItemTable, newest: seq<Row>, ghost runs: seq<CompletedRun>) returns (records: seq<Record>)
    requires forall i :: 0 <= i < |newest| ==> StoredRow(table, runs, newest[i])
    ensures |records| == |newest|
    ensures forall i :: 0 <= i < |newest| ==>
      StoredRow(table, runs, newest[i]) && records[i] == Record(newest[i], ListedCount(runs[newest[i].id - 1].details))
  {
    records := [];
    for i := 0 to |newest|
      invariant |records| == i
      invariant forall j :: 0 <= j < i ==>
        && StoredRow(table, runs, newest[j])
        && records[j] == Record(newest[j], ListedCount(runs[newest[j].id - 1].details))
    {
      var record := ReadRecord(table, newest[i], runs);
      records := records + [record];
    }
  }

  /** What an unpruned history would list first. */
  function Newest(runs: seq<CompletedRun>, limit: nat): seq<Row> {
    First(Ordered(AllRows(runs)), limit)
  }

  /** The pruned table answers for the whole history. */
  lemma NewestIsStored(runs: seq<CompletedRun>, limit: nat)
    requires limit <= MAX_STORED_RUNS
    ensures
      var t := TablesAfter(runs);
      && First(Ordered(t.rows), limit) == Newest(runs, limit)
      && (forall i :: 0 <= i < |Newest(runs, limit)| ==> StoredRow(t.items, runs, Newest(runs, limit)[i]))
      && (forall row :: row in t.rows <==> row in Newest(runs, MAX_STORED_RUNS))
  {
    TablesHoldHistory(runs);
    AllRowsDistinct(runs);
    PruningIsInvisible(AllRows(runs), limit);
    var rows := TablesAfter(runs).rows;
    OrderedIsSorted(rows);
    var newest := First(Ordered(rows), limit);
    assert forall i :: 0 <= i < |newest| ==> newest[i] in Ordered(rows);
  }

  class BackupHistoryStore {
    var rows: seq<Row>
    var items: ItemTable
    var nextId: nat
    /** Every run ever appended. */
    ghost var runs: seq<CompletedRun>

    ghost predicate Valid()
      reads this
    {
      Tables(rows, items, nextId) == TablesAfter(runs)
    }

    constructor ()
      ensures Valid() && runs == []
    {
      rows, items, nextId, runs := [], map[], 1, [];
    }

    method Append(run: CompletedRun) returns (record: Record)
      requires Valid()
      modifies this
      ensures Valid() && runs == old(runs) + [run]
      ensures record == Record(RowOf(|runs|, run), ListedCount(run.details))
    {
      TableRows(runs);
      var normalized := NormalizeFailureDetails(run.details);
      hide TablesAfter, Kept, Cascade, AddItems, First, Ordered, RowOf, Normalize, IdsOf;
      var row := RowOf(nextId, run);
      var table := InsertItems(items, nextId, normalized.items);
      var keptIds := IdsOf(First(Ordered(rows + [row]), MAX_STORED_RUNS));
      rows, items, nextId := Kept(rows + [row], keptIds), Cascade(table, keptIds), nextId + 1;
      runs := runs + [run];
      TablesGrow(old(runs), run);
      return Record(row, |normalized.items| + normalized.omitted);
    }

    /** The newest runs, as an unpruned history would list them. */
    method Recent(limit: nat) returns (records: seq<Record>)
      requires Valid()
      ensures
        var newest := Newest(runs, Max(1, Min(limit, MAX_HISTORY_RESULTS)));
        && |records| == |newest|
        && forall i :: 0 <= i < |records| ==>
             && 1 <= newest[i].id <= |runs|
             && records[i] == Record(newest[i], ListedCount(runs[newest[i].id - 1].details))
    {
      var n := Max(1, Min(limit, MAX_HISTORY_RESULTS));
      hide TablesAfter, Newest, First, Ordered, ListedCount, Holds, RowOf;
      NewestIsStored(runs, n);
      records := ReadRecords(items, First(Ordered(rows), n), runs);
    }

    /** The stored names of one run; nothing for a run that was never stored or was pruned. */
    method ReadFailureDetails(id: nat) returns (found: Option<Details>)
      requires Valid()
      ensures found.Some? <==> id in IdsOf(Newest(runs, MAX_STORED_RUNS))
      ensures found.Some? ==> 1 <= id <= |runs| && found.value == Normalize(runs[id - 1].details)
    {
      NewestIsStored(runs, 0);
      TablesHoldHistory(runs);
      var index := FindRow(rows, id);
      if index == |rows| {
        return None;
      }
      assert rows[index] in rows;
      var d := ReadRow(items, rows[index], runs);
      return Some(d);
    }
  }

  lemma AllRowsDistinct(runs: seq<CompletedRun>)
    ensures DistinctIds(AllRows(runs))
  {
  }
}
