/** Reading runs back: which known entities were visible as of a run, and keyed diffs of two
    row sets, in summary and in detail. */
module CompareRegistry {
  import opened Wrappers
  import opened TrackingSchema
  import opened IssueHistory
  import KeyedSort

  // ----- as-of reconstruction -----

  datatype KnownRow = KnownRow(key: EntityRowKey, first: Option<nat>, last: Option<nat>)

  function ReconstructAsOf(rows: seq<KnownRow>, run: nat): seq<KnownRow> {
    if rows == [] then []
    else
      var r := rows[0];
      (if r.first.Some? && r.first.value <= run && r.last.Some? && r.last.value >= run then [r] else [])
      + ReconstructAsOf(rows[1..], run)
  }

  // rows is the table, one row per key, in any order.
  ghost predicate TableRows(rows: seq<KnownRow>, t: EntityTable) {
    && (forall r :: r in rows ==> r.key in t && r.first == Some(t[r.key].firstSeen) && r.last == Some(t[r.key].lastSeen))
    && (forall k :: k in t ==> KnownRow(k, Some(t[k].firstSeen), Some(t[k].lastSeen)) in rows)
  }

  predicate Sighted(run: RunInput, kind: Kind, k: EntityRowKey) {
    run.instance == k.instance && k.name != "" && exists u :: u in Roster(run, kind) && u.name == k.name
  }

  // Run number r (from 1) of the history saw the entity.
  predicate SightedAt(h: seq<RunInput>, kind: Kind, r: int, k: EntityRowKey) {
    1 <= r <= |h| && Sighted(h[r - 1], kind, k)
  }

  lemma {:induction false} RosterIsOneSighting(o: Option<KnownEntity>, k: EntityRowKey, us: seq<EntityInput>, ctx: Ctx)
    ensures var seen := ctx.instance == k.instance && k.name != "" && exists u :: u in us && u.name == k.name;
      var o' := IngestEntity(o, k, us, ctx);
      && (!seen ==> o' == o)
      && (seen ==> o'.Some? && o'.value.lastSeen == ctx.run
                   && o'.value.firstSeen == if o.None? then ctx.run else o.value.firstSeen)
  {
    if us != [] {
      var init, u := us[..|us| - 1], us[|us| - 1];
      assert us == init + [u];
      RosterIsOneSighting(o, k, init, ctx);
      assert (exists v :: v in us && v.name == k.name) <==> (exists v :: v in init && v.name == k.name) || u.name == k.name by {
        if v :| v in us && v.name == k.name { assert v in init || v == u; }
        if v :| v in init && v.name == k.name { assert v in us; }
        assert u in us;
      }
    }
  }

  /** A known entity's row spans exactly its first to its last sighting. */
  lemma {:induction false} SpanIsFirstToLastSighting(h: seq<RunInput>, kind: Kind, k: EntityRowKey)
    ensures EntityAfter(h, kind, k).Some? <==> exists r :: SightedAt(h, kind, r, k)
    ensures EntityAfter(h, kind, k).Some? ==>
      var e := EntityAfter(h, kind, k).value;
      && SightedAt(h, kind, e.firstSeen, k) && SightedAt(h, kind, e.lastSeen, k)
      && forall r :: SightedAt(h, kind, r, k) ==> e.firstSeen <= r <= e.lastSeen
  {
    if h != [] {
      var init, run := h[..|h| - 1], h[|h| - 1];
      SpanIsFirstToLastSighting(init, kind, k);
      RosterIsOneSighting(EntityAfter(init, kind, k), k, Roster(run, kind), Ctx(run.instance, |h|, run.now));
      assert forall r {:trigger SightedAt(h, kind, r, k)} :: SightedAt(h, kind, r, k) <==> SightedAt(init, kind, r, k) || (r == |h| && Sighted(run, kind, k));
      if EntityAfter(init, kind, k).Some? {
        assert SightedAt(h, kind, EntityAfter(init, kind, k).value.firstSeen, k);
        assert SightedAt(h, kind, EntityAfter(init, kind, k).value.lastSeen, k);
      }
      assert Sighted(run, kind, k) ==> SightedAt(h, kind, |h|, k);
    }
  }

  lemma {:induction false} ReconstructKeeps(rows: seq<KnownRow>, run: nat, r: KnownRow)
    ensures r in ReconstructAsOf(rows, run) <==>
      r in rows && r.first.Some? && r.first.value <= run && r.last.Some? && r.last.value >= run
  {
    if rows != [] {
      ReconstructKeeps(rows[1..], run, r);
      assert rows == [rows[0]] + rows[1..];
    }
  }

  /** As-of reconstruction lists an entity exactly when it was sighted at or before the run and
      again at or after it.  So everything present in the run is listed, and the only extras are
      entities missing from the run but sighted on both sides of it. */
  lemma AsOfIsSightedAround(h: seq<RunInput>, kind: Kind, t: EntityTable, rows: seq<KnownRow>, run: nat, k: EntityRowKey)
    requires forall j :: LookupEntity(t, j) == EntityAfter(h, kind, j)
    requires TableRows(rows, t)
    ensures (exists r :: r in ReconstructAsOf(rows, run) && r.key == k) <==>
      exists a, b :: a <= run <= b && SightedAt(h, kind, a, k) && SightedAt(h, kind, b, k)
    ensures SightedAt(h, kind, run, k) ==> exists r :: r in ReconstructAsOf(rows, run) && r.key == k
  {
    SpanIsFirstToLastSighting(h, kind, k);
    assert LookupEntity(t, k) == EntityAfter(h, kind, k);
    if r :| r in ReconstructAsOf(rows, run) && r.key == k {
      ReconstructKeeps(rows, run, r);
      assert SightedAt(h, kind, t[k].firstSeen, k) && SightedAt(h, kind, t[k].lastSeen, k);
    }
    if a, b :| a <= run <= b && SightedAt(h, kind, a, k) && SightedAt(h, kind, b, k) {
      var r := KnownRow(k, Some(t[k].firstSeen), Some(t[k].lastSeen));
      ReconstructKeeps(rows, run, r);
      assert r in ReconstructAsOf(rows, run) && r.key == k;
    }
    if SightedAt(h, kind, run, k) {
      var r := KnownRow(k, Some(t[k].firstSeen), Some(t[k].lastSeen));
      ReconstructKeeps(rows, run, r);
    }
  }

  // ----- keyed diffs -----

  datatype DataRow = DataRow(cells: map<string, string>)
  datatype RowKey = RowKey(parts: seq<string>)
  datatype DiffStatus = Added | Removed | Changed | Unchanged
  datatype Summary = Summary(added: nat, removed: nat, changed: nat, same: nat, count1: nat, count2: nat)
  datatype DiffRow = DiffRow(status: DiffStatus, key: RowKey, run1: Option<DataRow>, run2: Option<DataRow>, changes: seq<string>)

  function Cell(row: DataRow, c: string): Option<string> {
    if c in row.cells then Some(row.cells[c]) else None
  }

  // row.get(k, '') for every key field
  function KeyOfRow(row: DataRow, keyFields: seq<string>): RowKey {
    RowKey(seq(|keyFields|, i requires 0 <= i < |keyFields| =>
      if keyFields[i] in row.cells then row.cells[keyFields[i]] else ""))
  }

  // {_row_key(r): r for r in rows}: a later row of the same key replaces an earlier one
  function Keyed(rows: seq<DataRow>, keyFields: seq<string>): map<RowKey, DataRow> {
    if rows == [] then map[]
    else Keyed(rows[..|rows| - 1], keyFields)[KeyOfRow(rows[|rows| - 1], keyFields) := rows[|rows| - 1]]
  }

  // The columns a diff compares.
  function Without(columns: seq<string>, keyFields: seq<string>): (r: seq<string>)
    ensures forall c :: c in r <==> c in columns && c !in keyFields
  {
    if columns == [] then []
    else (if columns[0] in keyFields then [] else [columns[0]]) + Without(columns[1..], keyFields)
  }

  // Row i is the last one of its key.
  predicate LastOfKey(rows: seq<DataRow>, i: int, keyFields: seq<string>, k: RowKey) {
    && 0 <= i < |rows| && KeyOfRow(rows[i], keyFields) == k
    && forall j :: i < j < |rows| ==> KeyOfRow(rows[j], keyFields) != k
  }

  /** A key is there if some row has it, and stands for the last such row. */
  lemma {:induction false} LastRowWins(rows: seq<DataRow>, keyFields: seq<string>, k: RowKey)
    ensures k in Keyed(rows, keyFields) <==> exists i :: LastOfKey(rows, i, keyFields, k)
    ensures forall i :: LastOfKey(rows, i, keyFields, k) ==> k in Keyed(rows, keyFields) && Keyed(rows, keyFields)[k] == rows[i]
  {
    if rows != [] {
      var init, last := rows[..|rows| - 1], |rows| - 1;
      LastRowWins(init, keyFields, k);
      if KeyOfRow(rows[last], keyFields) == k { assert LastOfKey(rows, last, keyFields, k); }
      forall i | LastOfKey(rows, i, keyFields, k) && i < last ensures LastOfKey(init, i, keyFields, k) {}
      forall i | LastOfKey(init, i, keyFields, k) && KeyOfRow(rows[last], keyFields) != k ensures LastOfKey(rows, i, keyFields, k) {}
    }
  }

  function Differing(a: DataRow, b: DataRow, cols: seq<string>): seq<string> {
    if cols == [] then []
    else (if Cell(a, cols[0]) != Cell(b, cols[0]) then [cols[0]] else []) + Differing(a, b, cols[1..])
  }

  lemma {:induction false} DifferingEmpty(a: DataRow, b: DataRow, cols: seq<string>)
    ensures Differing(a, b, cols) == [] <==> forall c :: c in cols ==> Cell(a, c) == Cell(b, c)
  {
    if cols != [] {
      DifferingEmpty(a, b, cols[1..]);
      assert cols == [cols[0]] + cols[1..];
    }
  }

  predicate Differ(a: DataRow, b: DataRow, cols: seq<string>) {
    exists c :: c in cols && Cell(a, c) != Cell(b, c)
  }

  // What a diff should say about one key.
  function StatusOf(m1: map<RowKey, DataRow>, m2: map<RowKey, DataRow>, k: RowKey, cols: seq<string>): DiffStatus
    requires k in m1 || k in m2
  {
    if k !in m2 then Added
    else if k !in m1 then Removed
    else if Differ(m1[k], m2[k], cols) then Changed
    else Unchanged
  }

  function Statuses(m1: map<RowKey, DataRow>, m2: map<RowKey, DataRow>, cols: seq<string>): map<RowKey, DiffStatus> {
    map k | k in m1.Keys + m2.Keys :: StatusOf(m1, m2, k, cols)
  }

  // Two rows have the same text in a column, or both lack it.
  predicate SameCell(a: DataRow, b: DataRow, c: string) {
    if c in a.cells then c in b.cells && a.cells[c] == b.cells[c] else c !in b.cells
  }

  // A missing key field counts as empty.
  predicate SamePart(a: DataRow, b: DataRow, c: string) {
    (if c in a.cells then a.cells[c] else "") == (if c in b.cells then b.cells[c] else "")
  }

  lemma SameKeyIff(a: DataRow, b: DataRow, keyFields: seq<string>)
    ensures KeyOfRow(a, keyFields) == KeyOfRow(b, keyFields) <==> forall c :: c in keyFields ==> SamePart(a, b, c)
  {
    var p, q := KeyOfRow(a, keyFields).parts, KeyOfRow(b, keyFields).parts;
    if p == q {
      forall c | c in keyFields ensures SamePart(a, b, c) {
        var i :| 0 <= i < |keyFields| && keyFields[i] == c;
        assert p[i] == q[i];
      }
    } else {
      var i :| 0 <= i < |keyFields| && p[i] != q[i];
      assert !SamePart(a, b, keyFields[i]);
    }
  }

  /** What the diff says of a key both sides have: the last row of the key on each side is compared, in every
      column that is no key field, and the key is changed if and only if some such column differs, or one
      side lacks it. */
  lemma ChangedIff(rows1: seq<DataRow>, rows2: seq<DataRow>, keyFields: seq<string>, columns: seq<string>, i: int, j: int, k: RowKey)
    requires LastOfKey(rows1, i, keyFields, k) && LastOfKey(rows2, j, keyFields, k)
    ensures var st := Statuses(Keyed(rows1, keyFields), Keyed(rows2, keyFields), Without(columns, keyFields));
      && k in st && st[k] in {Changed, Unchanged}
      && (st[k] == Changed <==> exists c :: c in columns && c !in keyFields && !SameCell(rows1[i], rows2[j], c))
  {
    LastRowWins(rows1, keyFields, k);
    LastRowWins(rows2, keyFields, k);
    var a, b := rows1[i], rows2[j];
    forall c ensures SameCell(a, b, c) <==> Cell(a, c) == Cell(b, c) {}
  }

  /** A key is added if the second side has no row of it, and removed if the first has none. */
  lemma OneSidedIff(rows1: seq<DataRow>, rows2: seq<DataRow>, keyFields: seq<string>, columns: seq<string>, k: RowKey)
    ensures var st := Statuses(Keyed(rows1, keyFields), Keyed(rows2, keyFields), Without(columns, keyFields));
      && (k in st && st[k] == Added <==> (exists i :: LastOfKey(rows1, i, keyFields, k)) && forall j :: !LastOfKey(rows2, j, keyFields, k))
      && (k in st && st[k] == Removed <==> (exists j :: LastOfKey(rows2, j, keyFields, k)) && forall i :: !LastOfKey(rows1, i, keyFields, k))
  {
    LastRowWins(rows1, keyFields, k);
    LastRowWins(rows2, keyFields, k);
  }

  function KeysWith(st: map<RowKey, DiffStatus>, ks: set<RowKey>, s: DiffStatus): set<RowKey> {
    set k | k in ks && k in st && st[k] == s
  }

  lemma KeysWithGrows(st: map<RowKey, DiffStatus>, ks: set<RowKey>, k: RowKey, s: DiffStatus)
    requires k in st && k !in ks
    ensures |KeysWith(st, ks + {k}, s)| == |KeysWith(st, ks, s)| + if st[k] == s then 1 else 0
  {
    assert KeysWith(st, ks + {k}, s) == KeysWith(st, ks, s) + if st[k] == s then {k} else {};
  }

  lemma StatusSets(m1: map<RowKey, DataRow>, m2: map<RowKey, DataRow>, cols: seq<string>)
    ensures var st := Statuses(m1, m2, cols);
      && KeysWith(st, st.Keys, Added) == m1.Keys - m2.Keys
      && KeysWith(st, st.Keys, Removed) == m2.Keys - m1.Keys
      && KeysWith(st, st.Keys, Changed) == KeysWith(st, m1.Keys * m2.Keys, Changed)
      && KeysWith(st, st.Keys, Unchanged) == KeysWith(st, m1.Keys * m2.Keys, Unchanged)
  {
  }

  method DiffKeyedTables(rows1: seq<DataRow>, rows2: seq<DataRow>, keyFields: seq<string>, columns: seq<string>)
    returns (summary: Summary)
    ensures var st := Statuses(Keyed(rows1, keyFields), Keyed(rows2, keyFields), Without(columns, keyFields));
      summary == Summary(|KeysWith(st, st.Keys, Added)|, |KeysWith(st, st.Keys, Removed)|,
                         |KeysWith(st, st.Keys, Changed)|, |KeysWith(st, st.Keys, Unchanged)|, |rows1|, |rows2|)
  {
    var m1, m2, cols := Keyed(rows1, keyFields), Keyed(rows2, keyFields), Without(columns, keyFields);
    SharedStatuses(m1, m2, cols);
    var changed, same := CountShared(m1, m2, cols, Statuses(m1, m2, cols));
    StatusSets(m1, m2, cols);
    summary := Summary(|m1.Keys - m2.Keys|, |m2.Keys - m1.Keys|, changed, same, |rows1|, |rows2|);
  }

  ghost predicate SharedShow(st: map<RowKey, DiffStatus>, m1: map<RowKey, DataRow>, m2: map<RowKey, DataRow>, cols: seq<string>) {
    forall k :: k in m1 && k in m2 ==> k in st && st[k] == if Differ(m1[k], m2[k], cols) then Changed else Unchanged
  }

  lemma SharedStatuses(m1: map<RowKey, DataRow>, m2: map<RowKey, DataRow>, cols: seq<string>)
    ensures SharedShow(Statuses(m1, m2, cols), m1, m2, cols)
  {
  }

  lemma CountStep(st: map<RowKey, DiffStatus>, shared: set<RowKey>, todo: set<RowKey>, k: RowKey, s: DiffStatus)
    requires todo <= shared && k in todo && k in st
    ensures |KeysWith(st, shared - (todo - {k}), s)| == |KeysWith(st, shared - todo, s)| + if st[k] == s then 1 else 0
  {
    KeysWithGrows(st, shared - todo, k, s);
    assert shared - (todo - {k}) == (shared - todo) + {k};
  }

  // The loop over the keys of both sides.
  method CountShared(m1: map<RowKey, DataRow>, m2: map<RowKey, DataRow>, cols: seq<string>, ghost st: map<RowKey, DiffStatus>)
    returns (changed: nat, same: nat)
    requires SharedShow(st, m1, m2, cols)
    ensures changed == |KeysWith(st, m1.Keys * m2.Keys, Changed)| && same == |KeysWith(st, m1.Keys * m2.Keys, Unchanged)|
  {
    changed, same := 0, 0;
    var shared := m1.Keys * m2.Keys;
    var todo := shared;
    while todo != {}
      invariant todo <= shared
      invariant changed == |KeysWith(st, shared - todo, Changed)| && same == |KeysWith(st, shared - todo, Unchanged)|
      decreases |todo|
    {
      var k :| k in todo;
      CountStep(st, shared, todo, k, Changed);
      CountStep(st, shared, todo, k, Unchanged);
      if Differ(m1[k], m2[k], cols) {
        changed := changed + 1;
      } else {
        same := same + 1;
      }
      todo := todo - {k};
    }
    assert shared - todo == shared;
  }

  ghost predicate DistinctKeys(rows: seq<DiffRow>) {
    forall i, j :: 0 <= i < j < |rows| ==> rows[i].key != rows[j].key
  }

  function KeySet(rows: seq<DiffRow>): set<RowKey> {
    set r | r in rows :: r.key
  }

  lemma KeySetSnoc(rows: seq<DiffRow>, r: DiffRow)
    ensures KeySet(rows + [r]) == KeySet(rows) + {r.key}
  {
    assert forall q :: q in rows + [r] <==> q in rows || q == r;
  }

  lemma DistinctSnoc(rows: seq<DiffRow>, r: DiffRow)
    ensures DistinctKeys(rows + [r]) <==> DistinctKeys(rows) && r.key !in KeySet(rows)
  {
    var all := rows + [r];
    if DistinctKeys(all) {
      forall i, j | 0 <= i < j < |rows| ensures rows[i].key != rows[j].key {
        assert all[i] == rows[i] && all[j] == rows[j];
      }
      forall q | q in rows ensures q.key != r.key {
        var i :| 0 <= i < |rows| && rows[i] == q;
        assert all[i] == q && all[|rows|] == r;
      }
    }
    if DistinctKeys(rows) && r.key !in KeySet(rows) {
      forall i, j | 0 <= i < j < |all| ensures all[i].key != all[j].key {
        assert rows[i] in rows;
      }
    }
  }

  // The detail rows show every key of either side once, with the status and the rows it has there.
  ghost predicate Details(rows: seq<DiffRow>, st: map<RowKey, DiffStatus>, m1: map<RowKey, DataRow>, m2: map<RowKey, DataRow>) {
    && DistinctKeys(rows) && KeySet(rows) == st.Keys
    && AllDetails(rows, st, m1, m2)
  }

  ghost predicate AllDetails(rows: seq<DiffRow>, st: map<RowKey, DiffStatus>, m1: map<RowKey, DataRow>, m2: map<RowKey, DataRow>) {
    forall r :: r in rows ==> Detail(r, st, m1, m2)
  }

  ghost predicate Detail(r: DiffRow, st: map<RowKey, DiffStatus>, m1: map<RowKey, DataRow>, m2: map<RowKey, DataRow>) {
    && r.key in st && r.status == st[r.key]
    && r.run1 == (if r.key in m1 then Some(m1[r.key]) else None)
    && r.run2 == (if r.key in m2 then Some(m2[r.key]) else None)
  }

  ghost predicate StatusesShow(st: map<RowKey, DiffStatus>, m1: map<RowKey, DataRow>, m2: map<RowKey, DataRow>, cols: seq<string>) {
    st.Keys == m1.Keys + m2.Keys && forall k :: k in st ==> st[k] == StatusOf(m1, m2, k, cols)
  }

  method DetailRow(m1: map<RowKey, DataRow>, m2: map<RowKey, DataRow>, k: RowKey, columns: seq<string>, cols: seq<string>,
                   ghost st: map<RowKey, DiffStatus>)
    returns (r: DiffRow)
    requires (k in m1 || k in m2) && StatusesShow(st, m1, m2, cols)
    ensures r.key == k && Detail(r, st, m1, m2)
    ensures r.changes == if k in m1 && k in m2 then Differing(m1[k], m2[k], cols) else columns
  {
    if k !in m2 {
      r := DiffRow(Added, k, Some(m1[k]), None, columns);
    } else if k !in m1 {
      r := DiffRow(Removed, k, None, Some(m2[k]), columns);
    } else {
      var changes := Differing(m1[k], m2[k], cols);
      DifferingEmpty(m1[k], m2[k], cols);
      r := DiffRow(if changes != [] then Changed else Unchanged, k, Some(m1[k]), Some(m2[k]), changes);
    }
  }

  // Every key is either shown, in its right row, or still to do.
  ghost predicate Progress(rows: seq<DiffRow>, todo: set<RowKey>, st: map<RowKey, DiffStatus>, m1: map<RowKey, DataRow>, m2: map<RowKey, DataRow>) {
    && DistinctKeys(rows) && KeySet(rows) !! todo && KeySet(rows) + todo == st.Keys
    && AllDetails(rows, st, m1, m2)
  }

  lemma DetailStep(rows: seq<DiffRow>, todo: set<RowKey>, r: DiffRow, st: map<RowKey, DiffStatus>, m1: map<RowKey, DataRow>, m2: map<RowKey, DataRow>)
    requires Progress(rows, todo, st, m1, m2) && r.key in todo && Detail(r, st, m1, m2)
    ensures Progress(rows + [r], todo - {r.key}, st, m1, m2)
  {
    DistinctSnoc(rows, r);
    KeySetSnoc(rows, r);
  }

  method DetailRows(rows1: seq<DataRow>, rows2: seq<DataRow>, keyFields: seq<string>, columns: seq<string>)
    returns (rows: seq<DiffRow>)
    ensures var m1, m2 := Keyed(rows1, keyFields), Keyed(rows2, keyFields);
      Details(rows, Statuses(m1, m2, Without(columns, keyFields)), m1, m2)
  {
    var m1, m2, cols := Keyed(rows1, keyFields), Keyed(rows2, keyFields), Without(columns, keyFields);
    rows := ShowAll(m1, m2, columns, cols, Statuses(m1, m2, cols));
  }

  // The loop over the keys of either side.
  method ShowAll(m1: map<RowKey, DataRow>, m2: map<RowKey, DataRow>, columns: seq<string>, cols: seq<string>, ghost st: map<RowKey, DiffStatus>)
    returns (rows: seq<DiffRow>)
    requires StatusesShow(st, m1, m2, cols)
    ensures Details(rows, st, m1, m2)
  {
    rows := [];
    var todo := m1.Keys + m2.Keys;
    while todo != {}
      invariant todo <= m1.Keys + m2.Keys && Progress(rows, todo, st, m1, m2)
      decreases |todo|
    {
      var k :| k in todo;
      var r := DetailRow(m1, m2, k, columns, cols, st);
      DetailStep(rows, todo, r, st, m1, m2);
      rows, todo := rows + [r], todo - {k};
    }
  }

  function CountStatus(rows: seq<DiffRow>, s: DiffStatus): nat {
    if rows == [] then 0 else CountStatus(rows[..|rows| - 1], s) + if rows[|rows| - 1].status == s then 1 else 0
  }

  lemma {:induction false} CountIsKeysWith(rows: seq<DiffRow>, st: map<RowKey, DiffStatus>, s: DiffStatus)
    requires DistinctKeys(rows) && forall r :: r in rows ==> r.key in st && r.status == st[r.key]
    ensures CountStatus(rows, s) == |KeysWith(st, KeySet(rows), s)|
  {
    if rows != [] {
      var init, r := rows[..|rows| - 1], rows[|rows| - 1];
      assert rows == init + [r];
      DistinctSnoc(init, r);
      KeySetSnoc(init, r);
      CountIsKeysWith(init, st, s);
      KeysWithGrows(st, KeySet(init), r.key, s);
    }
  }

  /** The detailed diff and the summary agree on every status, for any rows at all: duplicate keys
      collapse the same way in both. */
  lemma DetailAgreesWithSummary(rows: seq<DiffRow>, st: map<RowKey, DiffStatus>, m1: map<RowKey, DataRow>, m2: map<RowKey, DataRow>, s: DiffStatus)
    requires Details(rows, st, m1, m2)
    ensures CountStatus(rows, s) == |KeysWith(st, st.Keys, s)|
  {
    assert forall r :: r in rows ==> Detail(r, st, m1, m2);
    CountIsKeysWith(rows, st, s);
  }

  // ----- filtering and pages -----

  function Filtered(rows: seq<DiffRow>, status: Option<DiffStatus>, matches: DiffRow -> bool): seq<DiffRow> {
    if rows == [] then []
    else
      var before := Filtered(rows[..|rows| - 1], status, matches);
      var r := rows[|rows| - 1];
      if (status.None? || r.status == status.value) && matches(r) then before + [r] else before
  }

  function Clamp(n: nat, top: nat): nat { if n <= top then n else top }

  // all_rows[start:end] for page = 1, 2, ...
  function Page(rows: seq<DiffRow>, page: nat, size: nat): seq<DiffRow>
    requires page >= 1
  {
    var start, end := (page - 1) * size, (page - 1) * size + size;
    rows[Clamp(start, |rows|)..Clamp(end, |rows|)]
  }

  function Pages(rows: seq<DiffRow>, n: nat, size: nat): seq<DiffRow> {
    if n == 0 then [] else Pages(rows, n - 1, size) + Page(rows, n, size)
  }

  lemma {:induction false} PagesArePrefix(rows: seq<DiffRow>, n: nat, size: nat)
    ensures Pages(rows, n, size) == rows[..Clamp(n * size, |rows|)]
  {
    if n > 0 {
      PagesArePrefix(rows, n - 1, size);
      assert (n - 1) * size + size == n * size;
    }
  }

  lemma {:induction false} FilteredExactly(rows: seq<DiffRow>, status: Option<DiffStatus>, matches: DiffRow -> bool)
    requires DistinctKeys(rows)
    ensures var f := Filtered(rows, status, matches);
      && DistinctKeys(f)
      && (forall r :: r in f <==> r in rows && (status.None? || r.status == status.value) && matches(r))
  {
    if rows != [] {
      var init, r := rows[..|rows| - 1], rows[|rows| - 1];
      assert rows == init + [r];
      DistinctSnoc(init, r);
      KeySetSnoc(init, r);
      FilteredExactly(init, status, matches);
      DistinctSnoc(Filtered(init, status, matches), r);
    }
  }

  // Rearranging rows, as the optional sort does, keeps keys apart.
  lemma SortKeepsKeys(rows: seq<DiffRow>, sorted: seq<DiffRow>)
    requires DistinctKeys(rows) && multiset(sorted) == multiset(rows)
    ensures DistinctKeys(sorted)
  {
    forall i, j | 0 <= i < j < |sorted| ensures sorted[i].key != sorted[j].key {
      assert sorted[i] in multiset(rows) && sorted[j] in multiset(rows);
      if sorted[i] == sorted[j] {
        KeyedSort.TwiceInMultiset(sorted, i, j);
        KeyedSort.OnceInMultiset(rows, sorted[i]);
      }
    }
  }

  /** Reading page after page shows every row that passes the filters exactly once and no other, once the
      pages cover the total, whatever order the optional sort put the filtered rows in. */
  lemma PagesShowEachOnce(rows: seq<DiffRow>, status: Option<DiffStatus>, matches: DiffRow -> bool, sorted: seq<DiffRow>, n: nat, size: nat)
    requires DistinctKeys(rows) && multiset(sorted) == multiset(Filtered(rows, status, matches))
    requires n * size >= |sorted|
    ensures var shown := Pages(sorted, n, size);
      && shown == sorted && DistinctKeys(shown)
      && (forall r :: r in shown <==> r in rows && (status.None? || r.status == status.value) && matches(r))
  {
    FilteredExactly(rows, status, matches);
    SortKeepsKeys(Filtered(rows, status, matches), sorted);
    PagesArePrefix(sorted, n, size);
    forall r ensures r in sorted <==> r in Filtered(rows, status, matches) { assert r in sorted <==> r in multiset(sorted); }
  }
}
