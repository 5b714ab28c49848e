/** A table with its indexes: selects through an index agree with the scan. */
module SchemaTable {
  import opened Replay
  import opened RecordLayout
  import opened SlotTable
  import opened TableIterator

  type Row = seq<Byte>
  type Rows = map<Address, Row>
  type UniqueIndex = map<seq<Byte>, Address>
  type MultiIndex = map<seq<Byte>, seq<Address>>

  function Key(columns: seq<Column>, cols: seq<nat>, row: Row): seq<Byte> {
    if LaidOut(columns) && InSchema(columns, cols) && |row| == Width(columns) then KeyOf(columns, row, cols) else []
  }

  // ---- Index operations ----

  /** The unique index keeps the entry that it has. */
  function UniqueInsert(m: UniqueIndex, key: seq<Byte>, a: Address): UniqueIndex { if key in m then m else m[key := a] }

  function MultiInsert(m: MultiIndex, key: seq<Byte>, a: Address): MultiIndex { m[key := MultiSearch(m, key) + [a]] }

  function MultiSearch(m: MultiIndex, key: seq<Byte>): seq<Address> { if key in m then m[key] else [] }

  // ---- Agreement of an index with the live records ----

  ghost predicate UniqueAgrees(columns: seq<Column>, cols: seq<nat>, live: Rows, m: UniqueIndex) {
    && (forall k | k in m :: m[k] in live && Key(columns, cols, live[m[k]]) == k)
    && (forall a | a in live :: FiledAt(columns, cols, live, m, a))
  }

  predicate FiledAt(columns: seq<Column>, cols: seq<nat>, live: Rows, m: UniqueIndex, a: Address)
    requires a in live
  {
    Key(columns, cols, live[a]) in m && m[Key(columns, cols, live[a])] == a
  }

  ghost predicate MultiAgrees(columns: seq<Column>, cols: seq<nat>, live: Rows, m: MultiIndex) {
    && (forall k, a | k in m && a in m[k] :: a in live && Key(columns, cols, live[a]) == k)
    && (forall a | a in live :: a in MultiSearch(m, Key(columns, cols, live[a])))
    && (forall k | k in m :: NoDuplicates(m[k]))
  }

  ghost predicate NoDuplicates(addresses: seq<Address>) { forall i, j | 0 <= i < j < |addresses| :: addresses[i] != addresses[j] }

  /** No other live record has this key. */
  ghost predicate OnlyWith(columns: seq<Column>, cols: seq<nat>, live: Rows, key: seq<Byte>, except: Address) {
    forall b | b in live && b != except :: Key(columns, cols, live[b]) != key
  }

  /** An insert keeps the unique index in agreement exactly if its key is new. */
  lemma UniqueInsertAgrees(columns: seq<Column>, cols: seq<nat>, live: Rows, m: UniqueIndex, a: Address, row: Row)
    requires UniqueAgrees(columns, cols, live, m) && a !in live
    ensures UniqueAgrees(columns, cols, live[a := row], UniqueInsert(m, Key(columns, cols, row), a))
        <==> OnlyWith(columns, cols, live, Key(columns, cols, row), a)
  {
    var key := Key(columns, cols, row);
    var live', m' := live[a := row], UniqueInsert(m, key, a);
    if UniqueAgrees(columns, cols, live', m') {
      assert FiledAt(columns, cols, live', m', a);
      forall b | b in live && b != a ensures Key(columns, cols, live[b]) != key {
        assert FiledAt(columns, cols, live, m, b);
      }
    }
    if OnlyWith(columns, cols, live, key, a) {
      assert key !in m;
      forall b | b in live' ensures FiledAt(columns, cols, live', m', b) {
        if b != a { assert FiledAt(columns, cols, live, m, b); }
      }
    }
  }

  lemma UniqueDeleteAgrees(columns: seq<Column>, cols: seq<nat>, live: Rows, m: UniqueIndex, a: Address)
    requires UniqueAgrees(columns, cols, live, m) && a in live
    ensures UniqueAgrees(columns, cols, live - {a}, m - {Key(columns, cols, live[a])})
  {
    var key := Key(columns, cols, live[a]);
    assert FiledAt(columns, cols, live, m, a);
    forall b | b in live - {a} ensures FiledAt(columns, cols, live - {a}, m - {key}, b) {
      assert FiledAt(columns, cols, live, m, b);
    }
  }

  lemma MultiInsertAgrees(columns: seq<Column>, cols: seq<nat>, live: Rows, m: MultiIndex, a: Address, row: Row)
    requires MultiAgrees(columns, cols, live, m) && a !in live
    ensures MultiAgrees(columns, cols, live[a := row], MultiInsert(m, Key(columns, cols, row), a))
  {
    var key := Key(columns, cols, row);
    var live', m' := live[a := row], MultiInsert(m, key, a);
    assert a !in MultiSearch(m, key);
    forall b | b in live' ensures b in MultiSearch(m', Key(columns, cols, live'[b])) {
      if b != a { assert b in MultiSearch(m, Key(columns, cols, live[b])); }
    }
  }

  lemma DeleteAgreesOnly(columns: seq<Column>, cols: seq<nat>, live: Rows, m: MultiIndex, a: Address)
    requires MultiAgrees(columns, cols, live, m) && a in live
    requires MultiAgrees(columns, cols, live - {a}, m - {Key(columns, cols, live[a])})
    ensures OnlyWith(columns, cols, live, Key(columns, cols, live[a]), a)
  {
    var key := Key(columns, cols, live[a]);
    forall b | b in live && b != a ensures Key(columns, cols, live[b]) != key {
      assert b in MultiSearch(m - {key}, Key(columns, cols, (live - {a})[b]));
    }
  }

  lemma DeleteAgreesIf(columns: seq<Column>, cols: seq<nat>, live: Rows, m: MultiIndex, a: Address)
    requires MultiAgrees(columns, cols, live, m) && a in live
    requires OnlyWith(columns, cols, live, Key(columns, cols, live[a]), a)
    ensures MultiAgrees(columns, cols, live - {a}, m - {Key(columns, cols, live[a])})
  {
    var live', m' := live - {a}, m - {Key(columns, cols, live[a])};
    forall b | b in live' ensures b in MultiSearch(m', Key(columns, cols, live'[b])) {
      assert b in MultiSearch(m, Key(columns, cols, live[b]));
    }
    forall k, b | k in m' && b in m'[k] ensures b in live' && Key(columns, cols, live'[b]) == k {
      assert k in m && b in m[k];
    }
  }

  /** A delete erases everything under the key; the multi index stays in agreement exactly if
      no other live record has that key. */
  lemma MultiDeleteAgrees(columns: seq<Column>, cols: seq<nat>, live: Rows, m: MultiIndex, a: Address)
    requires MultiAgrees(columns, cols, live, m) && a in live
    ensures MultiAgrees(columns, cols, live - {a}, m - {Key(columns, cols, live[a])})
        <==> OnlyWith(columns, cols, live, Key(columns, cols, live[a]), a)
  {
    if OnlyWith(columns, cols, live, Key(columns, cols, live[a]), a) {
      DeleteAgreesIf(columns, cols, live, m, a);
    } else if MultiAgrees(columns, cols, live - {a}, m - {Key(columns, cols, live[a])}) {
      DeleteAgreesOnly(columns, cols, live, m, a);
    }
  }

  /** An update in place does not touch the indexes; they stay in agreement exactly if it
      leaves the key columns alone. */
  lemma UniqueUpdateAgrees(columns: seq<Column>, cols: seq<nat>, live: Rows, m: UniqueIndex, a: Address, row: Row)
    requires UniqueAgrees(columns, cols, live, m) && a in live
    ensures UniqueAgrees(columns, cols, live[a := row], m) <==> Key(columns, cols, row) == Key(columns, cols, live[a])
  {
    var live' := live[a := row];
    assert FiledAt(columns, cols, live, m, a);
    if Key(columns, cols, row) == Key(columns, cols, live[a]) {
      forall b | b in live' ensures FiledAt(columns, cols, live', m, b) { assert FiledAt(columns, cols, live, m, b); }
    }
  }

  lemma MultiUpdateAgrees(columns: seq<Column>, cols: seq<nat>, live: Rows, m: MultiIndex, a: Address, row: Row)
    requires MultiAgrees(columns, cols, live, m) && a in live
    ensures MultiAgrees(columns, cols, live[a := row], m) <==> Key(columns, cols, row) == Key(columns, cols, live[a])
  {
    var live' := live[a := row];
    assert a in MultiSearch(m, Key(columns, cols, live[a]));
    if Key(columns, cols, row) == Key(columns, cols, live[a]) {
      forall b | b in live' ensures b in MultiSearch(m, Key(columns, cols, live'[b])) {
        assert b in MultiSearch(m, Key(columns, cols, live[b]));
      }
      forall k, b | k in m && b in m[k] ensures b in live' && Key(columns, cols, live'[b]) == k {
        assert b in live && Key(columns, cols, live[b]) == k;
      }
    }
    if MultiAgrees(columns, cols, live', m) {
      assert a in MultiSearch(m, Key(columns, cols, live'[a]));
    }
  }

  // ---- Predicates ----

  /** The record has the given value in each of the given columns. */
  predicate Fits(columns: seq<Column>, cols: seq<nat>, values: seq<seq<Byte>>, row: Row) {
    && LaidOut(columns) && |row| == Width(columns) && Sized(columns, cols, values)
    && forall i | 0 <= i < |cols| :: ColumnOf(columns, row, cols[i]) == values[i]
  }

  lemma FitsByKey(columns: seq<Column>, cols: seq<nat>, values: seq<seq<Byte>>, row: Row)
    requires LaidOut(columns) && |row| == Width(columns) && Sized(columns, cols, values)
    ensures Fits(columns, cols, values, row) <==> Key(columns, cols, row) == Joined(values)
  {
    KeyMatches(columns, row, cols, values);
  }

  lemma FitsByKeys(columns: seq<Column>, cols: seq<nat>, values: seq<seq<Byte>>, live: Rows)
    requires LaidOut(columns) && Sized(columns, cols, values) && forall a | a in live :: |live[a]| == Width(columns)
    ensures forall a | a in live :: Fits(columns, cols, values, live[a]) <==> Key(columns, cols, live[a]) == Joined(values)
  {
    forall a | a in live ensures Fits(columns, cols, values, live[a]) <==> Key(columns, cols, live[a]) == Joined(values) {
      FitsByKey(columns, cols, values, live[a]);
    }
  }

  lemma FiledEverywhere(columns: seq<Column>, cols: seq<nat>, live: Rows, m: UniqueIndex)
    requires UniqueAgrees(columns, cols, live, m)
    ensures forall a | a in live :: Key(columns, cols, live[a]) in m && m[Key(columns, cols, live[a])] == a
  {
    forall a | a in live ensures Key(columns, cols, live[a]) in m && m[Key(columns, cols, live[a])] == a {
      assert FiledAt(columns, cols, live, m, a);
    }
  }

  /** What a scan matches is what the live records match. */
  lemma SameMatches(table: BaseTable<Row>, test: Row -> bool)
    requires table.Valid()
    ensures forall a :: Matches(table.blocks, a, test) <==> a in table.live && test(table.live[a])
  {
  }

  ghost predicate IndexesAgree(
      columns: seq<Column>, primaryCols: seq<nat>, secondaryCols: seq<seq<nat>>, live: Rows, primary: UniqueIndex, secondary: seq<MultiIndex>)
  {
    && (primaryCols != [] ==> UniqueAgrees(columns, primaryCols, live, primary))
    && |secondary| == |secondaryCols|
    && forall j | 0 <= j < |secondary| :: MultiAgrees(columns, secondaryCols[j], live, secondary[j])
  }

  lemma IndexesInsert(
      columns: seq<Column>, primaryCols: seq<nat>, secondaryCols: seq<seq<nat>>, live: Rows, primary: UniqueIndex, secondary: seq<MultiIndex>,
      primary': UniqueIndex, secondary': seq<MultiIndex>, a: Address, row: Row)
    requires IndexesAgree(columns, primaryCols, secondaryCols, live, primary, secondary) && a !in live
    requires primaryCols != [] ==> primary' == UniqueInsert(primary, Key(columns, primaryCols, row), a)
    requires |secondary'| == |secondary|
    requires forall j | 0 <= j < |secondary| :: secondary'[j] == MultiInsert(secondary[j], Key(columns, secondaryCols[j], row), a)
    ensures IndexesAgree(columns, primaryCols, secondaryCols, live[a := row], primary', secondary')
        <==> primaryCols == [] || OnlyWith(columns, primaryCols, live, Key(columns, primaryCols, row), a)
  {
    if primaryCols != [] { UniqueInsertAgrees(columns, primaryCols, live, primary, a, row); }
    forall j | 0 <= j < |secondary| ensures MultiAgrees(columns, secondaryCols[j], live[a := row], secondary'[j]) {
      MultiInsertAgrees(columns, secondaryCols[j], live, secondary[j], a, row);
    }
  }

  lemma IndexesDelete(
      columns: seq<Column>, primaryCols: seq<nat>, secondaryCols: seq<seq<nat>>, live: Rows, primary: UniqueIndex, secondary: seq<MultiIndex>,
      primary': UniqueIndex, secondary': seq<MultiIndex>, a: Address)
    requires IndexesAgree(columns, primaryCols, secondaryCols, live, primary, secondary) && a in live
    requires primaryCols != [] ==> primary' == primary - {Key(columns, primaryCols, live[a])}
    requires |secondary'| == |secondary|
    requires forall j | 0 <= j < |secondary| :: secondary'[j] == secondary[j] - {Key(columns, secondaryCols[j], live[a])}
    ensures IndexesAgree(columns, primaryCols, secondaryCols, live - {a}, primary', secondary')
        <==> forall j | 0 <= j < |secondaryCols| :: Alone(columns, secondaryCols[j], live, a)
  {
    if primaryCols != [] { UniqueDeleteAgrees(columns, primaryCols, live, primary, a); }
    forall j | 0 <= j < |secondary|
      ensures MultiAgrees(columns, secondaryCols[j], live - {a}, secondary'[j]) <==> Alone(columns, secondaryCols[j], live, a)
    {
      MultiDeleteAgrees(columns, secondaryCols[j], live, secondary[j], a);
    }
  }

  lemma IndexesUpdate(
      columns: seq<Column>, primaryCols: seq<nat>, secondaryCols: seq<seq<nat>>, live: Rows, primary: UniqueIndex, secondary: seq<MultiIndex>,
      a: Address, row: Row)
    requires IndexesAgree(columns, primaryCols, secondaryCols, live, primary, secondary) && a in live
    ensures IndexesAgree(columns, primaryCols, secondaryCols, live[a := row], primary, secondary)
        <==> SameKeys(columns, primaryCols, secondaryCols, live[a], row)
  {
    if primaryCols != [] { UniqueUpdateAgrees(columns, primaryCols, live, primary, a, row); }
    forall j | 0 <= j < |secondaryCols|
      ensures MultiAgrees(columns, secondaryCols[j], live[a := row], secondary[j])
          <==> Key(columns, secondaryCols[j], row) == Key(columns, secondaryCols[j], live[a])
    {
      MultiUpdateAgrees(columns, secondaryCols[j], live, secondary[j], a, row);
    }
  }

  /** What a select for one record may answer. */
  ghost predicate Answers(columns: seq<Column>, cols: seq<nat>, values: seq<seq<Byte>>, live: Rows, found: Option<Address>) {
    && (found.None? <==> forall a | a in live :: !Fits(columns, cols, values, live[a]))
    && (found.Some? ==> found.value in live && Fits(columns, cols, values, live[found.value]))
  }

  lemma UniqueAnswers(columns: seq<Column>, cols: seq<nat>, values: seq<seq<Byte>>, live: Rows, m: UniqueIndex)
    requires LaidOut(columns) && Sized(columns, cols, values) && forall a | a in live :: |live[a]| == Width(columns)
    requires UniqueAgrees(columns, cols, live, m)
    ensures Answers(columns, cols, values, live, if Joined(values) in m then Some(m[Joined(values)]) else None)
    ensures forall a, b | a in live && b in live && Fits(columns, cols, values, live[a]) && Fits(columns, cols, values, live[b]) :: a == b
  {
    FitsByKeys(columns, cols, values, live);
    FiledEverywhere(columns, cols, live, m);
  }

  lemma MultiAnswers(columns: seq<Column>, cols: seq<nat>, values: seq<seq<Byte>>, live: Rows, m: MultiIndex)
    requires LaidOut(columns) && Sized(columns, cols, values) && forall a | a in live :: |live[a]| == Width(columns)
    requires MultiAgrees(columns, cols, live, m)
    ensures
      var entries := MultiSearch(m, Joined(values));
      Answers(columns, cols, values, live, if entries != [] then Some(entries[0]) else None)
  {
    FitsByKeys(columns, cols, values, live);
    var entries := MultiSearch(m, Joined(values));
    if entries != [] { assert entries[0] in entries; }
    forall a | a in live && Fits(columns, cols, values, live[a]) ensures a in entries {
      assert a in MultiSearch(m, Key(columns, cols, live[a]));
    }
  }

  /** What a select for all records must answer: every match, once. */
  ghost predicate AnswersAll(columns: seq<Column>, cols: seq<nat>, values: seq<seq<Byte>>, live: Rows, found: seq<Address>) {
    (forall a :: a in found <==> a in live && Fits(columns, cols, values, live[a])) && NoDuplicates(found)
  }

  lemma MultiAnswersAll(columns: seq<Column>, cols: seq<nat>, values: seq<seq<Byte>>, live: Rows, m: MultiIndex)
    requires LaidOut(columns) && Sized(columns, cols, values) && forall a | a in live :: |live[a]| == Width(columns)
    requires MultiAgrees(columns, cols, live, m)
    ensures AnswersAll(columns, cols, values, live, MultiSearch(m, Joined(values)))
  {
    FitsByKeys(columns, cols, values, live);
    forall a | a in live ensures a in MultiSearch(m, Key(columns, cols, live[a])) {}
  }

  /** No other live record has the key of this one. */
  ghost predicate Alone(columns: seq<Column>, cols: seq<nat>, live: Rows, a: Address)
    requires a in live
  {
    OnlyWith(columns, cols, live, Key(columns, cols, live[a]), a)
  }

  predicate SameKeys(columns: seq<Column>, primaryCols: seq<nat>, secondaryCols: seq<seq<nat>>, row: Row, row': Row) {
    && (primaryCols != [] ==> Key(columns, primaryCols, row') == Key(columns, primaryCols, row))
    && forall j | 0 <= j < |secondaryCols| :: Key(columns, secondaryCols[j], row') == Key(columns, secondaryCols[j], row)
  }

  /** What column j holds after the first n writes of an update. */
  function LastValue(ids: seq<nat>, values: seq<seq<Byte>>, n: nat, j: nat, before: seq<Byte>): seq<Byte>
    requires n <= |ids| == |values|
  {
    if n == 0 then before else if ids[n - 1] == j then values[n - 1] else LastValue(ids, values, n - 1, j, before)
  }

  /** Every column of row' holds its value after the first n writes to row. */
  ghost predicate Patched(columns: seq<Column>, row: Row, row': Row, ids: seq<nat>, values: seq<seq<Byte>>, n: nat) {
    && LaidOut(columns) && |row| == |row'| == Width(columns) && n <= |ids| == |values|
    && forall j: nat | j < |columns| :: ColumnOf(columns, row', j) == LastValue(ids, values, n, j, ColumnOf(columns, row, j))
  }

  /** No record but the one at a has changed. */
  predicate OnlyRow(live: Rows, live': Rows, a: Address) {
    a in live && a in live' && live' == live[a := live'[a]]
  }

  lemma OneRow(live: Rows, mid: Rows, live': Rows, a: Address)
    requires OnlyRow(live, mid, a) && OnlyRow(mid, live', a)
    ensures OnlyRow(live, live', a)
  {
  }

  lemma NotYetPatched(columns: seq<Column>, row: Row, ids: seq<nat>, values: seq<seq<Byte>>)
    requires LaidOut(columns) && |row| == Width(columns) && |ids| == |values|
    ensures Patched(columns, row, row, ids, values, 0)
  {
  }

  lemma PatchedNext(columns: seq<Column>, row: Row, mid: Row, row': Row, ids: seq<nat>, values: seq<seq<Byte>>, n: nat)
    requires Patched(columns, row, mid, ids, values, n) && n < |ids| && Sized(columns, ids, values)
    requires Copied(columns, mid, row', ids[n], values[n])
    ensures Patched(columns, row, row', ids, values, n + 1)
  {
    OneColumnWritten(columns, mid, row', ids[n], values[n]);
  }

  class SchemaTable {
    const columns: seq<Column>
    const primaryCols: seq<nat>
    const secondaryCols: seq<seq<nat>>
    const table: BaseTable<Row>
    var primary: UniqueIndex
    var secondary: seq<MultiIndex>

    ghost predicate Valid()
      reads this, table
    {
      && table.Valid() && LaidOut(columns) && |secondary| == |secondaryCols|
      && InSchema(columns, primaryCols) && (forall j | 0 <= j < |secondaryCols| :: InSchema(columns, secondaryCols[j]))
      && forall a | a in table.live :: |table.live[a]| == Width(columns)
    }

    /** Every index files exactly the live records. */
    ghost predicate Agrees()
      reads this, table
    {
      IndexesAgree(columns, primaryCols, secondaryCols, table.live, primary, secondary)
    }

    /** An empty table whose primary index is over the columns declared primary. */
    constructor (columns: seq<Column>, secondaryCols: seq<seq<nat>>, perBlock: nat)
      requires LaidOut(columns) && perBlock > 0
      requires forall j | 0 <= j < |secondaryCols| :: InSchema(columns, secondaryCols[j])
      ensures Valid() && Agrees() && table.live == map[] && fresh(table)
      ensures this.columns == columns && primaryCols == Primaries(columns) && this.secondaryCols == secondaryCols
    {
      this.columns, this.primaryCols, this.secondaryCols := columns, Primaries(columns), secondaryCols;
      table := new BaseTable(perBlock, seq(Width(columns), _ => 0));
      primary := map[];
      secondary := seq(|secondaryCols|, _ => map[]);
    }

    /** The indexes stay in agreement exactly if no live record has the new primary key. */
    method InsertRecord(row: Row) returns (address: Address)
      requires Valid() && Agrees() && |row| == Width(columns)
      modifies this, table
      ensures Valid() && address !in old(table.live) && table.live == old(table.live)[address := row]
      ensures Agrees() <==> primaryCols == [] || OnlyWith(columns, primaryCols, old(table.live), Key(columns, primaryCols, row), address)
    {
      ghost var live := table.live;
      address := table.InsertRecord(row);
      FilePrimary(row, address);
      FileSecondary(row, address);
      IndexesInsert(columns, primaryCols, secondaryCols, live, old(primary), old(secondary), primary, secondary, address, row);
    }

    method FilePrimary(row: Row, address: Address)
      modifies this`primary
      ensures primary == if primaryCols != [] then UniqueInsert(old(primary), Key(columns, primaryCols, row), address) else old(primary)
    {
      if primaryCols != [] {
        primary := UniqueInsert(primary, Key(columns, primaryCols, row), address);
      }
    }

    method FileSecondary(row: Row, address: Address)
      requires |secondary| == |secondaryCols|
      modifies this`secondary
      ensures |secondary| == |secondaryCols|
      ensures forall j | 0 <= j < |secondary| :: secondary[j] == MultiInsert(old(secondary)[j], Key(columns, secondaryCols[j], row), address)
    {
      var j := 0;
      while j < |secondaryCols|
        invariant 0 <= j <= |secondaryCols| == |secondary|
        invariant forall i | 0 <= i < |secondary| ::
          secondary[i] == if i < j then MultiInsert(old(secondary)[i], Key(columns, secondaryCols[i], row), address) else old(secondary)[i]
      {
        secondary := secondary[j := MultiInsert(secondary[j], Key(columns, secondaryCols[j], row), address)];
        j := j + 1;
      }
    }

    /** The indexes stay in agreement exactly if no other live record shares a secondary key. */
    method DeleteRecord(address: Address)
      requires Valid() && Agrees() && address in table.live
      modifies this, table
      ensures Valid() && table.live == old(table.live) - {address}
      ensures Agrees() <==> forall j | 0 <= j < |secondaryCols| :: Alone(columns, secondaryCols[j], old(table.live), address)
    {
      ghost var live := table.live;
      var row := At(table.blocks, address).data;
      table.DeleteRecord(address);
      ErasePrimary(row);
      EraseSecondary(row);
      IndexesDelete(columns, primaryCols, secondaryCols, live, old(primary), old(secondary), primary, secondary, address);
    }

    method ErasePrimary(row: Row)
      modifies this`primary
      ensures primary == if primaryCols != [] then old(primary) - {Key(columns, primaryCols, row)} else old(primary)
    {
      if primaryCols != [] {
        primary := primary - {Key(columns, primaryCols, row)};
      }
    }

    method EraseSecondary(row: Row)
      requires |secondary| == |secondaryCols|
      modifies this`secondary
      ensures |secondary| == |secondaryCols|
      ensures forall j | 0 <= j < |secondary| :: secondary[j] == old(secondary)[j] - {Key(columns, secondaryCols[j], row)}
    {
      var j := 0;
      while j < |secondaryCols|
        invariant 0 <= j <= |secondaryCols| == |secondary|
        invariant forall i | 0 <= i < |secondary| ::
          secondary[i] == if i < j then old(secondary)[i] - {Key(columns, secondaryCols[i], row)} else old(secondary)[i]
      {
        secondary := secondary[j := secondary[j] - {Key(columns, secondaryCols[j], row)}];
        j := j + 1;
      }
    }

    /** Writes one column of a live record in place and touches no index. */
    method WriteColumn(address: Address, id: nat, value: seq<Byte>)
      requires Valid() && address in table.live && id < |columns| && |value| == columns[id].size
      modifies table
      ensures Valid() && OnlyRow(old(table.live), table.live, address)
      ensures Copied(columns, old(table.live)[address], table.live[address], id, value)
    {
      EndsWithin(columns, id);
      var row := At(table.blocks, address).data;
      var offset := columns[id].offset;
      table.OverwriteRecord(address, row[..offset] + value + row[offset + |value|..]);
    }

    /** An update of one column.  The indexes stay in agreement exactly if every index key of
        the record is as before. */
    method UpdateRecord(address: Address, id: nat, value: seq<Byte>)
      requires Valid() && Agrees() && address in table.live && id < |columns| && |value| == columns[id].size
      modifies table
      ensures Valid() && OnlyRow(old(table.live), table.live, address)
      ensures Copied(columns, old(table.live)[address], table.live[address], id, value)
      ensures Agrees() <==> SameKeys(columns, primaryCols, secondaryCols, old(table.live)[address], table.live[address])
    {
      WriteColumn(address, id, value);
      IndexesUpdate(columns, primaryCols, secondaryCols, old(table.live), primary, secondary, address, table.live[address]);
    }

    /** The write of column ids[n]. */
    method WriteNext(address: Address, ids: seq<nat>, values: seq<seq<Byte>>, n: nat, ghost row: Row)
      requires Valid() && address in table.live && Sized(columns, ids, values) && n < |ids|
      requires Patched(columns, row, table.live[address], ids, values, n)
      modifies table
      ensures Valid() && OnlyRow(old(table.live), table.live, address)
      ensures Patched(columns, row, table.live[address], ids, values, n + 1)
    {
      WriteColumn(address, ids[n], values[n]);
      PatchedNext(columns, row, old(table.live)[address], table.live[address], ids, values, n);
    }

    method WriteColumns(address: Address, ids: seq<nat>, values: seq<seq<Byte>>)
      requires Valid() && address in table.live && Sized(columns, ids, values)
      modifies table
      ensures Valid() && OnlyRow(old(table.live), table.live, address)
      ensures Patched(columns, old(table.live)[address], table.live[address], ids, values, |ids|)
    {
      ghost var live, row := table.live, table.live[address];
      var i := 0;
      NotYetPatched(columns, row, ids, values);
      while i < |ids|
        invariant i <= |ids| && Valid() && OnlyRow(live, table.live, address)
        invariant Patched(columns, row, table.live[address], ids, values, i)
      {
        ghost var mid := table.live;
        WriteNext(address, ids, values, i, row);
        OneRow(live, mid, table.live, address);
        i := i + 1;
      }
    }

    /** An update of several columns, one after the other: a column that is named twice keeps
        its last value.  The indexes stay in agreement under the same condition. */
    method UpdateColumns(address: Address, ids: seq<nat>, values: seq<seq<Byte>>)
      requires Valid() && Agrees() && address in table.live && Sized(columns, ids, values)
      modifies table
      ensures Valid() && OnlyRow(old(table.live), table.live, address)
      ensures Patched(columns, old(table.live)[address], table.live[address], ids, values, |ids|)
      ensures Agrees() <==> SameKeys(columns, primaryCols, secondaryCols, old(table.live)[address], table.live[address])
    {
      WriteColumns(address, ids, values);
      IndexesUpdate(columns, primaryCols, secondaryCols, old(table.live), primary, secondary, address, table.live[address]);
    }

    /** The position of an index over these columns, or the number of indexes. */
    function IndexOn(cols: seq<nat>, j: nat): (i: nat)
      requires j <= |secondaryCols|
      ensures i <= |secondaryCols| && (i < |secondaryCols| ==> secondaryCols[i] == cols)
      decreases |secondaryCols| - j
    {
      if j == |secondaryCols| || secondaryCols[j] == cols then j else IndexOn(cols, j + 1)
    }

    /** Without an index the select scans, and a scan starts at the first block. */
    predicate CanSelect(cols: seq<nat>)
      reads table
    {
      IndexOn(cols, 0) < |secondaryCols| || table.blocks != []
    }

    /** One record with the given values, by the primary index, a secondary index or a scan:
        the same answer, up to the choice among several matches. */
    method SelectRecord(cols: seq<nat>, values: seq<seq<Byte>>) returns (found: Option<Address>)
      requires Valid() && Agrees() && Sized(columns, cols, values) && cols != [] && (cols == primaryCols || CanSelect(cols))
      ensures Answers(columns, cols, values, table.live, found)
      ensures cols == primaryCols ==> forall a, b | a in table.live && b in table.live
        && Fits(columns, cols, values, table.live[a]) && Fits(columns, cols, values, table.live[b]) :: a == b
    {
      var key := Joined(values);
      if cols == primaryCols {
        UniqueAnswers(columns, cols, values, table.live, primary);
        return if key in primary then Some(primary[key]) else None;
      }
      var j := IndexOn(cols, 0);
      if j < |secondaryCols| {
        MultiAnswers(columns, cols, values, table.live, secondary[j]);
        var entries := MultiSearch(secondary[j], key);
        return if entries != [] then Some(entries[0]) else None;
      }
      found := SelectByScan(cols, values);
    }

    method SelectByScan(cols: seq<nat>, values: seq<seq<Byte>>) returns (found: Option<Address>)
      requires Valid() && Sized(columns, cols, values) && table.blocks != []
      ensures Answers(columns, cols, values, table.live, found)
    {
      var test := (row: Row) => Fits(columns, cols, values, row);
      SameMatches(table, test);
      found := ScanFirst(table.blocks, test);
    }

    /** All records with the given values, by a secondary index or a scan: the same bag. */
    method SelectRecords(cols: seq<nat>, values: seq<seq<Byte>>) returns (found: seq<Address>)
      requires Valid() && Agrees() && Sized(columns, cols, values) && CanSelect(cols)
      ensures AnswersAll(columns, cols, values, table.live, found)
    {
      var j := IndexOn(cols, 0);
      if j < |secondaryCols| {
        MultiAnswersAll(columns, cols, values, table.live, secondary[j]);
        return MultiSearch(secondary[j], Joined(values));
      }
      found := SelectAllByScan(cols, values);
    }

    method SelectAllByScan(cols: seq<nat>, values: seq<seq<Byte>>) returns (found: seq<Address>)
      requires Valid() && Sized(columns, cols, values) && table.blocks != []
      ensures AnswersAll(columns, cols, values, table.live, found)
    {
      var test := (row: Row) => Fits(columns, cols, values, row);
      SameMatches(table, test);
      ScanListed(table.blocks, test);
      found := Scan(table.blocks, test);
    }
  }
}
