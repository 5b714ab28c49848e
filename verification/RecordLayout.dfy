/** Record layout: column offsets, writing and reading columns in place, and key strings. */
module RecordLayout {

  type Byte = bv8

  datatype Column = Column(size: nat, offset: nat, isPrimary: bool)

  function Width(columns: seq<Column>): nat {
    if columns == [] then 0 else Width(columns[..|columns| - 1]) + columns[|columns| - 1].size
  }

  /** Each column starts where the one before it ends. */
  predicate LaidOut(columns: seq<Column>) {
    columns == [] || (LaidOut(columns[..|columns| - 1]) && columns[|columns| - 1].offset == Width(columns[..|columns| - 1]))
  }

  predicate Covers(c: Column, pos: nat) { c.offset <= pos < c.offset + c.size }

  lemma {:induction false} WidthMonotone(columns: seq<Column>, i: nat, j: nat)
    requires LaidOut(columns) && i < j < |columns|
    ensures columns[i].offset + columns[i].size <= columns[j].offset
    decreases |columns|
  {
    var front := columns[..|columns| - 1];
    if j < |columns| - 1 {
      WidthMonotone(front, i, j);
    } else {
      EndsWithin(front, i);
    }
  }

  lemma {:induction false} EndsWithin(columns: seq<Column>, i: nat)
    requires LaidOut(columns) && i < |columns|
    ensures columns[i].offset + columns[i].size <= Width(columns)
  {
    if i < |columns| - 1 { EndsWithin(columns[..|columns| - 1], i); }
  }

  /** THE COLUMNS TILE THE RECORD: every byte lies in exactly one column. */
  lemma {:induction false} Tiles(columns: seq<Column>, pos: nat) returns (i: nat)
    requires LaidOut(columns) && pos < Width(columns)
    ensures i < |columns| && Covers(columns[i], pos)
    ensures forall j | 0 <= j < |columns| && Covers(columns[j], pos) :: j == i
  {
    var front, last := columns[..|columns| - 1], |columns| - 1;
    if pos < Width(front) {
      i := Tiles(front, pos);
      forall j | 0 <= j < |columns| && Covers(columns[j], pos) ensures j == i {
        if j < last { assert front[j] == columns[j]; }
      }
    } else {
      i := last;
      forall j | 0 <= j < |columns| && Covers(columns[j], pos) ensures j == i {
        if j < last { WidthMonotone(columns, j, last); }
      }
    }
  }

  class Schema {
    var columns: seq<Column>
    var columnCount: nat
    var columnOffset: nat
    var primaryKeyLength: nat
    var primaryCols: seq<nat>
    var primaryColSizes: seq<nat>

    ghost predicate Valid()
      reads this
    {
      && columnCount == |columns| && LaidOut(columns) && columnOffset == Width(columns)
      && primaryCols == Primaries(columns) && |primaryColSizes| == |primaryCols| <= 5
      && (forall i | 0 <= i < |primaryCols| :: primaryCols[i] < |columns| && primaryColSizes[i] == columns[primaryCols[i]].size)
      && primaryKeyLength == KeyWidth(columns, primaryCols)
    }

    constructor ()
      ensures Valid() && columns == []
    {
      columns, columnCount, columnOffset := [], 0, 0;
      primaryKeyLength, primaryCols, primaryColSizes := 0, [], [];
    }

    /** Appends a column at the end of the record. */
    method InsertColumn(size: nat, isPrimary: bool)
      requires Valid() && (isPrimary ==> |primaryCols| < 5)
      modifies this
      ensures Valid() && columns == old(columns) + [Column(size, Width(old(columns)), isPrimary)]
      ensures primaryCols == old(primaryCols) + if isPrimary then [|old(columns)|] else []
      ensures primaryColSizes == old(primaryColSizes) + if isPrimary then [size] else []
      ensures primaryKeyLength == old(primaryKeyLength) + if isPrimary then size else 0
    {
      ghost var before := columns;
      columns := columns + [Column(size, columnOffset, isPrimary)];
      assert columns[..|columns| - 1] == before;
      KeyWidthFrame(before, columns, primaryCols);
      if isPrimary {
        primaryKeyLength := primaryKeyLength + size;
        primaryCols := primaryCols + [columnCount];
        primaryColSizes := primaryColSizes + [size];
        assert primaryCols[..|primaryCols| - 1] == Primaries(before);
      }
      columnCount := columnCount + 1;
      columnOffset := columnOffset + size;
    }

    method GetKeyLength(indexCols: seq<nat>) returns (sum: nat)
      requires Valid() && InSchema(columns, indexCols)
      ensures sum == KeyWidth(columns, indexCols)
    {
      sum := 0;
      var i := 0;
      while i < |indexCols|
        invariant 0 <= i <= |indexCols| && sum == KeyWidth(columns, indexCols[..i])
      {
        sum := sum + columns[indexCols[i]].size;
        assert indexCols[..i + 1][..i] == indexCols[..i];
        i := i + 1;
      }
      assert indexCols[..i] == indexCols;
    }
  }

  predicate InSchema(columns: seq<Column>, cols: seq<nat>) { forall i | 0 <= i < |cols| :: cols[i] < |columns| }

  function Primaries(columns: seq<Column>): (cols: seq<nat>)
    ensures InSchema(columns, cols)
  {
    if columns == [] then []
    else Primaries(columns[..|columns| - 1]) + if columns[|columns| - 1].isPrimary then [|columns| - 1] else []
  }

  /** THE PRIMARY KEY is exactly the columns that were declared primary, in their order. */
  lemma {:induction false} PrimariesListed(columns: seq<Column>)
    ensures forall j: nat :: j in Primaries(columns) <==> j < |columns| && columns[j].isPrimary
    ensures forall i, j | 0 <= i < j < |Primaries(columns)| :: Primaries(columns)[i] < Primaries(columns)[j]
  {
    if columns != [] { PrimariesListed(columns[..|columns| - 1]); }
  }

  function KeyWidth(columns: seq<Column>, cols: seq<nat>): nat
    requires InSchema(columns, cols)
  {
    if cols == [] then 0 else KeyWidth(columns, cols[..|cols| - 1]) + columns[cols[|cols| - 1]].size
  }

  lemma {:induction false} KeyWidthFrame(columns: seq<Column>, more: seq<Column>, cols: seq<nat>)
    requires InSchema(columns, cols) && columns <= more
    ensures KeyWidth(more, cols) == KeyWidth(columns, cols)
  {
    if cols != [] { KeyWidthFrame(columns, more, cols[..|cols| - 1]); }
  }

  // ---- Records ----

  /** The bytes of one column. */
  function ColumnOf(columns: seq<Column>, bytes: seq<Byte>, id: nat): (value: seq<Byte>)
    requires LaidOut(columns) && id < |columns| && |bytes| == Width(columns)
    ensures |value| == columns[id].size
  {
    EndsWithin(columns, id);
    bytes[columns[id].offset..columns[id].offset + columns[id].size]
  }

  /** The concatenated bytes of some columns: the string under which indexes file a record. */
  function KeyOf(columns: seq<Column>, bytes: seq<Byte>, cols: seq<nat>): (key: seq<Byte>)
    requires LaidOut(columns) && InSchema(columns, cols) && |bytes| == Width(columns)
    ensures |key| == KeyWidth(columns, cols)
  {
    if cols == [] then [] else KeyOf(columns, bytes, cols[..|cols| - 1]) + ColumnOf(columns, bytes, cols[|cols| - 1])
  }

  class Record {
    const schema: Schema
    const data: array<Byte>

    ghost predicate Valid()
      reads this, schema, data
    {
      schema.Valid() && data.Length == Width(schema.columns)
    }

    constructor (schema: Schema, data: array<Byte>)
      requires schema.Valid() && data.Length == Width(schema.columns)
      ensures Valid() && this.schema == schema && this.data == data
    {
      this.schema, this.data := schema, data;
    }

    /** Copies a value into a column.  A VARCHAR may be shorter than its column; then the rest
        of the column stays as it was. */
    method SetColumn(id: nat, value: seq<Byte>)
      requires Valid() && id < |schema.columns| && |value| <= schema.columns[id].size
      modifies data
      ensures Valid()
      ensures ColumnOf(schema.columns, data[..], id) == value + old(ColumnOf(schema.columns, data[..], id))[|value|..]
      ensures forall j | 0 <= j < |schema.columns| && j != id ::
        ColumnOf(schema.columns, data[..], j) == old(ColumnOf(schema.columns, data[..], j))
    {
      var offset := schema.columns[id].offset;
      EndsWithin(schema.columns, id);
      ghost var before := data[..];
      var i := 0;
      while i < |value|
        invariant 0 <= i <= |value|
        invariant data[..] == before[..offset] + value[..i] + before[offset + i..]
      {
        data[offset + i] := value[i];
        i := i + 1;
      }
      OneColumnWritten(schema.columns, before, data[..], id, value);
    }

    method GetColumn(id: nat) returns (value: seq<Byte>)
      requires Valid() && id < |schema.columns|
      ensures value == ColumnOf(schema.columns, data[..], id)
    {
      EndsWithin(schema.columns, id);
      value := data[schema.columns[id].offset..schema.columns[id].offset + schema.columns[id].size];
    }

    method GetKeySymbol(indexCols: seq<nat>) returns (key: seq<Byte>)
      requires Valid() && InSchema(schema.columns, indexCols)
      ensures key == KeyOf(schema.columns, data[..], indexCols)
    {
      key := [];
      var i := 0;
      while i < |indexCols|
        invariant 0 <= i <= |indexCols| && key == KeyOf(schema.columns, data[..], indexCols[..i])
      {
        var value := GetColumn(indexCols[i]);
        key := key + value;
        assert indexCols[..i + 1][..i] == indexCols[..i];
        i := i + 1;
      }
      assert indexCols[..i] == indexCols;
    }
  }

  /** A patch changes no range that lies before or behind it. */
  lemma PatchElsewhere<T>(before: seq<T>, at: nat, value: seq<T>, lo: nat, hi: nat)
    requires at + |value| <= |before| && lo <= hi <= |before| && (hi <= at || lo >= at + |value|)
    ensures (before[..at] + value + before[at + |value|..])[lo..hi] == before[lo..hi]
  {
  }

  lemma PatchHere<T>(before: seq<T>, at: nat, value: seq<T>, size: nat)
    requires |value| <= size && at + size <= |before|
    ensures (before[..at] + value + before[at + |value|..])[at..at + size] == value + before[at..at + size][|value|..]
  {
  }

  /** `after` is `before` with a value copied into one column. */
  predicate Copied(columns: seq<Column>, before: seq<Byte>, after: seq<Byte>, id: nat, value: seq<Byte>) {
    && LaidOut(columns) && id < |columns| && |value| <= columns[id].size && |before| == |after| == Width(columns)
    && columns[id].offset + columns[id].size <= |before|
    && after == before[..columns[id].offset] + value + before[columns[id].offset + |value|..]
  }

  lemma ThisColumn(columns: seq<Column>, before: seq<Byte>, after: seq<Byte>, id: nat, value: seq<Byte>)
    requires Copied(columns, before, after, id, value)
    ensures ColumnOf(columns, after, id) == value + ColumnOf(columns, before, id)[|value|..]
  {
    PatchHere(before, columns[id].offset, value, columns[id].size);
  }

  lemma OneColumnWritten(columns: seq<Column>, before: seq<Byte>, after: seq<Byte>, id: nat, value: seq<Byte>)
    requires Copied(columns, before, after, id, value)
    ensures ColumnOf(columns, after, id) == value + ColumnOf(columns, before, id)[|value|..]
    ensures forall j | 0 <= j < |columns| && j != id :: ColumnOf(columns, after, j) == ColumnOf(columns, before, j)
  {
    ThisColumn(columns, before, after, id, value);
    forall j | 0 <= j < |columns| && j != id ensures ColumnOf(columns, after, j) == ColumnOf(columns, before, j) {
      OtherColumn(columns, before, after, id, value, j);
    }
  }

  lemma OtherColumn(columns: seq<Column>, before: seq<Byte>, after: seq<Byte>, id: nat, value: seq<Byte>, j: nat)
    requires Copied(columns, before, after, id, value) && j < |columns| && j != id
    ensures ColumnOf(columns, after, j) == ColumnOf(columns, before, j)
  {
    EndsWithin(columns, j);
    if j < id { WidthMonotone(columns, j, id); } else { WidthMonotone(columns, id, j); }
    PatchElsewhere(before, columns[id].offset, value, columns[j].offset, columns[j].offset + columns[j].size);
  }

  /** The string that a select builds from its column values. */
  function Joined(values: seq<seq<Byte>>): seq<Byte> {
    if values == [] then [] else Joined(values[..|values| - 1]) + values[|values| - 1]
  }

  /** The values have the sizes of their columns. */
  predicate Sized(columns: seq<Column>, cols: seq<nat>, values: seq<seq<Byte>>) {
    |values| == |cols| && InSchema(columns, cols) && forall i | 0 <= i < |cols| :: |values[i]| == columns[cols[i]].size
  }

  lemma SameSplit<T>(a: seq<T>, b: seq<T>, a': seq<T>, b': seq<T>)
    requires |a| == |a'| && a + b == a' + b'
    ensures a == a' && b == b'
  {
    assert a == (a + b)[..|a|] && a' == (a' + b')[..|a'|];
    assert b == (a + b)[|a|..] && b' == (a' + b')[|a'|..];
  }

  lemma {:induction false} JoinedWidth(columns: seq<Column>, cols: seq<nat>, values: seq<seq<Byte>>)
    requires Sized(columns, cols, values)
    ensures |Joined(values)| == KeyWidth(columns, cols)
  {
    if cols != [] { JoinedWidth(columns, cols[..|cols| - 1], values[..|values| - 1]); }
  }

  /** KEYS ARE FAITHFUL.  The key string of a record equals the string of a predicate exactly
      when the record matches the predicate column by column. */
  lemma {:induction false} KeyMatches(columns: seq<Column>, bytes: seq<Byte>, cols: seq<nat>, values: seq<seq<Byte>>)
    requires LaidOut(columns) && |bytes| == Width(columns) && Sized(columns, cols, values)
    ensures KeyOf(columns, bytes, cols) == Joined(values)
        <==> forall i | 0 <= i < |cols| :: ColumnOf(columns, bytes, cols[i]) == values[i]
  {
    if cols != [] {
      var n := |cols| - 1;
      var front, vfront := cols[..n], values[..n];
      KeyMatches(columns, bytes, front, vfront);
      JoinedWidth(columns, front, vfront);
      if KeyOf(columns, bytes, cols) == Joined(values) {
        SameSplit(KeyOf(columns, bytes, front), ColumnOf(columns, bytes, cols[n]), Joined(vfront), values[n]);
        forall i | 0 <= i < |cols| ensures ColumnOf(columns, bytes, cols[i]) == values[i] {
          if i < n { assert ColumnOf(columns, bytes, front[i]) == vfront[i]; }
        }
      }
    }
  }
}
