/** An abstract DataFrame: the few pandas primitives the core relies on
    (construction from records, column conversion, `set_index`, and an
    outer merge on the index), each with the behaviour the core depends on. */
module Frames {
  import opened Wrappers
  import opened Errors

  type Name = string

  /** A cell value as the upstream JSON and pandas carry it. */
  datatype Value = Null | Int(i: int) | Real(x: real) | Text(s: string) | Stamp(seconds: int)

  /** One labelled column: its name and its value at each row key. */
  datatype Column = Column(name: Name, cells: map<Value, Value>)

  /** A DataFrame: the name of its index (None for the default positional
      index), the set of its row keys, and its columns in order. */
  datatype Table = Table(index: Option<Name>, keys: set<Value>, columns: seq<Column>)

  predicate Distinct<T(==)>(s: seq<T>) {
    forall i, j | 0 <= i < j < |s| :: s[i] != s[j]
  }

  function Names(cols: seq<Column>): seq<Name> {
    seq(|cols|, i requires 0 <= i < |cols| => cols[i].name)
  }

  /** Column labels are distinct and every column has a cell for every row. */
  predicate Valid(t: Table) {
    && Distinct(Names(t.columns))
    && forall i | 0 <= i < |t.columns| :: t.columns[i].cells.Keys == t.keys
  }

  /** The cell of `c` at key `k`, or a missing value (NaN) when `c` has no such row. */
  function Get(c: Column, k: Value): Value {
    if k in c.cells then c.cells[k] else Null
  }

  function Drop<T>(s: seq<T>, i: nat): seq<T>
    requires i < |s|
  {
    s[..i] + s[i + 1..]
  }

  lemma NamesAppend(a: seq<Column>, b: seq<Column>)
    ensures Names(a + b) == Names(a) + Names(b)
  {
  }

  lemma NamesDrop(cols: seq<Column>, i: nat)
    requires i < |cols|
    ensures Names(Drop(cols, i)) == Drop(Names(cols), i)
  {
  }

  /** Removing the element at `i` from a sequence without duplicates
      leaves one without duplicates and without that element. */
  lemma DropDistinct<T>(s: seq<T>, i: nat)
    requires Distinct(s) && i < |s|
    ensures Distinct(Drop(s, i)) && s[i] !in Drop(s, i)
  {
    var d := Drop(s, i);
    forall j | 0 <= j < |d| ensures d[j] == s[if j < i then j else j + 1] && d[j] != s[i] {
    }
    forall a, b | 0 <= a < b < |d| ensures d[a] != d[b] {
      assert d[a] == s[if a < i then a else a + 1];
      assert d[b] == s[if b < i then b else b + 1];
    }
  }

  /** `s` with every occurrence of `x` left out, the rest in order. */
  function Without(s: seq<Name>, x: Name): (r: seq<Name>)
    ensures x !in r
    ensures forall n | n in r :: n in s
  {
    if s == [] then []
    else if s[0] == x then Without(s[1..], x)
    else [s[0]] + Without(s[1..], x)
  }

  lemma {:induction false} WithoutAbsent(s: seq<Name>, x: Name)
    requires x !in s
    ensures Without(s, x) == s
  {
    if s != [] {
      WithoutAbsent(s[1..], x);
      assert s == [s[0]] + s[1..];
    }
  }

  /** In a sequence without duplicates, removing the element at `i` is
      the same as leaving out its value. */
  lemma {:induction false} DropWithout(s: seq<Name>, i: nat)
    requires Distinct(s) && i < |s|
    ensures Drop(s, i) == Without(s, s[i])
  {
    assert s[1..][..] == s[1..];
    if i == 0 {
      assert s[0] !in s[1..] by {
        forall j | 0 <= j < |s[1..]| ensures s[1..][j] != s[0] {
          assert s[1..][j] == s[j + 1];
        }
      }
      WithoutAbsent(s[1..], s[0]);
      assert Drop(s, 0) == s[1..];
    } else {
      var t := s[1..];
      assert Distinct(t) by {
        forall a, b | 0 <= a < b < |t| ensures t[a] != t[b] {
          assert t[a] == s[a + 1] && t[b] == s[b + 1];
        }
      }
      assert t[i - 1] == s[i] && s[0] != s[i];
      DropWithout(t, i - 1);
      assert Drop(s, i) == [s[0]] + Drop(t, i - 1);
    }
  }

  /** The position of the first occurrence of `name` in `names`. */
  function IndexOf(names: seq<Name>, name: Name): (i: nat)
    requires name in names
    ensures i < |names| && names[i] == name && name !in names[..i]
  {
    if names[0] == name then 0
    else
      assert name in names[1..];
      1 + IndexOf(names[1..], name)
  }

  // ---------------------------------------------------------------------
  // Construction from records (`pd.DataFrame(list_of_dicts)`)
  // ---------------------------------------------------------------------

  type Fields = s: seq<Name> | Distinct(s) witness []

  /** The JSON list of records: the field names in order of first
      appearance, and one dictionary per record. */
  datatype Records = Records(fields: Fields, rows: seq<map<Name, Value>>)

  /** The fields are exactly the keys that occur in the records, as
      pandas derives them; their order of first appearance is not
      visible in the model, where a record is an unordered map. */
  predicate RecordsFit(r: Records) {
    && (forall i, f | 0 <= i < |r.rows| && f in r.rows[i] :: f in r.fields)
    && (forall j | 0 <= j < |r.fields| :: exists i :: 0 <= i < |r.rows| && r.fields[j] in r.rows[i])
  }

  /** An empty list of records gives a table without columns. */
  lemma NoRecordsNoFields(r: Records)
    requires RecordsFit(r)
    ensures r.rows == [] ==> r.fields == [] && FromRecords(r).columns == []
  {
    if |r.fields| > 0 {
      var f := r.fields[0];
      assert exists i :: 0 <= i < |r.rows| && f in r.rows[i];
    }
  }

  /** The default positional index 0, 1, ..., n - 1. */
  function Positions(n: nat): set<Value> {
    set i | 0 <= i < n :: Int(i)
  }

  function FieldOf(row: map<Name, Value>, f: Name): Value {
    if f in row then row[f] else Null
  }

  function RecordColumn(r: Records, f: Name): Column {
    Column(f, map i | 0 <= i < |r.rows| :: Int(i) := FieldOf(r.rows[i], f))
  }

  /** A table with one row per record, keyed by position, and one column
      per field in field order; a record without a field gives a missing cell. */
  function FromRecords(r: Records): (t: Table)
    ensures Valid(t) && t.index == None
    ensures t.keys == Positions(|r.rows|)
    ensures Names(t.columns) == r.fields
    ensures forall j, i | 0 <= j < |r.fields| && 0 <= i < |r.rows| ::
              t.columns[j].cells[Int(i)] == FieldOf(r.rows[i], r.fields[j])
  {
    var keys := Positions(|r.rows|);
    var cols := seq(|r.fields|, j requires 0 <= j < |r.fields| => RecordColumn(r, r.fields[j]));
    assert forall j | 0 <= j < |cols| :: cols[j].cells.Keys == keys by {
      forall j | 0 <= j < |cols| ensures cols[j].cells.Keys == keys {
        forall k | k in keys ensures k in cols[j].cells {
          var i :| 0 <= i < |r.rows| && k == Int(i);
        }
      }
    }
    Table(None, keys, cols)
  }

  // ---------------------------------------------------------------------
  // Time conversion (`pd.to_datetime(column, unit="s")`)
  // ---------------------------------------------------------------------

  /** Epoch seconds become a timestamp; a timestamp is left as it is. */
  function ToDatetime(v: Value): Value {
    match v
    case Int(s) => Stamp(s)
    case _ => v
  }

  function ConvertCells(c: Column): Column {
    c.(cells := map k | k in c.cells :: ToDatetime(c.cells[k]))
  }

  /** `t[name] = pd.to_datetime(t[name], unit="s")`: the column keeps its
      place and its rows; reading a column that does not exist raises. */
  function ConvertTime(t: Table, name: Name): (r: Result<Table, Error>)
    requires Valid(t)
    ensures r.Err? <==> name !in Names(t.columns)
    ensures r.Err? ==> r.error == KeyError(name)
    ensures r.Ok? ==> && Valid(r.value)
                      && r.value.index == t.index
                      && r.value.keys == t.keys
                      && Names(r.value.columns) == Names(t.columns)
    ensures r.Ok? ==> forall j, k | 0 <= j < |t.columns| && k in t.keys ::
              r.value.columns[j].cells[k] ==
                if t.columns[j].name == name then ToDatetime(t.columns[j].cells[k])
                else t.columns[j].cells[k]
  {
    if name !in Names(t.columns) then Err(KeyError(name))
    else
      var cols := seq(|t.columns|, j requires 0 <= j < |t.columns| =>
                        if t.columns[j].name == name then ConvertCells(t.columns[j])
                        else t.columns[j]);
      assert Names(cols) == Names(t.columns);
      Ok(t.(columns := cols))
  }

  /** A table whose `name` column has already been converted. */
  predicate Converted(t: Table, name: Name) {
    Valid(t) && ConvertTime(t, name) == Ok(t)
  }

  /** Converting a second time changes nothing, so the repeated
      `pd.to_datetime` of the core is harmless. */
  lemma {:induction false} ConvertTimeIdempotent(t: Table, name: Name)
    requires Valid(t) && ConvertTime(t, name).Ok?
    ensures Converted(ConvertTime(t, name).value, name)
  {
    var u := ConvertTime(t, name).value;
    var w := ConvertTime(u, name).value;
    assert |w.columns| == |u.columns|;
    forall j | 0 <= j < |u.columns| ensures w.columns[j] == u.columns[j] {
      assert Names(u.columns)[j] == u.columns[j].name;
      assert Names(t.columns)[j] == t.columns[j].name;
      if u.columns[j].name == name {
        assert w.columns[j].cells == u.columns[j].cells by {
          forall k | k in t.keys ensures w.columns[j].cells[k] == u.columns[j].cells[k] {
            assert u.columns[j].cells[k] == ToDatetime(t.columns[j].cells[k]);
          }
        }
      }
    }
    assert w.columns == u.columns;
  }

  // ---------------------------------------------------------------------
  // Setting the index (`t.set_index(name, inplace=True)`)
  // ---------------------------------------------------------------------

  /** The column called `name`, if any, holds a different value in every
      row, so it can serve as a set of row keys. */
  predicate UniqueColumn(t: Table, name: Name) {
    name in Names(t.columns) ==>
      var c := t.columns[IndexOf(Names(t.columns), name)];
      forall k1, k2 | k1 in c.cells && k2 in c.cells && c.cells[k1] == c.cells[k2] :: k1 == k2
  }

  /** The new row keys: the image of the old ones under `idx`. */
  function Image(keys: set<Value>, idx: map<Value, Value>): set<Value>
    requires keys <= idx.Keys
  {
    set k | k in keys :: idx[k]
  }

  /** A column moved from the old row keys to the new ones. */
  function Rekey(c: Column, keys: set<Value>, idx: map<Value, Value>): (r: Column)
    requires keys <= c.cells.Keys && keys <= idx.Keys
    requires forall k1, k2 | k1 in keys && k2 in keys && idx[k1] == idx[k2] :: k1 == k2
    ensures r.name == c.name && r.cells.Keys == Image(keys, idx)
    ensures forall k | k in keys :: r.cells[idx[k]] == c.cells[k]
  {
    Column(c.name, map k | k in keys :: idx[k] := c.cells[k])
  }

  /** Every column moved from the old row keys to the new ones. */
  function RekeyAll(cols: seq<Column>, keys: set<Value>, idx: map<Value, Value>): (r: seq<Column>)
    requires forall j | 0 <= j < |cols| :: cols[j].cells.Keys == keys
    requires keys <= idx.Keys
    requires forall k1, k2 | k1 in keys && k2 in keys && idx[k1] == idx[k2] :: k1 == k2
    ensures Names(r) == Names(cols)
    ensures forall j | 0 <= j < |r| :: r[j].cells.Keys == Image(keys, idx)
    ensures forall j, k | 0 <= j < |r| && k in keys :: idx[k] in r[j].cells && r[j].cells[idx[k]] == cols[j].cells[k]
  {
    seq(|cols|, j requires 0 <= j < |cols| => Rekey(cols[j], keys, idx))
  }

  /** Every column but the one at `i` still has a cell for every row. */
  lemma DropValid(t: Table, i: nat)
    requires Valid(t) && i < |t.columns|
    ensures forall j | 0 <= j < |Drop(t.columns, i)| :: Drop(t.columns, i)[j].cells.Keys == t.keys
    ensures Distinct(Names(Drop(t.columns, i)))
    ensures t.columns[i].name !in Names(Drop(t.columns, i))
  {
    NamesDrop(t.columns, i);
    DropDistinct(Names(t.columns), i);
    var d := Drop(t.columns, i);
    forall j | 0 <= j < |d| ensures d[j] == t.columns[if j < i then j else j + 1] {
    }
  }

  /** The column `name` becomes the index: its values are the new row
      keys, and it is no longer a column. A missing column raises. */
  function SetIndex(t: Table, name: Name): (r: Result<Table, Error>)
    requires Valid(t) && UniqueColumn(t, name)
    ensures r.Err? <==> name !in Names(t.columns)
    ensures r.Err? ==> r.error == KeyError(name)
    ensures r.Ok? ==>
              var i := IndexOf(Names(t.columns), name);
              var idx := t.columns[i].cells;
              && Valid(r.value)
              && r.value.index == Some(name)
              && name !in Names(r.value.columns)
              && Names(r.value.columns) == Drop(Names(t.columns), i)
              && r.value.keys == Image(t.keys, idx)
              && forall j, k | 0 <= j < |r.value.columns| && k in t.keys ::
                   r.value.columns[j].cells[idx[k]] == Drop(t.columns, i)[j].cells[k]
  {
    if name !in Names(t.columns) then Err(KeyError(name))
    else
      var i := IndexOf(Names(t.columns), name);
      var idx := t.columns[i].cells;
      DropValid(t, i);
      NamesDrop(t.columns, i);
      Ok(Table(Some(name), Image(t.keys, idx), RekeyAll(Drop(t.columns, i), t.keys, idx)))
  }

  // ---------------------------------------------------------------------
  // Outer merge on the index
  // (`pd.merge(l, r, left_index=True, right_index=True, how='outer')`)
  // ---------------------------------------------------------------------

  function Pad(c: Column, keys: set<Value>): Column {
    c.(cells := map k | k in keys :: Get(c, k))
  }

  function PadAll(cols: seq<Column>, keys: set<Value>): (r: seq<Column>)
    ensures Names(r) == Names(cols)
  {
    seq(|cols|, i requires 0 <= i < |cols| => Pad(cols[i], keys))
  }

  /** Column labels that the two tables do not share. */
  predicate DisjointNames(a: seq<Name>, b: seq<Name>) {
    forall n | n in a :: n !in b
  }

  /** The union of the row keys, the left columns followed by the right
      ones, and a missing value wherever one side has no such row. */
  function OuterJoin(l: Table, r: Table): (j: Table)
    requires Valid(l) && Valid(r)
    requires DisjointNames(Names(l.columns), Names(r.columns))
    ensures Valid(j)
    ensures j.index == (if l.index == r.index then l.index else None)
    ensures j.keys == l.keys + r.keys
    ensures Names(j.columns) == Names(l.columns) + Names(r.columns)
    ensures j.columns == PadAll(l.columns, j.keys) + PadAll(r.columns, j.keys)
    ensures forall c, k | 0 <= c < |l.columns| && k in j.keys ::
              j.columns[c].cells[k] == Get(l.columns[c], k)
    ensures forall c, k | 0 <= c < |r.columns| && k in j.keys ::
              j.columns[|l.columns| + c].cells[k] == Get(r.columns[c], k)
  {
    var keys := l.keys + r.keys;
    var cols := PadAll(l.columns, keys) + PadAll(r.columns, keys);
    NamesAppend(PadAll(l.columns, keys), PadAll(r.columns, keys));
    assert Distinct(Names(cols)) by {
      var ln, rn := Names(l.columns), Names(r.columns);
      forall a, b | 0 <= a < b < |cols| ensures Names(cols)[a] != Names(cols)[b] {
        if a < |ln| && |ln| <= b {
          assert ln[a] in ln;
        }
      }
    }
    Table(if l.index == r.index then l.index else None, keys, cols)
  }
}
