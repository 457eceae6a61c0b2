/** The helpers of utils.py: renaming every column with a prefix, and
    choosing a default in place of a missing value. */
module Utils {
  import opened Wrappers
  import opened Frames

  /** The label `"{prefix}_{name}"`. */
  function PrefixName(prefix: string, name: Name): Name {
    prefix + "_" + name
  }

  /** For a fixed prefix the renaming is one-to-one. */
  lemma PrefixNameInjective(prefix: string, a: Name, b: Name)
    ensures PrefixName(prefix, a) == PrefixName(prefix, b) <==> a == b
  {
    if PrefixName(prefix, a) == PrefixName(prefix, b) {
      assert a == PrefixName(prefix, a)[|prefix| + 1..];
      assert b == PrefixName(prefix, b)[|prefix| + 1..];
    }
  }

  /** Every label of `names` under `prefix`, in order. */
  function PrefixNames(prefix: string, names: seq<Name>): (r: seq<Name>)
    ensures |r| == |names|
    ensures forall i | 0 <= i < |names| :: r[i] == PrefixName(prefix, names[i])
  {
    seq(|names|, i requires 0 <= i < |names| => PrefixName(prefix, names[i]))
  }

  /** `df.rename(columns={col: f"{prefix}_{col}" for col in df.columns})`:
      a new table whose i-th column is the i-th column of `t` under the
      label `"{prefix}_{label}"`, with the same cells; index and rows are
      those of `t`. */
  function AddPrefixToDf(t: Table, prefix: string): (r: Table)
    ensures r.index == t.index && r.keys == t.keys
    ensures |r.columns| == |t.columns|
    ensures forall i | 0 <= i < |t.columns| ::
              && r.columns[i].name == PrefixName(prefix, t.columns[i].name)
              && r.columns[i].cells == t.columns[i].cells
    ensures Names(r.columns) == PrefixNames(prefix, Names(t.columns))
  {
    t.(columns := seq(|t.columns|, i requires 0 <= i < |t.columns| =>
                        Column(PrefixName(prefix, t.columns[i].name), t.columns[i].cells)))
  }

  /** Distinct labels stay distinct, so a well-formed table stays well formed. */
  lemma AddPrefixKeepsValid(t: Table, prefix: string)
    requires Valid(t)
    ensures Valid(AddPrefixToDf(t, prefix))
  {
    var r := AddPrefixToDf(t, prefix);
    forall i, j | 0 <= i < j < |r.columns| ensures Names(r.columns)[i] != Names(r.columns)[j] {
      assert Names(t.columns)[i] != Names(t.columns)[j];
      PrefixNameInjective(prefix, t.columns[i].name, t.columns[j].name);
    }
  }

  /** `defn(value, default)`: `default` when `value` is None, else `value`. */
  function Defn<T>(value: Option<T>, default: Option<T>): (r: Option<T>)
    ensures value.None? ==> r == default
    ensures value.Some? ==> r == value
  {
    if value.None? then default else value
  }

  /** The result is None only when both arguments are. */
  lemma DefnNone<T>(value: Option<T>, default: Option<T>)
    ensures Defn(value, default).None? <==> value.None? && default.None?
  {
  }

  /** Applying the same default twice is applying it once. */
  lemma DefnIdempotent<T>(value: Option<T>, default: Option<T>)
    ensures Defn(Defn(value, default), default) == Defn(value, default)
  {
  }

  /** Chained defaults: the first present value wins, whichever way the
      calls are nested. */
  lemma DefnAssociative<T>(a: Option<T>, b: Option<T>, c: Option<T>)
    ensures Defn(Defn(a, b), c) == Defn(a, Defn(b, c))
  {
  }
}
