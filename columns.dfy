/**
 * Column normalisation after parsing (main.py:59-60): every column name is
 * whitespace-stripped (`df.columns.str.strip()`), then every column whose
 * name matches the regular expression `^Unnamed` is dropped, the rest kept in
 * order (`df.loc[:, ~df.columns.str.contains("^Unnamed")]`). The CSV reader
 * gives `Unnamed: <n>` to columns whose header cell is empty, such as a
 * trailing comma or an index column.
 *
 * A table is its sequence of columns; the cells of a column are opaque
 * (type parameter V) and travel with their column.
 */
module Columns {
  import opened Text
  import Seqs

  datatype Column<V> = Column(name: string, values: V)

  /**
   * `str.contains("^Unnamed")`: the regular expression is searched for with
   * `^` anchored at the start of the name, so the name starts with `Unnamed`
   * (case matters).
   */
  predicate IsUnnamed(name: string)
    ensures IsUnnamed(name) <==> |name| >= 7 && forall k :: 0 <= k < 7 ==> name[k] == "Unnamed"[k]
  {
    StartsWith(name, "Unnamed")
  }

  /** The mask of line 60: the columns that are kept. */
  predicate IsNamed(name: string)
  {
    !IsUnnamed(name)
  }

  predicate IsNormalName(name: string)
  {
    IsStripped(name) && !IsUnnamed(name)
  }

  function StripNames(names: seq<string>): (r: seq<string>)
    ensures |r| == |names|
    ensures forall i :: 0 <= i < |names| ==> r[i] == Strip(names[i])
    ensures forall i :: 0 <= i < |r| ==> IsStripped(r[i])
  {
    Seqs.Map(Strip, names)
  }

  /**
   * The column names after lines 59-60. Every name is stripped and none
   * starts with `Unnamed`; the result is an order-preserving subsequence of
   * the stripped names that holds every other stripped name as often as the
   * input does (together these determine the result).
   */
  function NormaliseNames(names: seq<string>): (r: seq<string>)
    ensures forall i :: 0 <= i < |r| ==> IsNormalName(r[i])
    ensures Seqs.IsSubsequence(r, StripNames(names))
    ensures forall x :: multiset(r)[x] == if IsUnnamed(x) then 0 else multiset(StripNames(names))[x]
  {
    var stripped := StripNames(names);
    Seqs.FilterIsSubsequence(IsNamed, stripped);
    Seqs.FilterCounts(IsNamed, stripped);
    Seqs.Filter(IsNamed, stripped)
  }

  /** Normalising names that are already normal changes nothing. */
  lemma NormaliseNormalNames(names: seq<string>)
    requires forall i :: 0 <= i < |names| ==> IsNormalName(names[i])
    ensures NormaliseNames(names) == names
  {
    forall i | 0 <= i < |names|
      ensures Strip(names[i]) == names[i]
    {
      StripStripped(names[i]);
    }
    assert StripNames(names) == names;
    Seqs.FilterKeepsAll(IsNamed, names);
  }

  lemma NormaliseIdempotent(names: seq<string>)
    ensures NormaliseNames(NormaliseNames(names)) == NormaliseNames(names)
  {
    NormaliseNormalNames(NormaliseNames(names));
  }

  function Names<V>(table: seq<Column<V>>): (r: seq<string>)
    ensures |r| == |table|
    ensures forall i :: 0 <= i < |table| ==> r[i] == table[i].name
  {
    Seqs.Map((c: Column<V>) => c.name, table)
  }

  function StripColumn<V>(c: Column<V>): (r: Column<V>)
    ensures r.values == c.values && IsStripped(r.name)
  {
    c.(name := Strip(c.name))
  }

  /**
   * Lines 59-60 on the whole table: the kept columns are the input columns,
   * renamed to their stripped names and in their original order, with their
   * cells unchanged; the names are NormaliseNames of the input names.
   */
  function NormaliseTable<V>(table: seq<Column<V>>): (r: seq<Column<V>>)
    ensures Names(r) == NormaliseNames(Names(table))
    ensures Seqs.IsSubsequence(r, Seqs.Map(StripColumn, table))
  {
    var stripped := Seqs.Map(StripColumn, table);
    var keep := (c: Column<V>) => IsNamed(c.name);
    var r := Seqs.Filter(keep, stripped);
    Seqs.FilterIsSubsequence(keep, stripped);
    Seqs.MapFilterCommute((c: Column<V>) => c.name, IsNamed, keep, stripped);
    assert Seqs.Map((c: Column<V>) => c.name, stripped) == StripNames(Names(table));
    r
  }
}
