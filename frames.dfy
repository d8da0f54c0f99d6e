/** The part of a pandas DataFrame the analysis relies on: a `Date` column
    followed by named numeric columns of one common length. */
module Frames {
  import opened Calendar

  /** Name of the key column that `reset_index` produces. */
  const DATE := "Date"
  /** Name of the market-index column. */
  const MARKET := "sp500"

  predicate Distinct<T(==)>(s: seq<T>)
  {
    forall i, j :: 0 <= i < j < |s| ==> s[i] != s[j]
  }

  /** Position of the first occurrence of `x` in `s`. */
  function IndexOf<T(==)>(s: seq<T>, x: T): (k: nat)
    requires x in s
    ensures k < |s| && s[k] == x
    ensures forall j :: 0 <= j < k ==> s[j] != x
  {
    if s[0] == x then 0 else 1 + IndexOf(s[1..], x)
  }

  /** One download: a price per date. */
  datatype Series = Series(dates: seq<Date>, values: seq<real>)
  {
    predicate Valid()
    {
      |dates| == |values|
    }
  }

  /** The contents of a frame: `dates` is the `Date` column, `cols[k]` the
      column named `labels[k]`. */
  datatype Table = Table(dates: seq<Date>, labels: seq<string>, cols: seq<seq<real>>)
  {
    predicate Valid()
    {
      && |cols| == |labels|
      && (forall k :: 0 <= k < |cols| ==> |cols[k]| == |dates|)
      && DATE !in labels
      && Distinct(labels)
    }

    /** `df.columns`. */
    function Columns(): seq<string>
    {
      [DATE] + labels
    }
  }

  /** `df[name]` for a value column. */
  function Column(t: Table, name: string): (c: seq<real>)
    requires t.Valid() && name in t.labels
    ensures |c| == |t.dates|
    ensures forall k :: 0 <= k < |t.labels| && t.labels[k] == name ==> c == t.cols[k]
  {
    t.cols[IndexOf(t.labels, name)]
  }

  /** A DataFrame object, whose columns the analysis assigns in place. */
  class Frame {
    var dates: seq<Date>
    var labels: seq<string>
    var cols: seq<seq<real>>

    function Value(): Table
      reads this
    {
      Table(dates, labels, cols)
    }

    predicate Valid()
      reads this
    {
      Value().Valid()
    }

    /** `pd.DataFrame()`. */
    constructor Empty()
      ensures Valid() && Value() == Table([], [], [])
    {
      dates, labels, cols := [], [], [];
    }

    /** A new frame holding `t`, as `pd.merge` returns one. */
    constructor Of(t: Table)
      requires t.Valid()
      ensures Valid() && Value() == t
    {
      dates, labels, cols := t.dates, t.labels, t.cols;
    }

    /** `df.copy()`. */
    method Copy() returns (c: Frame)
      requires Valid()
      ensures fresh(c) && c.Valid() && c.Value() == Value()
    {
      c := new Frame.Of(Value());
    }

    /** `df[name] = s` for a new column. A frame without columns or rows takes
        the dates of `s` as its index; otherwise pandas aligns `s` on the
        existing dates, and the model admits only a series with those dates. */
    method Insert(name: string, s: Series)
      requires Valid() && s.Valid()
      requires name != DATE && name !in labels
      requires (labels == [] && dates == []) || s.dates == dates
      modifies this
      ensures Valid()
      ensures dates == if old(labels) == [] && old(dates) == [] then s.dates else old(dates)
      ensures labels == old(labels) + [name]
      ensures cols == old(cols) + [s.values]
    {
      if labels == [] && dates == [] {
        dates := s.dates;
      }
      labels := labels + [name];
      cols := cols + [s.values];
    }

    /** `df[labels[k]] = col` for an existing column. */
    method Replace(k: nat, col: seq<real>)
      requires Valid() && k < |labels| && |col| == |dates|
      modifies this
      ensures Valid()
      ensures dates == old(dates) && labels == old(labels)
      ensures cols == old(cols)[k := col]
    {
      cols := cols[k := col];
    }
  }
}
