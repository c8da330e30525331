/**
 * The slice of a pandas DataFrame the statistics engine touches: named
 * columns of equal length, read by name (`df[name]`), copied
 * (`df.copy()`) and extended with new columns (`df[name] = ...`).
 */
module Frames {
  import opened Wrappers
  import opened Variation

  /**
   * A column: plain numbers, a moving-range column whose first entry is NaN
   * (None), a column of variation labels, or any non-numeric column.
   */
  datatype Column =
    | Numbers(values: seq<real>)
    | Ranges(ranges: seq<Option<real>>)
    | Causes(causes: seq<Cause>)
    | Text(text: seq<string>)

  function Length(c: Column): nat
  {
    match c
    case Numbers(v) => |v|
    case Ranges(r) => |r|
    case Causes(k) => |k|
    case Text(t) => |t|
  }

  /** The columns of a frame, by name. */
  type Table = map<string, Column>

  /** Why an operation of the engine raises instead of returning. */
  datatype Error =
    | MissingColumn(name: string)                // KeyError from `df[name]`
    | NotNumeric(name: string)                   // TypeError from arithmetic on a text column
    | MissingValues(name: string)                // a column holding NaN used as a series (not modelled)
    | ConditionNotInAllFrames                    // ValueError raised by `network_analysis`
    | LabelCountMismatch(labels: nat, frames: nat) // ValueError: one label per frame is required
    | EmptyColumn(name: string)                  // ValueError from `min()` of an empty column
    | NothingBelowFence(name: string)            // ValueError from `max()` of an empty selection
    | NoFrames                                   // ValueError: an empty frame list has no verdict column to assign

  /**
   * `df[name]` used as a numeric series: a missing name is a KeyError and a
   * column of strings fails on the first arithmetic operation.
   */
  function SeriesIn(t: Table, name: string): (r: Result<seq<real>, Error>)
    ensures r.Success? <==> name in t && t[name].Numbers?
    ensures r.Success? ==> r.value == t[name].values
    ensures name !in t ==> r == Failure(MissingColumn(name))
    ensures name in t && (t[name].Text? || t[name].Causes?) ==> r == Failure(NotNumeric(name))
  {
    if name !in t then Failure(MissingColumn(name))
    else match t[name]
      case Numbers(v) => Success(v)
      case Ranges(_) => Failure(MissingValues(name))
      case Causes(_) => Failure(NotNumeric(name))
      case Text(_) => Failure(NotNumeric(name))
  }

  /** Frame `i` is the first whose series cannot be read. */
  predicate FirstFailure(ts: seq<Table>, name: string, i: nat)
    requires i < |ts|
  {
    SeriesIn(ts[i], name).Failure? && forall j :: 0 <= j < i ==> SeriesIn(ts[j], name).Success?
  }

  /**
   * `[df[name] ... for df in frames]`: the series of every frame, in order;
   * the first frame that fails decides the error.
   */
  function SeriesOfAll(ts: seq<Table>, name: string): (r: Result<seq<seq<real>>, Error>)
    ensures r.Success? <==> forall i :: 0 <= i < |ts| ==> SeriesIn(ts[i], name).Success?
    ensures r.Success? ==> |r.value| == |ts|
    ensures r.Success? ==> forall i :: 0 <= i < |ts| ==> r.value[i] == SeriesIn(ts[i], name).value
    ensures r.Failure? ==> exists i :: 0 <= i < |ts| && FirstFailure(ts, name, i) && SeriesIn(ts[i], name) == Failure(r.error)
  {
    if |ts| == 0 then Success([])
    else
      var first :- SeriesIn(ts[0], name);
      var rest :- SeriesOfAll(ts[1..], name);
      Success([first] + rest)
  }

  /** `all(name in df.columns for df in frames)`. */
  predicate AllHave(ts: seq<Table>, name: string)
  {
    forall i :: 0 <= i < |ts| ==> name in ts[i]
  }

  /** A DataFrame: columns that the chart functions copy and then extend. */
  class Frame {
    var columns: Table
    var rows: nat

    /** Every column has one entry per row. */
    ghost predicate Valid()
      reads this
    {
      forall name :: name in columns ==> Length(columns[name]) == rows
    }

    constructor (columns: Table, rows: nat)
      requires forall name :: name in columns ==> Length(columns[name]) == rows
      ensures Valid() && this.columns == columns && this.rows == rows
    {
      this.columns := columns;
      this.rows := rows;
    }

    /** `df.copy()`: a new frame with the same columns; later writes do not reach this one. */
    method Copy() returns (f: Frame)
      requires Valid()
      ensures fresh(f) && f.Valid()
      ensures f.columns == columns && f.rows == rows
    {
      f := new Frame(columns, rows);
    }

    /** `df[name] = col`: adds the column, or replaces the one of that name. */
    method SetColumn(name: string, col: Column)
      requires Valid() && Length(col) == rows
      modifies this
      ensures Valid()
      ensures columns == old(columns)[name := col] && rows == old(rows)
    {
      columns := columns[name := col];
    }
  }
}
