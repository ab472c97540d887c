/** A pandas data frame as a value: its column labels in order, the column stored
    under each label, and the number of rows every column has. */
module Frames {
  import opened Errors
  import opened Labels

  /** A column of float64 samples; the model uses real numbers for them. */
  type Column = seq<real>

  datatype Frame = Frame(labels: seq<string>, columns: map<string, Column>, rows: nat)

  /** A well-formed frame: each label once, a column for exactly the listed labels,
      and every column as long as the frame has rows. */
  ghost predicate Valid(f: Frame) {
    && Distinct(f.labels)
    && (forall l :: l in f.columns <==> l in f.labels)
    && (forall l :: l in f.columns ==> |f.columns[l]| == f.rows)
  }

  /** `frame[label]`: the column under a label, or a KeyError. */
  function Get(f: Frame, l: string): (r: Result<Column>)
    ensures r.Ok? <==> l in f.columns
    ensures r.Ok? ==> r.value == f.columns[l]
    ensures r.Err? ==> r.error == KeyError(l)
  {
    if l in f.columns then Ok(f.columns[l]) else Err(KeyError(l))
  }

  /** `frame[[l0, l1, ...]]`: a new frame holding copies of the listed columns in the
      listed order. The labels asked for are always present and distinct here, so
      pandas' KeyError and its duplicated columns do not arise. */
  function Select(f: Frame, ls: seq<string>): (r: Frame)
    requires Distinct(ls)
    requires forall l :: l in ls ==> l in f.columns
    ensures Valid(f) ==> Valid(r)
    ensures r.labels == ls && r.rows == f.rows
    ensures forall l :: l in r.columns <==> l in ls
    ensures forall l :: l in ls ==> r.columns[l] == f.columns[l]
  {
    Frame(ls, map l | l in ls :: f.columns[l], f.rows)
  }

  /** `frame[label] = values`: a column of another length than the row count is
      refused with a ValueError; an existing label keeps its place and gets the new
      values, a new label is appended at the end. */
  function Assign(f: Frame, l: string, c: Column): (r: Result<Frame>)
    ensures r.Ok? <==> |c| == f.rows
    ensures r.Err? ==> r.error == LengthMismatch(l)
    ensures r.Ok? ==> r.value.columns == f.columns[l := c] && r.value.rows == f.rows
    ensures r.Ok? && l in f.labels ==> r.value.labels == f.labels
    ensures r.Ok? && l !in f.labels ==> r.value.labels == f.labels + [l]
    ensures r.Ok? && Valid(f) ==> Valid(r.value)
  {
    if |c| != f.rows then Err(LengthMismatch(l))
    else
      var ls := if l in f.labels then f.labels else f.labels + [l];
      assert l !in f.labels && Distinct(f.labels) ==> Distinct(ls);
      Ok(Frame(ls, f.columns[l := c], f.rows))
  }

  /** Writing a column's own values back under its label changes nothing. */
  lemma AssignSame(f: Frame, l: string, c: Column)
    requires Valid(f) && l in f.columns && f.columns[l] == c
    ensures Assign(f, l, c) == Ok(f)
  {
    assert f.columns[l := c] == f.columns;
  }

  /** What the CSV reader returns: a parsed table given column by column, or a
      failure to open or parse the file. */
  datatype CsvRead = Parsed(rows: nat, table: seq<Column>) | Unreadable

  /** A parsed table with the given number of columns, all of the same length —
      the shape the reader gives whenever it is told the column names. */
  predicate Shaped(read: CsvRead, width: nat) {
    read.Parsed? ==>
      |read.table| == width && forall k :: 0 <= k < width ==> |read.table[k]| == read.rows
  }

  /** The frame with `labels` as header over the columns of a parsed table. */
  function Labelled(labels: seq<string>, rows: nat, table: seq<Column>): (r: Frame)
    requires Distinct(labels) && |table| == |labels|
    requires forall k :: 0 <= k < |table| ==> |table[k]| == rows
    ensures Valid(r)
    ensures r.labels == labels && r.rows == rows
    ensures forall k :: 0 <= k < |labels| ==> r.columns[labels[k]] == table[k]
  {
    var cols := map k | 0 <= k < |labels| :: labels[k] := table[k];
    assert forall l :: l in cols <==> l in labels by {
      forall l ensures l in cols <==> l in labels {
        if l in labels { var k :| 0 <= k < |labels| && labels[k] == l; assert l in cols; }
      }
    }
    Frame(labels, cols, rows)
  }
}
