/**
  `input_df[feature_columns]`: the single-row frame is cut down and
  reordered to the canonical column list, name by name.
 */
module Projection {
  import opened Wrappers
  import opened Dict
  import opened FeatureRecord

  /** A single-row frame: column names and the row's cells, position by position. */
  datatype Frame = Frame(columns: seq<string>, row: seq<Value>)

  /** The names in `columns` that are not keys of `rec`, in the order `columns` lists them. */
  function Missing(rec: Record, columns: seq<string>): (m: seq<string>)
    ensures |m| <= |columns|
    ensures forall n :: n in m <==> n in columns && n !in Keys(rec)
  {
    if columns == [] then []
    else (if columns[0] in Keys(rec) then [] else [columns[0]]) + Missing(rec, columns[1..])
  }

  /** The record's value under each name of `columns`, in that order. */
  function Cells(rec: Record, columns: seq<string>): (cells: seq<Value>)
    requires forall n :: n in columns ==> n in Keys(rec)
    ensures |cells| == |columns|
    ensures forall i :: 0 <= i < |columns| ==> Get(rec, columns[i]) == Some(cells[i])
  {
    if columns == [] then []
    else [Get(rec, columns[0]).value] + Cells(rec, columns[1..])
  }

  /**
    Selecting a list of columns: the frame has exactly those columns, in
    that order, each holding the record's value under its name; when some
    name is not a key the selection fails with a KeyError listing every
    missing name.
   */
  function Project(rec: Record, columns: seq<string>): (r: Result<Frame, seq<string>>)
    ensures r.Ok? <==> forall n :: n in columns ==> n in Keys(rec)
    ensures r.Ok? ==> r.value.columns == columns && |r.value.row| == |columns|
    ensures r.Ok? ==> forall i :: 0 <= i < |columns| ==> Get(rec, columns[i]) == Some(r.value.row[i])
    ensures r.Err? ==> r.error != [] && forall n :: n in r.error <==> n in columns && n !in Keys(rec)
  {
    var missing := Missing(rec, columns);
    if missing == [] then Ok(Frame(columns, Cells(rec, columns)))
    else
      assert missing[0] in missing;
      Err(missing)
  }

  /** Two records that hold the same value under every name have the same missing names. */
  lemma {:induction false} MissingAgree(r1: Record, r2: Record, columns: seq<string>)
    requires forall k :: Get(r1, k) == Get(r2, k)
    ensures Missing(r1, columns) == Missing(r2, columns)
  {
    if columns != [] {
      assert Get(r1, columns[0]) == Get(r2, columns[0]);
      MissingAgree(r1, r2, columns[1..]);
    }
  }

  /**
    The projected frame depends only on which value each name holds, not
    on the order in which the record was assembled.
   */
  lemma ProjectionIgnoresRecordOrder(r1: Record, r2: Record, columns: seq<string>)
    requires forall k :: Get(r1, k) == Get(r2, k)
    ensures Project(r1, columns) == Project(r2, columns)
  {
    MissingAgree(r1, r2, columns);
    var p1, p2 := Project(r1, columns), Project(r2, columns);
    if p1.Ok? {
      assert p2.Ok?;
      forall i | 0 <= i < |columns| ensures p1.value.row[i] == p2.value.row[i] {
        assert Get(r1, columns[i]) == Get(r2, columns[i]);
      }
      assert p1.value.row == p2.value.row;
    }
  }

  /** Selecting a record's own keys in their own order gives back its cells unchanged. */
  lemma ProjectOwnKeys(rec: Record)
    requires Distinct(Keys(rec))
    ensures Project(rec, Keys(rec)) == Ok(Frame(Keys(rec), Values(rec)))
  {
    var ks := Keys(rec);
    var p := Project(rec, ks);
    assert p.Ok?;
    var row := p.value.row;
    forall i | 0 <= i < |rec| ensures row[i] == Values(rec)[i] {
      GetAt(rec, i);
      assert Get(rec, ks[i]) == Some(row[i]);
    }
    assert row == Values(rec);
  }
}
