/** The ABN abundance parser (stella/parser/abn.py): a table with one row
    per zone and one column per ABN field, and the search for the band of
    zones where an element, or a sum of elements, exceeds a threshold. The
    table as np.loadtxt returns it is an input. */
module Abn {
  import opened Common
  import opened Config
  import Paths

  /** The threshold get_element_data uses when the caller gives none. */
  const DefaultThreshold: real := 0.1

  /** Every row has as many values as the first (np.loadtxt raises otherwise). */
  predicate Rectangular(rows: seq<seq<real>>) {
    forall r :: 0 <= r < |rows| ==> |rows[r]| == |rows[0]|
  }

  /** np.loadtxt drops axes of length one, so only a table with at least two
      rows and two columns is a matrix that `data[:, i]` can index. */
  predicate IsMatrix(rows: seq<seq<real>>) {
    |rows| >= 2 && |rows[0]| >= 2 && Rectangular(rows)
  }

  /** `data[:, i]`: IndexError unless the table is a matrix with a column i. */
  function Column(rows: seq<seq<real>>, i: nat): (r: Result<seq<real>>)
    ensures r.Success? <==> IsMatrix(rows) && i < |rows[0]|
    ensures r.Failure? ==> r.error == IndexOutOfRange
    ensures r.Success? ==> |r.value| == |rows| && forall k :: 0 <= k < |rows| ==> r.value[k] == rows[k][i]
  {
    if !IsMatrix(rows) || i >= |rows[0]| then Failure(IndexOutOfRange)
    else Success(seq(|rows|, k requires 0 <= k < |rows| => rows[k][i]))
  }

  /** `data.shape[0]` of the loaded array: the row count of a matrix, the
      value count of a single row, IndexError for a single value. */
  function Length(rows: seq<seq<real>>): (r: Result<nat>)
    requires Rectangular(rows)
    ensures IsMatrix(rows) ==> r == Success(|rows|)
    ensures |rows| == 1 && |rows[0]| == 1 ==> r == Failure(IndexOutOfRange)
    ensures |rows| == 1 && |rows[0]| != 1 ==> r == Success(|rows[0]|)
    ensures |rows| != 1 ==> r == Success(|rows|)
  {
    if |rows| == 1 && |rows[0]| == 1 then Failure(IndexOutOfRange)
    else if |rows| == 1 then Success(|rows[0]|)
    else Success(|rows|)
  }

  /** `np.where(values > threshold)[0]`: the positions whose value exceeds
      the threshold, in increasing order. */
  function Above(values: seq<real>, threshold: real): (p: seq<nat>)
    ensures forall k :: 0 <= k < |p| ==> p[k] < |values| && values[p[k]] > threshold
    ensures forall i :: 0 <= i < |values| && values[i] > threshold ==> i in p
    ensures forall k, l :: 0 <= k < l < |p| ==> p[k] < p[l]
  {
    if values == [] then []
    else
      var n := |values|;
      Above(values[..n - 1], threshold) + if values[n - 1] > threshold then [n - 1] else []
  }

  /** The first and the last position whose value exceeds the threshold, or
      (-1, -1) when none does. */
  function Band(values: seq<real>, threshold: real): (b: (int, int))
    ensures b != (-1, -1) ==> 0 <= b.0 <= b.1 < |values|
  {
    var p := Above(values, threshold);
    var none: (int, int) := (-1, -1);
    if |p| == 0 then none else (p[0], p[|p| - 1])
  }

  /** The band is (-1, -1) exactly when no value exceeds the threshold;
      otherwise both ends exceed it and nothing outside them does. */
  lemma BandSpec(values: seq<real>, threshold: real)
    ensures var b := Band(values, threshold);
      && (b == (-1, -1) <==> forall i :: 0 <= i < |values| ==> values[i] <= threshold)
      && (b != (-1, -1) ==> && values[b.0] > threshold && values[b.1] > threshold
                            && (forall i :: 0 <= i < b.0 ==> values[i] <= threshold)
                            && (forall i :: b.1 < i < |values| ==> values[i] <= threshold))
  {
    var p := Above(values, threshold);
    forall i | 0 <= i < |values| && values[i] > threshold ensures |p| > 0 && p[0] <= i <= p[|p| - 1] {
      var k :| 0 <= k < |p| && p[k] == i;
    }
  }

  /** The value a tuple key tests in one row: the sum of the columns of its
      first w items, all ABN members. */
  function RowSum(row: seq<real>, items: seq<Key>, w: nat): real
    requires w <= |items|
    requires forall k :: 0 <= k < w ==> items[k].AbnKey? && AbnIndex(items[k].abn) < |row|
  {
    if w == 0 then 0.0
    else RowSum(row, items, w - 1) + row[AbnIndex(items[w - 1].abn)]
  }

  /** One `data += self.data[:, ABN2IDX[k]]`: KeyError when the item is no
      ABN member, IndexError when its column is missing. */
  function AddColumn(rows: seq<seq<real>>, acc: seq<real>, item: Key): (r: Result<seq<real>>)
    requires IsMatrix(rows) ==> |acc| == |rows|
    ensures r.Success? <==> item.AbnKey? && IsMatrix(rows) && AbnIndex(item.abn) < |rows[0]|
    ensures r.Success? ==> |r.value| == |acc|
                           && forall k :: 0 <= k < |acc| ==> r.value[k] == acc[k] + rows[k][AbnIndex(item.abn)]
  {
    if !item.AbnKey? then Failure(MissingKey)
    else
      var col :- Column(rows, AbnIndex(item.abn));
      Success(seq(|acc|, k requires 0 <= k < |acc| => acc[k] + col[k]))
  }

  /** The accumulation over the first w items of a tuple key, starting from
      zeros of length `data.shape[0]`; the first failing item ends it. */
  function SumColumns(rows: seq<seq<real>>, items: seq<Key>, w: nat): (r: Result<seq<real>>)
    requires Rectangular(rows) && w <= |items|
    ensures r.Success? ==> Length(rows).Success? && |r.value| == Length(rows).value
  {
    if w == 0 then
      var n :- Length(rows);
      Success(seq(n, _ => 0.0))
    else
      match SumColumns(rows, items, w - 1)
      case Failure(e) => Failure(e)
      case Success(acc) => AddColumn(rows, acc, items[w - 1])
  }

  /** One more item of the accumulation adds its column to the sum so far. */
  lemma SumColumnsStep(rows: seq<seq<real>>, items: seq<Key>, w: nat, acc: seq<real>)
    requires Rectangular(rows) && w < |items|
    requires SumColumns(rows, items, w) == Success(acc)
    ensures IsMatrix(rows) ==> |acc| == |rows|
    ensures SumColumns(rows, items, w + 1) == AddColumn(rows, acc, items[w])
  {
  }

  /** On a matrix the accumulation succeeds exactly when every item is an
      ABN member whose column exists. */
  lemma {:induction false} SumColumnsSucceeds(rows: seq<seq<real>>, items: seq<Key>, w: nat)
    requires IsMatrix(rows) && w <= |items|
    ensures SumColumns(rows, items, w).Success? <==>
      forall k :: 0 <= k < w ==> items[k].AbnKey? && AbnIndex(items[k].abn) < |rows[0]|
  {
    if w > 0 {
      SumColumnsSucceeds(rows, items, w - 1);
    }
  }

  /** On a matrix that has every listed column, the accumulation holds, row
      by row, the sum of the listed columns; otherwise it fails. */
  lemma {:induction false} SumColumnsSpec(rows: seq<seq<real>>, items: seq<Key>, w: nat)
    requires IsMatrix(rows) && w <= |items|
    ensures SumColumns(rows, items, w).Success? <==>
      forall k :: 0 <= k < w ==> items[k].AbnKey? && AbnIndex(items[k].abn) < |rows[0]|
    ensures SumColumns(rows, items, w).Success? ==>
      forall r :: 0 <= r < |rows| ==> SumColumns(rows, items, w).value[r] == RowSum(rows[r], items, w)
  {
    SumColumnsSucceeds(rows, items, w);
    if w > 0 && SumColumns(rows, items, w).Success? {
      SumColumnsSpec(rows, items, w - 1);
    }
  }

  /** get_element_data as a value: Some(band) for an ABN member or a tuple,
      None for any other key. */
  function ElementData(rows: seq<seq<real>>, key: Key, threshold: real): (r: Result<Option<(int, int)>>)
    requires Rectangular(rows)
    ensures r.Success? ==> (r.value.Some? <==> key.AbnKey? || key.TupleKey?)
    ensures r.Success? && r.value.Some? && r.value.value != (-1, -1) ==>
              0 <= r.value.value.0 <= r.value.value.1
    ensures !key.AbnKey? && !key.TupleKey? ==> r == Success(None)
  {
    match key
    case AbnKey(f) => BandOf(Column(rows, AbnIndex(f)), threshold)
    case TupleKey(items) => BandOf(SumColumns(rows, items, |items|), threshold)
    case _ => Success(None)
  }

  /** The band of a column that could be read, or the failure reading it. */
  function BandOf(values: Result<seq<real>>, threshold: real): (r: Result<Option<(int, int)>>)
    ensures r.Success? <==> values.Success?
    ensures r.Success? ==> r.value.Some? && (r.value.value != (-1, -1) ==> 0 <= r.value.value.0 <= r.value.value.1 < |values.value|)
  {
    var col :- values;
    Success(Some(Band(col, threshold)))
  }

  /** A single element: (first, last) among the rows whose value in the
      element's column exceeds the threshold, (-1, -1) when there is none. */
  lemma SingleElementBand(rows: seq<seq<real>>, f: AbnField, threshold: real)
    requires IsMatrix(rows) && AbnIndex(f) < |rows[0]|
    ensures var r := ElementData(rows, AbnKey(f), threshold);
      var i := AbnIndex(f);
      && r.Success? && r.value.Some?
      && (r.value.value == (-1, -1) <==> forall k :: 0 <= k < |rows| ==> rows[k][i] <= threshold)
      && (r.value.value != (-1, -1) ==>
            var (first, last) := r.value.value;
            && 0 <= first <= last < |rows|
            && rows[first][i] > threshold && rows[last][i] > threshold
            && (forall k :: 0 <= k < first ==> rows[k][i] <= threshold)
            && (forall k :: last < k < |rows| ==> rows[k][i] <= threshold))
  {
    var col := Column(rows, AbnIndex(f)).value;
    BandSpec(col, threshold);
    assert ElementData(rows, AbnKey(f), threshold) == Success(Some(Band(col, threshold)));
  }

  /** Every item of a tuple key is an ABN member whose column the table has. */
  predicate ColumnsPresent(rows: seq<seq<real>>, items: seq<Key>) {
    && IsMatrix(rows)
    && forall k :: 0 <= k < |items| ==> items[k].AbnKey? && AbnIndex(items[k].abn) < |rows[0]|
  }

  /** The value a tuple key tests in row k. */
  function TupleSum(rows: seq<seq<real>>, items: seq<Key>, k: nat): real
    requires ColumnsPresent(rows, items) && k < |rows|
  {
    RowSum(rows[k], items, |items|)
  }

  /** A tuple of ABN members the table has: (first, last) among the rows
      whose summed value exceeds the threshold, (-1, -1) when there is none. */
  lemma TupleBand(rows: seq<seq<real>>, items: seq<Key>, threshold: real)
    requires ColumnsPresent(rows, items)
    ensures var r := ElementData(rows, TupleKey(items), threshold);
      && r.Success? && r.value.Some?
      && (r.value.value == (-1, -1) <==> forall k :: 0 <= k < |rows| ==> TupleSum(rows, items, k) <= threshold)
      && (r.value.value != (-1, -1) ==>
            var (first, last) := r.value.value;
            && 0 <= first <= last < |rows|
            && TupleSum(rows, items, first) > threshold && TupleSum(rows, items, last) > threshold
            && (forall k :: 0 <= k < first ==> TupleSum(rows, items, k) <= threshold)
            && (forall k :: last < k < |rows| ==> TupleSum(rows, items, k) <= threshold))
  {
    SumColumnsSpec(rows, items, |items|);
    var sums := SumColumns(rows, items, |items|).value;
    assert forall k :: 0 <= k < |rows| ==> sums[k] == TupleSum(rows, items, k);
    BandSpec(sums, threshold);
    TupleKeyBand(rows, items, threshold);
  }

  /** A tuple key whose sums can be formed is tested through the band of the sums. */
  lemma TupleKeyBand(rows: seq<seq<real>>, items: seq<Key>, threshold: real)
    requires Rectangular(rows) && SumColumns(rows, items, |items|).Success?
    ensures ElementData(rows, TupleKey(items), threshold)
              == Success(Some(Band(SumColumns(rows, items, |items|).value, threshold)))
  {
  }

  /** A tuple of one element finds the same band as that element alone. */
  lemma SingletonTuple(rows: seq<seq<real>>, f: AbnField, threshold: real)
    requires IsMatrix(rows)
    ensures ElementData(rows, TupleKey([AbnKey(f)]), threshold) == ElementData(rows, AbnKey(f), threshold)
  {
    ColumnAsSum(rows, f);
    assert ElementData(rows, TupleKey([AbnKey(f)]), threshold) == BandOf(SumColumns(rows, [AbnKey(f)], 1), threshold);
    assert ElementData(rows, AbnKey(f), threshold) == BandOf(Column(rows, AbnIndex(f)), threshold);
  }

  /** Accumulating the one column of a singleton tuple gives that column,
      or the same failure. */
  lemma ColumnAsSum(rows: seq<seq<real>>, f: AbnField)
    requires IsMatrix(rows)
    ensures SumColumns(rows, [AbnKey(f)], 1) == Column(rows, AbnIndex(f))
  {
    var items := [AbnKey(f)];
    var zeros := SumColumns(rows, items, 0);
    assert zeros == Success(seq(|rows|, _ => 0.0));
    var sums := SumColumns(rows, items, 1);
    assert sums == AddColumn(rows, zeros.value, AbnKey(f));
    var col := Column(rows, AbnIndex(f));
    if col.Success? {
      assert forall r :: 0 <= r < |rows| ==> sums.value[r] == col.value[r];
      assert sums.value == col.value;
    }
  }

  /** An empty tuple sums nothing: every row tests 0.0, so with a
      non-negative threshold no zone is found. */
  lemma EmptyTuple(rows: seq<seq<real>>, threshold: real)
    requires IsMatrix(rows) && threshold >= 0.0
    ensures ElementData(rows, TupleKey([]), threshold) == Success(Some((-1, -1)))
  {
  }

  class AbnParser {
    const filename: string
    var data: seq<seq<real>>

    ghost predicate Valid()
      reads this
    {
      Rectangular(data)
    }

    constructor (filename: string)
      ensures this.filename == filename && data == []
    {
      this.filename := filename;
      data := [];
    }

    /** _store_data: the loaded table; a ragged one is np.loadtxt's ValueError. */
    method StoreData(rows: seq<seq<real>>) returns (outcome: Outcome)
      modifies this
      ensures outcome.Pass? <==> Rectangular(rows)
      ensures outcome.Fail? ==> outcome.error == BadShape && unchanged(this)
      ensures outcome.Pass? ==> data == rows && Valid()
    {
      if !Rectangular(rows) {
        return Fail(BadShape);
      }
      data := rows;
      return Pass;
    }

    /** get_element_data(key, threshold). */
    method GetElementData(key: Key, threshold: real := DefaultThreshold) returns (r: Result<Option<(int, int)>>)
      requires Valid()
      ensures r == ElementData(data, key, threshold)
    {
      match key {
        case AbnKey(f) =>
          var col := Column(data, AbnIndex(f));
          if col.Failure? {
            return Failure(col.error);
          }
          return Success(Some(Band(col.value, threshold)));
        case TupleKey(items) =>
          var sums := AccumulateColumns(items);
          if sums.Failure? {
            return Failure(sums.error);
          }
          return Success(Some(Band(sums.value, threshold)));
        case _ =>
          return Success(None);
      }
    }

    /** The tuple case of get_element_data: a zero array of length
        `data.shape[0]` to which each listed column is added in place. */
    method AccumulateColumns(items: seq<Key>) returns (r: Result<seq<real>>)
      requires Valid()
      ensures r == SumColumns(data, items, |items|)
    {
      var rows := data;
      var n := Length(rows);
      if n.Failure? {
        SumFailureStays(rows, items, 0, |items|);
        return Failure(n.error);
      }
      var acc := new real[n.value](_ => 0.0);
      assert acc[..] == seq(n.value, _ => 0.0);
      var w := 0;
      while w < |items|
        invariant 0 <= w <= |items|
        invariant SumColumns(rows, items, w) == Success(acc[..])
      {
        if !items[w].AbnKey? {
          SumFailureStays(rows, items, w + 1, |items|);
          return Failure(MissingKey);
        }
        var col := Column(rows, AbnIndex(items[w].abn));
        if col.Failure? {
          SumFailureStays(rows, items, w + 1, |items|);
          return Failure(col.error);
        }
        SumColumnsStep(rows, items, w, acc[..]);
        ghost var added := AddColumn(rows, acc[..], items[w]).value;
        AddInto(acc, col.value);
        assert forall k :: 0 <= k < acc.Length ==> acc[k] == added[k];
        assert acc[..] == added;
        w := w + 1;
      }
      return Success(acc[..]);
    }
  }

  /** `acc += col`, element by element. */
  method AddInto(acc: array<real>, col: seq<real>)
    requires |col| == acc.Length
    modifies acc
    ensures forall k :: 0 <= k < acc.Length ==> acc[k] == old(acc[k]) + col[k]
  {
    var i := 0;
    while i < acc.Length
      invariant 0 <= i <= acc.Length
      invariant forall k :: 0 <= k < i ==> acc[k] == old(acc[k]) + col[k]
      invariant forall k :: i <= k < acc.Length ==> acc[k] == old(acc[k])
    {
      acc[i] := acc[i] + col[i];
      i := i + 1;
    }
  }

  /** Once the accumulation has failed, a longer prefix fails the same way. */
  lemma {:induction false} SumFailureStays(rows: seq<seq<real>>, items: seq<Key>, w: nat, v: nat)
    requires Rectangular(rows) && w <= v <= |items|
    requires SumColumns(rows, items, w).Failure?
    ensures SumColumns(rows, items, v) == SumColumns(rows, items, w)
    decreases v - w
  {
    if w < v {
      SumFailureStays(rows, items, w, v - 1);
    }
  }

  /** ABNParser(path): the stem of the file is the last component of the path. */
  method OpenAbn(path: string, isDir: bool, isFile: bool,
                 loadtxt: string -> Result<seq<seq<real>>>)
    returns (r: Result<AbnParser>)
    ensures var f := Paths.Resolve(path, Paths.LastSegment(path), ".abn", isDir, isFile);
      r.Success? <==> && f.Success? && loadtxt(f.value).Success? && Rectangular(loadtxt(f.value).value)
    ensures r.Success? ==>
      var f := Paths.Resolve(path, Paths.LastSegment(path), ".abn", isDir, isFile).value;
      r.value.filename == f && r.value.data == loadtxt(f).value && r.value.Valid()
  {
    var f := Paths.Resolve(path, Paths.LastSegment(path), ".abn", isDir, isFile);
    if f.Failure? {
      return Failure(f.error);
    }
    var rows := loadtxt(f.value);
    if rows.Failure? {
      return Failure(rows.error);
    }
    var p := new AbnParser(f.value);
    var outcome := p.StoreData(rows.value);
    if outcome.Fail? {
      return Failure(outcome.error);
    }
    return Success(p);
  }
}
