/** The SWD snapshot parser (stella/parser/swd.py). The file is one table
    of 13-column rows; consecutive runs of `num_zon` rows form one time step,
    and the table is regrouped as data[step][zone][field]. The table as
    np.loadtxt returns it is an input. */
module Swd {
  import opened Common
  import opened Config
  import Paths

  type Grid = seq<seq<seq<real>>>

  // ------------------------------------------------------------ arithmetic

  lemma DivModUnique(a: int, d: int, q: int, m: int)
    requires d > 0 && a == q * d + m && 0 <= m < d
    ensures a / d == q && a % d == m
  {
    var q', m' := a / d, a % d;
    assert (q - q') * d == m' - m;
    if q != q' {
      MulAwayFromZero(q - q', d);
    }
  }

  lemma MulAwayFromZero(k: int, d: int)
    requires d > 0 && k != 0
    ensures k * d >= d || k * d <= -d
  {
    if k > 0 {
      MulLe(1, k, d);
    } else {
      MulLe(1, -k, d);
      assert (-k) * d == -(k * d);
    }
  }

  lemma MulLe(a: nat, b: nat, c: nat)
    requires a <= b
    ensures a * c <= b * c
  {
  }

  lemma MulLtCancel(a: nat, b: nat, c: nat)
    requires a * c < b * c
    ensures a < b
  {
    if a >= b {
      MulLe(b, a, c);
    }
  }

  lemma ExactQuotient(len: nat, d: nat)
    requires d > 0 && len % d == 0
    ensures (len / d) * d == len
    ensures len > 0 ==> len / d >= 1
  {
  }

  lemma CancelColumns(n: nat, nz: nat, steps: nat)
    requires nz > 0 && steps * (nz * SwdColumns) == n * SwdColumns
    ensures steps * nz == n
  {
  }

  lemma StepOf(r: nat, nz: nat, steps: nat)
    requires nz > 0 && r < steps * nz
    ensures r / nz < steps && (r / nz) * nz + r % nz == r
  {
    MulLtCancel(r / nz, steps, nz);
  }

  /** Cell (s, z) of a grid of steps of nz cells of width cols lies inside
      a stream of length len. */
  lemma CellInside(len: nat, nz: nat, cols: nat, s: nat, z: nat)
    requires nz > 0 && cols > 0 && z < nz && s < len / (nz * cols)
    ensures (s * nz + z) * cols + cols <= len
  {
    var q := len / (nz * cols);
    assert q * (nz * cols) <= len;
    MulLe(s * nz + z + 1, s * nz + nz, cols);
    assert (s * nz + z) * cols + cols == (s * nz + z + 1) * cols;
    MulLe(s + 1, q, nz * cols);
    assert (s * nz + nz) * cols == (s + 1) * (nz * cols);
  }

  // ------------------------------------------------------------ the table

  /** Every row has as many values as the first (np.loadtxt raises otherwise). */
  predicate Rectangular(rows: seq<seq<real>>) {
    forall r :: 0 <= r < |rows| ==> |rows[r]| == |rows[0]|
  }

  /** The values of the table row after row. */
  function Flatten(rows: seq<seq<real>>): (flat: seq<real>)
    ensures |rows| > 0 && Rectangular(rows) ==> |flat| == |rows| * |rows[0]|
  {
    if rows == [] then []
    else
      var init := rows[..|rows| - 1];
      var flat := Flatten(init) + rows[|rows| - 1];
      assert |rows| > 0 && Rectangular(rows) ==> |init| == 0 || (Rectangular(init) && |init[0]| == |rows[0]|);
      flat
  }

  /** Row r of a table of width w occupies positions r*w .. r*w+w of the flat stream. */
  lemma {:induction false} FlattenRow(rows: seq<seq<real>>, w: nat, r: nat)
    requires forall k :: 0 <= k < |rows| ==> |rows[k]| == w
    requires r < |rows|
    ensures |Flatten(rows)| == |rows| * w
    ensures r * w + w <= |Flatten(rows)| && Flatten(rows)[r * w .. r * w + w] == rows[r]
  {
    var n := |rows|;
    var init := rows[..n - 1];
    if n - 1 == 0 {
      assert Flatten(rows) == rows[0];
    } else {
      FlattenLength(init, w);
      if r < n - 1 {
        FlattenRow(init, w, r);
        MulLe(r + 1, n - 1, w);
        assert Flatten(rows)[r * w .. r * w + w] == Flatten(init)[r * w .. r * w + w];
      } else {
        assert |Flatten(init)| == r * w;
      }
    }
  }

  lemma {:induction false} FlattenLength(rows: seq<seq<real>>, w: nat)
    requires forall k :: 0 <= k < |rows| ==> |rows[k]| == w
    ensures |Flatten(rows)| == |rows| * w
  {
    if rows != [] {
      FlattenLength(rows[..|rows| - 1], w);
    }
  }

  /** The k-th run of cols values of the flat stream. */
  function Chunk(flat: seq<real>, cols: nat, k: nat): (c: seq<real>)
    requires k * cols + cols <= |flat|
    ensures |c| == cols
  {
    flat[k * cols .. k * cols + cols]
  }

  /** One cell of `flat.reshape(-1, nz, cols)`: the cols values of zone z of step s. */
  function Cell(flat: seq<real>, nz: nat, cols: nat, s: nat, z: nat): (c: seq<real>)
    requires nz > 0 && cols > 0 && z < nz && s < |flat| / (nz * cols)
    ensures |c| == cols
  {
    CellInside(|flat|, nz, cols, s, z);
    Chunk(flat, cols, s * nz + z)
  }

  /** `flat.reshape(-1, nz, cols)`; defined when nz * cols divides the length. */
  function Reshape(flat: seq<real>, nz: nat, cols: nat): (g: Grid)
    requires nz > 0 && cols > 0
    ensures |g| == |flat| / (nz * cols)
    ensures forall s :: 0 <= s < |g| ==> |g[s]| == nz
    ensures forall s, z :: 0 <= s < |g| && 0 <= z < nz ==> |g[s][z]| == cols
  {
    seq(|flat| / (nz * cols), s requires 0 <= s < |flat| / (nz * cols) =>
      seq(nz, z requires 0 <= z < nz => Cell(flat, nz, cols, s, z)))
  }

  ghost predicate Increasing(p: seq<nat>) {
    forall k, l :: 0 <= k < l < |p| ==> p[k] < p[l]
  }

  lemma IncreasingLe(p: seq<nat>, k: nat, l: nat)
    requires Increasing(p) && k <= l < |p|
    ensures p[k] <= p[l]
  {
  }

  /** `np.where(data[:, 0] > 0)[0]`: the rows whose first value is positive,
      in increasing order. */
  function Positive(rows: seq<seq<real>>): (p: seq<nat>)
    requires forall r :: 0 <= r < |rows| ==> |rows[r]| > 0
    ensures forall k :: 0 <= k < |p| ==> p[k] < |rows|
  {
    if rows == [] then []
    else
      var n := |rows|;
      Positive(rows[..n - 1]) + if rows[n - 1][0] > 0.0 then [n - 1] else []
  }

  /** Positive lists exactly the rows with a positive first value, in
      increasing order. */
  lemma {:induction false} PositiveSpec(rows: seq<seq<real>>)
    requires forall r :: 0 <= r < |rows| ==> |rows[r]| > 0
    ensures forall k :: 0 <= k < |Positive(rows)| ==> rows[Positive(rows)[k]][0] > 0.0
    ensures forall r :: 0 <= r < |rows| && rows[r][0] > 0.0 ==> r in Positive(rows)
    ensures Increasing(Positive(rows))
  {
    if rows != [] {
      var n := |rows|;
      var init := rows[..n - 1];
      PositiveSpec(init);
      assert forall r :: 0 <= r < n - 1 ==> init[r] == rows[r];
    }
  }

  /** num_zon: the distance from the first row with a positive first value to
      the next such row, plus one. */
  function ZoneCount(rows: seq<seq<real>>): (r: Result<nat>)
    requires forall k :: 0 <= k < |rows| ==> |rows[k]| > 0
    ensures r.Success? ==> r.value >= 2
  {
    PositiveSpec(rows);
    var p := Positive(rows);
    if |p| < 2 then Failure(IndexOutOfRange) else Success(p[1] - p[0] + 1)
  }

  /** Row p is the first positive row and row q the next one. */
  ghost predicate FirstTwoPositive(rows: seq<seq<real>>, p: nat, q: nat)
    requires forall k :: 0 <= k < |rows| ==> |rows[k]| > 0
  {
    && p < q < |rows| && rows[p][0] > 0.0 && rows[q][0] > 0.0
    && forall r :: 0 <= r < q && r != p ==> rows[r][0] <= 0.0
  }

  /** The zone count exists exactly when two rows have a positive first
      value, and then it spans the first two of them. */
  lemma ZoneCountSpec(rows: seq<seq<real>>)
    requires forall k :: 0 <= k < |rows| ==> |rows[k]| > 0
    ensures ZoneCount(rows).Success? <==> exists p, q :: FirstTwoPositive(rows, p, q)
    ensures forall p, q :: FirstTwoPositive(rows, p, q) ==> ZoneCount(rows) == Success(q - p + 1)
  {
    var ps := Positive(rows);
    PositiveSpec(rows);
    if |ps| >= 2 {
      forall r | 0 <= r < |rows| ensures rows[r][0] > 0.0 ==> r == ps[0] || r >= ps[1] {
        if rows[r][0] > 0.0 {
          var k :| 0 <= k < |ps| && ps[k] == r;
          if k >= 1 {
            IncreasingLe(ps, 1, k);
          }
        }
      }
      assert FirstTwoPositive(rows, ps[0], ps[1]);
    }
    forall p, q | FirstTwoPositive(rows, p, q) ensures ZoneCount(rows) == Success(q - p + 1) {
      assert p in ps && q in ps;
      var kp :| 0 <= kp < |ps| && ps[kp] == p;
      var kq :| 0 <= kq < |ps| && ps[kq] == q;
      IncreasingLe(ps, 0, kp);
      assert ps[0] == p;
      assert kq >= 1;
      IncreasingLe(ps, 1, kq);
      assert ps[1] == q;
    }
  }

  /** The grid after _store_data, with its zone count. */
  datatype SwdGrid = SwdGrid(data: Grid, numZon: nat)

  /** _store_data: check the table, count the zones, regroup the rows. A
      table with fewer than two rows or columns is one-dimensional once
      loaded, and indexing its column 0 raises IndexError. */
  function SwdLoad(rows: seq<seq<real>>): (r: Result<SwdGrid>)
    ensures r.Success? ==> && |r.value.data| >= 1 && r.value.numZon >= 2
                           && (forall s :: 0 <= s < |r.value.data| ==> |r.value.data[s]| == r.value.numZon)
                           && (forall s, z :: 0 <= s < |r.value.data| && 0 <= z < r.value.numZon ==>
                                 |r.value.data[s][z]| == SwdColumns)
    ensures r.Success? <==> && Rectangular(rows) && |rows| >= 2 && |rows[0]| >= 2
                            && ZoneCount(rows).Success?
                            && |rows| * |rows[0]| % (ZoneCount(rows).value * SwdColumns) == 0
    ensures r.Success? ==> r.value.numZon == ZoneCount(rows).value
  {
    if !Rectangular(rows) then Failure(BadShape)
    else if |rows| < 2 || |rows[0]| < 2 then Failure(IndexOutOfRange)
    else if ZoneCount(rows).Failure? then Failure(ZoneCount(rows).error)
    else
      var nz := ZoneCount(rows).value;
      ZoneCountSpec(rows);
      var flat := Flatten(rows);
      if |flat| % (nz * SwdColumns) != 0 then Failure(BadShape)
      else
        ExactQuotient(|flat|, nz * SwdColumns);
        Success(SwdGrid(Reshape(flat, nz, SwdColumns), nz))
  }

  /** On a table of 13-column rows, row r lands in step r / num_zon at zone
      r % num_zon, and there are |rows| / num_zon steps. */
  lemma RowLands(rows: seq<seq<real>>, r: nat)
    requires SwdLoad(rows).Success? && |rows[0]| == SwdColumns && r < |rows|
    ensures var g := SwdLoad(rows).value;
      && |rows| == |g.data| * g.numZon
      && r / g.numZon < |g.data| && g.data[r / g.numZon][r % g.numZon] == rows[r]
  {
    var g := SwdLoad(rows).value;
    assert g == SwdGrid(Reshape(Flatten(rows), g.numZon, SwdColumns), g.numZon);
    ReshapeRow(rows, g.numZon, r);
  }

  lemma ReshapeRow(rows: seq<seq<real>>, nz: nat, r: nat)
    requires forall k :: 0 <= k < |rows| ==> |rows[k]| == SwdColumns
    requires nz > 0 && r < |rows| && |Flatten(rows)| % (nz * SwdColumns) == 0
    ensures var g := Reshape(Flatten(rows), nz, SwdColumns);
      && |rows| == |g| * nz && r / nz < |g| && g[r / nz][r % nz] == rows[r]
  {
    var flat := Flatten(rows);
    FlattenRow(rows, SwdColumns, r);
    Placement(|rows|, nz, |flat|, r);
    ReshapeAt(flat, nz, r);
  }

  /** The arithmetic of the regrouping: n rows of 13 values in groups of
      nz rows make n / nz steps, and row r is zone r % nz of step r / nz. */
  lemma Placement(n: nat, nz: nat, len: nat, r: nat)
    requires nz > 0 && len == n * SwdColumns && len % (nz * SwdColumns) == 0 && r < n
    ensures len / (nz * SwdColumns) * nz == n
    ensures r / nz < len / (nz * SwdColumns) && (r / nz) * nz + r % nz == r && 0 <= r % nz < nz
  {
    var steps := len / (nz * SwdColumns);
    ExactQuotient(len, nz * SwdColumns);
    CancelColumns(n, nz, steps);
    StepOf(r, nz, steps);
  }

  /** Cell (r / nz, r % nz) of the regrouped stream is the r-th run of 13 values. */
  lemma ReshapeAt(flat: seq<real>, nz: nat, r: nat)
    requires nz > 0 && r / nz < |flat| / (nz * SwdColumns) && (r / nz) * nz + r % nz == r && 0 <= r % nz < nz
    ensures r * SwdColumns + SwdColumns <= |flat|
    ensures Reshape(flat, nz, SwdColumns)[r / nz][r % nz] == Chunk(flat, SwdColumns, r)
  {
    CellInside(|flat|, nz, SwdColumns, r / nz, r % nz);
  }

  // ------------------------------------------------------------ the parser

  class SwdParser {
    const filename: string
    var data: Grid
    var numZon: nat

    ghost predicate Valid()
      reads this
    {
      && |data| >= 1 && numZon >= 1
      && (forall s :: 0 <= s < |data| ==> |data[s]| == numZon)
      && (forall s, z :: 0 <= s < |data| && 0 <= z < numZon ==> |data[s][z]| == SwdColumns)
    }

    constructor (filename: string)
      ensures this.filename == filename && data == [] && numZon == 0
    {
      this.filename := filename;
      data := [];
      numZon := 0;
    }

    /** _store_data: the two fields are set once from the loaded table. */
    method StoreData(rows: seq<seq<real>>) returns (outcome: Outcome)
      modifies this
      ensures outcome.Pass? <==> SwdLoad(rows).Success?
      ensures outcome.Fail? ==> SwdLoad(rows) == Failure(outcome.error)
      ensures outcome.Pass? ==> data == SwdLoad(rows).value.data && numZon == SwdLoad(rows).value.numZon && Valid()
      ensures outcome.Fail? ==> unchanged(this)
    {
      var grid := SwdLoad(rows);
      if grid.Failure? {
        return Fail(grid.error);
      }
      data := grid.value.data;
      numZon := grid.value.numZon;
      return Pass;
    }

    /** times: column 0 of zone 0 of every step. */
    function Times(): (ts: seq<real>)
      reads this
      requires Valid()
      ensures |ts| == |data| && forall s :: 0 <= s < |ts| ==> ts[s] == data[s][0][SwdIndex(SwdField.Time)]
    {
      var d := data;
      SwdNamedColumns();
      seq(|d|, s requires 0 <= s < |d| => d[s][0][0])
    }

    /** time2idx: each time to the position of its step; a repeated time maps
        to its last step. */
    function Time2Idx(): (m: map<real, nat>)
      reads this
      requires Valid()
      ensures forall t :: t in m <==> t in Times()
      ensures forall t :: t in m ==> m[t] < |data| && Times()[m[t]] == t
      ensures forall t, s :: t in m && m[t] < s < |data| ==> Times()[s] != t
    {
      Enumerate(Times())
    }

    /** zons: 1.0, 2.0, ..., num_zon. */
    function Zons(): (zs: seq<real>)
      reads this
      ensures |zs| == numZon && forall z :: 0 <= z < numZon ==> zs[z] == (z + 1) as real
    {
      seq(numZon, z => (z + 1) as real)
    }

    /** mass: the MASS column of every zone of the first step. */
    function Mass(): (ms: seq<real>)
      reads this
      requires Valid()
      ensures |ms| == numZon && forall z :: 0 <= z < numZon ==> ms[z] == data[0][z][SwdIndex(SwdField.Mass)]
    {
      var d, nz := data, numZon;
      SwdNamedColumns();
      seq(nz, z requires 0 <= z < nz => d[0][z][2])
    }

    /** get_value_of_key(key): for an SWD member, its column as a zone-by-time
        table; for anything else None (the KeyError is caught). */
    function GetValueOfKey(key: Key): (r: Option<seq<seq<real>>>)
      reads this
      requires Valid()
      ensures r.Some? <==> key.SwdKey?
      ensures r.Some? ==> && |r.value| == numZon
                          && forall z :: 0 <= z < numZon ==>
                               |r.value[z]| == |data| &&
                               forall t :: 0 <= t < |data| ==> r.value[z][t] == data[t][z][SwdIndex(key.swd)]
    {
      match key
      case SwdKey(f) =>
        var d, nz, idx := data, numZon, SwdIndex(f);
        Some(seq(nz, z requires 0 <= z < nz =>
          seq(|d|, t requires 0 <= t < |d| => d[t][z][idx])))
      case _ => None
    }
  }

  /** On strictly increasing times every time maps back to its own step. */
  lemma Time2IdxInverse(p: SwdParser, s: nat)
    requires p.Valid() && s < |p.data|
    requires forall a, b :: 0 <= a < b < |p.data| ==> p.Times()[a] < p.Times()[b]
    ensures p.Times()[s] in p.Time2Idx() && p.Time2Idx()[p.Times()[s]] == s
  {
    EnumerateDistinct(p.Times(), s);
  }

  /** The table row that zone z of step s is read from. */
  function RowOf(s: nat, z: nat, nz: nat): nat {
    s * nz + z
  }

  /** s * nz + z splits back into step s and zone z. */
  lemma SplitIndex(s: nat, z: nat, nz: nat, steps: nat)
    requires z < nz && s < steps
    ensures RowOf(s, z, nz) < steps * nz && RowOf(s, z, nz) / nz == s && RowOf(s, z, nz) % nz == z
  {
    MulLe(s + 1, steps, nz);
    DivModUnique(s * nz + z, nz, s, z);
  }

  /** Conversely, zone z of step s holds row s * num_zon + z of the table. */
  lemma CellHoldsRow(rows: seq<seq<real>>, g: SwdGrid, s: nat, z: nat)
    requires SwdLoad(rows) == Success(g) && |rows[0]| == SwdColumns
    requires s < |g.data| && z < g.numZon
    ensures RowOf(s, z, g.numZon) < |rows| && g.data[s][z] == rows[RowOf(s, z, g.numZon)]
  {
    RowLands(rows, 0);
    SplitIndex(s, z, g.numZon, |g.data|);
    RowLands(rows, RowOf(s, z, g.numZon));
  }

  /** SWDParser(path, prefix): resolve `<prefix>.swd`, load the table, store it. */
  method OpenSwd(path: string, prefix: string, isDir: bool, isFile: bool,
                 loadtxt: string -> Result<seq<seq<real>>>)
    returns (r: Result<SwdParser>)
    ensures var f := Paths.Resolve(path, prefix, ".swd", isDir, isFile);
      r.Success? <==> && f.Success? && loadtxt(f.value).Success?
                      && SwdLoad(loadtxt(f.value).value).Success?
    ensures r.Success? ==>
      var f := Paths.Resolve(path, prefix, ".swd", isDir, isFile).value;
      var g := SwdLoad(loadtxt(f).value).value;
      && r.value.filename == f && r.value.Valid()
      && r.value.data == g.data && r.value.numZon == g.numZon
  {
    var f := Paths.Resolve(path, prefix, ".swd", isDir, isFile);
    if f.Failure? {
      return Failure(f.error);
    }
    var rows := loadtxt(f.value);
    if rows.Failure? {
      return Failure(rows.error);
    }
    var p := new SwdParser(f.value);
    var outcome := p.StoreData(rows.value);
    if outcome.Fail? {
      return Failure(outcome.error);
    }
    return Success(p);
  }
}
