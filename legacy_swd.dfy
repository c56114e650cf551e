/** The first-generation SWD parser (parser/swd.py). It loads and regroups
    the table exactly as the current parser does; its column view is
    np.rot90 of the time-by-zone slice instead of its transpose, so zones
    come out in reverse order. */
module LegacySwd {
  import opened Common
  import opened Config
  import Paths
  import Swd

  class LegacySwdParser {
    const filename: string
    var data: Swd.Grid
    var numZon: nat

    ghost predicate Valid()
      reads this
    {
      && |data| >= 1 && numZon >= 1
      && (forall s :: 0 <= s < |data| ==> |data[s]| == numZon)
      && (forall s, z :: 0 <= s < |data| && 0 <= z < numZon ==> |data[s][z]| == SwdColumns)
    }

    constructor (filename: string)
      ensures this.filename == filename && data == [] && numZon == 0
    {
      this.filename := filename;
      data := [];
      numZon := 0;
    }

    /** _store_data: the same zone count and regrouping as the current parser. */
    method StoreData(rows: seq<seq<real>>) returns (outcome: Outcome)
      modifies this
      ensures outcome.Pass? <==> Swd.SwdLoad(rows).Success?
      ensures outcome.Fail? ==> Swd.SwdLoad(rows) == Failure(outcome.error)
      ensures outcome.Pass? ==> && data == Swd.SwdLoad(rows).value.data
                                && numZon == Swd.SwdLoad(rows).value.numZon && Valid()
      ensures outcome.Fail? ==> unchanged(this)
    {
      var grid := Swd.SwdLoad(rows);
      if grid.Failure? {
        return Fail(grid.error);
      }
      data := grid.value.data;
      numZon := grid.value.numZon;
      return Pass;
    }

    /** times: column 0 of zone 0 of every step. */
    function Times(): (ts: seq<real>)
      reads this
      requires Valid()
      ensures |ts| == |data| && forall s :: 0 <= s < |ts| ==> ts[s] == data[s][0][SwdIndex(SwdField.Time)]
    {
      var d := data;
      SwdNamedColumns();
      seq(|d|, s requires 0 <= s < |d| => d[s][0][0])
    }

    /** zons: 1.0, 2.0, ..., num_zon. */
    function Zons(): (zs: seq<real>)
      reads this
      ensures |zs| == numZon && forall z :: 0 <= z < numZon ==> zs[z] == (z + 1) as real
    {
      seq(numZon, z => (z + 1) as real)
    }

    /** mass: the MASS column of every zone of the first step. */
    function Mass(): (ms: seq<real>)
      reads this
      requires Valid()
      ensures |ms| == numZon && forall z :: 0 <= z < numZon ==> ms[z] == data[0][z][SwdIndex(SwdField.Mass)]
    {
      var d, nz := data, numZon;
      SwdNamedColumns();
      seq(nz, z requires 0 <= z < nz => d[0][z][2])
    }

    /** get_value_of_key(key): np.rot90 of the time-by-zone slice of an SWD
        member's column, so row z holds zone num_zon - 1 - z; None for
        anything else. */
    function GetValueOfKey(key: Key): (r: Option<seq<seq<real>>>)
      reads this
      requires Valid()
      ensures r.Some? <==> key.SwdKey?
      ensures r.Some? ==> && |r.value| == numZon
                          && forall z :: 0 <= z < numZon ==>
                               |r.value[z]| == |data| &&
                               forall t :: 0 <= t < |data| ==>
                                 r.value[z][t] == data[t][numZon - 1 - z][SwdIndex(key.swd)]
    {
      match key
      case SwdKey(f) =>
        var d, nz, idx := data, numZon, SwdIndex(f);
        Some(seq(nz, z requires 0 <= z < nz =>
          seq(|d|, t requires 0 <= t < |d| => d[t][nz - 1 - z][idx])))
      case _ => None
    }
  }

  /** On the same grid the legacy view is the current view with the zone
      order reversed: row z of one is row num_zon - 1 - z of the other. */
  lemma ZonesReversed(legacy: LegacySwdParser, current: Swd.SwdParser, key: Key)
    requires legacy.Valid() && current.Valid()
    requires legacy.data == current.data && legacy.numZon == current.numZon
    ensures legacy.GetValueOfKey(key).Some? <==> current.GetValueOfKey(key).Some?
    ensures legacy.GetValueOfKey(key).Some? ==>
      forall z :: 0 <= z < legacy.numZon ==>
        legacy.GetValueOfKey(key).value[z] == current.GetValueOfKey(key).value[legacy.numZon - 1 - z]
  {
  }

  /** SWDParser(path): the stem of the file is the last component of the path. */
  method OpenLegacySwd(path: string, isDir: bool, isFile: bool,
                       loadtxt: string -> Result<seq<seq<real>>>)
    returns (r: Result<LegacySwdParser>)
    ensures var f := Paths.Resolve(path, Paths.LastSegment(path), ".swd", isDir, isFile);
      r.Success? <==> && f.Success? && loadtxt(f.value).Success?
                      && Swd.SwdLoad(loadtxt(f.value).value).Success?
    ensures r.Success? ==>
      var f := Paths.Resolve(path, Paths.LastSegment(path), ".swd", isDir, isFile).value;
      var g := Swd.SwdLoad(loadtxt(f).value).value;
      && r.value.filename == f && r.value.Valid()
      && r.value.data == g.data && r.value.numZon == g.numZon
  {
    var f := Paths.Resolve(path, Paths.LastSegment(path), ".swd", isDir, isFile);
    if f.Failure? {
      return Failure(f.error);
    }
    var rows := loadtxt(f.value);
    if rows.Failure? {
      return Failure(rows.error);
    }
    var p := new LegacySwdParser(f.value);
    var outcome := p.StoreData(rows.value);
    if outcome.Fail? {
      return Failure(outcome.error);
    }
    return Success(p);
  }
}
