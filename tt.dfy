/** The TT time-series parser (stella/parser/tt.py): one record of TT fields
    per simulation time, read from the table that follows the `time` header
    line, plus the stellar mass and radius from the `MASS(SOLAR)=` line. */
module Tt {
  import opened Common
  import opened Config
  import opened OrderedMaps
  import Paths

  type TtRecord = map<TtField, real>

  datatype StellarInfo = StellarInfo(mass: real, radius: real)

  const MassToken: string := "MASS(SOLAR)="

  predicate IsSentinel(line: Line) {
    |line| > 0 && line[0] == TtTimePrefix
  }

  /** The first w entries of `{k: float(v) for k, v in zip(TT, values)}`. */
  function ZipPrefix(values: seq<string>, toFloat: FloatParser, w: nat): (r: Result<TtRecord>)
    requires w <= |values| && w <= |TtFields|
    ensures r.Success? <==> forall k :: 0 <= k < w ==> toFloat(values[k]).Some?
  {
    if w == 0 then Success(map[])
    else
      var rec :- ZipPrefix(values, toFloat, w - 1);
      var x :- ParseNumber(toFloat, values[w - 1]);
      Success(rec[TtFields[w - 1] := x])
  }

  /** The record built from the first w values holds exactly the first w
      fields, each parsed from the value in its own column. */
  lemma {:induction false} ZipPrefixFields(values: seq<string>, toFloat: FloatParser, w: nat)
    requires w <= |values| && w <= |TtFields|
    requires ZipPrefix(values, toFloat, w).Success?
    ensures var rec := ZipPrefix(values, toFloat, w).value;
      && (forall f :: f in rec <==> TtIndex(f) < w)
      && (forall f :: f in rec ==> rec[f] == toFloat(values[TtIndex(f)]).value)
  {
    if w > 0 {
      ZipPrefixFields(values, toFloat, w - 1);
      var prev := ZipPrefix(values, toFloat, w - 1).value;
      var field := TtFields[w - 1];
      var rec := ZipPrefix(values, toFloat, w).value;
      assert rec == prev[field := toFloat(values[w - 1]).value];
      assert TtIndex(field) == w - 1 by { TtIndexValues(); }
      forall f
        ensures f in rec <==> TtIndex(f) < w
        ensures f in rec ==> rec[f] == toFloat(values[TtIndex(f)]).value
      {
        if f != field {
          assert TtIndex(f) != w - 1;
          assert f in rec <==> f in prev;
        }
      }
    }
  }

  /** `{k: float(v) for k, v in zip(TT, values)}`: the values are paired
      with the TT fields in declaration order, up to the shorter of the two. */
  function TtValues(values: seq<string>, toFloat: FloatParser): (r: Result<TtRecord>)
    ensures r.Success? <==> forall k :: 0 <= k < |values| && k < |TtFields| ==> toFloat(values[k]).Some?
    ensures r.Success? ==> forall f :: f in r.value <==> TtIndex(f) < |values|
    ensures r.Success? ==> forall f :: f in r.value ==> r.value[f] == toFloat(values[TtIndex(f)]).value
  {
    var r := ZipPrefix(values, toFloat, Min(|values|, |TtFields|));
    if r.Success? then ZipPrefixFields(values, toFloat, Min(|values|, |TtFields|)); r else r
  }

  /** What the parse has built after some lines: the recording flag, the
      time-indexed table and the stellar information. */
  datatype TtScan = TtScan(recording: bool, data: OrderedMap<real, TtRecord>, info: Option<StellarInfo>)

  function TtStart(): TtScan {
    TtScan(false, Empty(), None)
  }

  /** stellar_info is filled from the first line holding the token
      `MASS(SOLAR)=`: MASS from token 1, RADIUS from the last token. */
  function CaptureInfo(info: Option<StellarInfo>, line: Line, toFloat: FloatParser): (r: Result<Option<StellarInfo>>)
    requires |line| > 0
  {
    if info.Some? || MassToken !in line then Success(info)
    else if |line| < 2 then Failure(IndexOutOfRange)
    else
      var mass :- ParseNumber(toFloat, line[1]);
      var radius :- ParseNumber(toFloat, line[|line| - 1]);
      Success(Some(StellarInfo(mass, radius)))
  }

  /** One pass of the loop body of _store_data. */
  function TtStep(s: TtScan, line: Line, toFloat: FloatParser): (r: Result<TtScan>)
  {
    if line == [] then Success(s)
    else
      var info :- CaptureInfo(s.info, line, toFloat);
      if line[0] == TtTimePrefix then Success(TtScan(true, s.data, info))
      else if !s.recording then Success(s.(info := info))
      else
        var t :- ParseNumber(toFloat, line[0]);
        if t <= 0.0 then Success(s.(info := info))
        else
          var rec :- TtValues(line[1..], toFloat);
          Success(TtScan(true, Put(s.data, t, rec), info))
  }

  /** _store_data over the whole file: the loop body applied line by line;
      the first exception aborts the parse. */
  function TtScanLines(lines: seq<Line>, toFloat: FloatParser): Result<TtScan>
  {
    if lines == [] then Success(TtStart())
    else
      var s :- TtScanLines(lines[..|lines| - 1], toFloat);
      TtStep(s, lines[|lines| - 1], toFloat)
  }

  // ------------------------------------------------------------ properties

  ghost predicate SentinelBefore(lines: seq<Line>, i: int) {
    exists j :: 0 <= j < i && j < |lines| && IsSentinel(lines[j])
  }

  /** Line i is a table row read while recording whose time t is positive. */
  ghost predicate RecordsTime(lines: seq<Line>, toFloat: FloatParser, i: int, t: real) {
    && 0 <= i < |lines|
    && |lines[i]| > 0
    && lines[i][0] != TtTimePrefix
    && SentinelBefore(lines, i)
    && toFloat(lines[i][0]) == Some(t)
    && t > 0.0
  }

  /** The table only holds positive times, each once. */
  lemma {:induction false} TtScanValid(lines: seq<Line>, toFloat: FloatParser)
    requires TtScanLines(lines, toFloat).Success?
    ensures TtScanLines(lines, toFloat).value.data.Valid()
    ensures forall t :: t in TtScanLines(lines, toFloat).value.data.keys ==> t > 0.0
  {
    if lines != [] {
      TtScanValid(lines[..|lines| - 1], toFloat);
    }
  }

  /** Blank lines change nothing: the parse of a file is the parse of its
      non-blank lines. */
  lemma {:induction false} TtBlankLinesIgnored(lines: seq<Line>, toFloat: FloatParser)
    ensures TtScanLines(NonBlank(lines), toFloat) == TtScanLines(lines, toFloat)
  {
    if lines != [] {
      var init, last := lines[..|lines| - 1], lines[|lines| - 1];
      TtBlankLinesIgnored(init, toFloat);
      var nb := NonBlank(lines);
      if last == [] {
        assert nb == NonBlank(init) + [];
        assert nb == NonBlank(init);
      } else {
        assert nb == NonBlank(init) + [last];
        assert nb[..|nb| - 1] == NonBlank(init) && nb[|nb| - 1] == last;
      }
    }
  }

  /** An exception on one line ends the whole parse with that exception. */
  lemma {:induction false} TtFailureAborts(lines: seq<Line>, toFloat: FloatParser, i: nat)
    requires i <= |lines| && TtScanLines(lines[..i], toFloat).Failure?
    ensures TtScanLines(lines, toFloat) == TtScanLines(lines[..i], toFloat)
    decreases |lines| - i
  {
    if i < |lines| {
      assert lines[..i + 1][..i] == lines[..i];
      TtFailureAborts(lines, toFloat, i + 1);
    } else {
      assert lines[..i] == lines;
    }
  }

  /** Recording is on exactly when some line so far was the `time` line;
      once on it never goes off. */
  lemma {:induction false} TtRecordingStarts(lines: seq<Line>, toFloat: FloatParser)
    requires TtScanLines(lines, toFloat).Success?
    ensures TtScanLines(lines, toFloat).value.recording <==> SentinelBefore(lines, |lines|)
  {
    if lines != [] {
      var init := lines[..|lines| - 1];
      TtRecordingStarts(init, toFloat);
      if SentinelBefore(init, |init|) {
        var j :| 0 <= j < |init| && IsSentinel(init[j]);
        assert IsSentinel(lines[j]);
      }
      if SentinelBefore(lines, |lines|) && !IsSentinel(lines[|lines| - 1]) {
        var j :| 0 <= j < |lines| && IsSentinel(lines[j]);
        assert j < |init| && IsSentinel(init[j]);
      }
    }
  }

  /** Nothing is stored before the `time` line: a file without it yields an
      empty table. */
  lemma TtNothingBeforeSentinel(lines: seq<Line>, toFloat: FloatParser)
    requires TtScanLines(lines, toFloat).Success?
    ensures !SentinelBefore(lines, |lines|) ==> TtScanLines(lines, toFloat).value.data.values == map[]
  {
    var d := TtScanLines(lines, toFloat).value.data.values;
    TtStoredFromTable(lines, toFloat);
    forall t | t in d
      ensures SentinelBefore(lines, |lines|)
    {
      var i :| RecordsTime(lines, toFloat, i, t);
      var j :| 0 <= j < i && j < |lines| && IsSentinel(lines[j]);
    }
  }

  /** Every stored time was read from a table row with that positive time
      after the `time` line, and every such row's time is stored. */
  lemma {:induction false} TtStoredFromTable(lines: seq<Line>, toFloat: FloatParser)
    requires TtScanLines(lines, toFloat).Success?
    ensures forall t :: t in TtScanLines(lines, toFloat).value.data.values ==>
              exists i :: RecordsTime(lines, toFloat, i, t)
    ensures forall i, t :: RecordsTime(lines, toFloat, i, t) ==>
              t in TtScanLines(lines, toFloat).value.data.values
  {
    if lines != [] {
      var init := lines[..|lines| - 1];
      var last := lines[|lines| - 1];
      TtStoredFromTable(init, toFloat);
      TtRecordingStarts(init, toFloat);
      var s := TtScanLines(init, toFloat).value;
      var s' := TtScanLines(lines, toFloat).value;
      forall i, t | RecordsTime(init, toFloat, i, t) ensures RecordsTime(lines, toFloat, i, t) {
        var j :| 0 <= j < i && j < |init| && IsSentinel(init[j]);
        assert IsSentinel(lines[j]);
      }
      forall t | t in s'.data.values ensures exists i :: RecordsTime(lines, toFloat, i, t) {
        if t in s.data.values {
          var i :| RecordsTime(init, toFloat, i, t);
          assert RecordsTime(lines, toFloat, i, t);
        } else {
          assert RecordsTime(lines, toFloat, |lines| - 1, t) by {
            var j :| 0 <= j < |init| && IsSentinel(init[j]);
            assert IsSentinel(lines[j]);
          }
        }
      }
      forall i, t | RecordsTime(lines, toFloat, i, t) ensures t in s'.data.values {
        if i < |init| {
          assert RecordsTime(init, toFloat, i, t) by {
            var j :| 0 <= j < i && j < |lines| && IsSentinel(lines[j]);
            assert IsSentinel(init[j]);
          }
        } else {
          var j :| 0 <= j < i && j < |lines| && IsSentinel(lines[j]);
          assert IsSentinel(init[j]);
        }
      }
    }
  }

  /** A later row with an already stored time replaces that time's record:
      the record kept for t is the one of the last row with time t. */
  lemma {:induction false} TtLastRowWins(lines: seq<Line>, toFloat: FloatParser, i: nat, t: real)
    requires TtScanLines(lines, toFloat).Success?
    requires RecordsTime(lines, toFloat, i, t)
    requires forall j :: i < j < |lines| ==> !RecordsTime(lines, toFloat, j, t)
    ensures t in TtScanLines(lines, toFloat).value.data.values
    ensures TtValues(lines[i][1..], toFloat).Success?
    ensures TtScanLines(lines, toFloat).value.data.values[t] == TtValues(lines[i][1..], toFloat).value
  {
    var init := lines[..|lines| - 1];
    var last := lines[|lines| - 1];
    TtRecordingStarts(init, toFloat);
    var s := TtScanLines(init, toFloat).value;
    if i == |lines| - 1 {
      var j :| 0 <= j < i && j < |lines| && IsSentinel(lines[j]);
      assert IsSentinel(init[j]);
    } else {
      assert RecordsTime(init, toFloat, i, t) by {
        var j :| 0 <= j < i && j < |lines| && IsSentinel(lines[j]);
        assert IsSentinel(init[j]);
      }
      forall j | i < j < |init| ensures !RecordsTime(init, toFloat, j, t) {
        if RecordsTime(init, toFloat, j, t) {
          var k :| 0 <= k < j && k < |init| && IsSentinel(init[k]);
          assert IsSentinel(lines[k]);
          assert RecordsTime(lines, toFloat, j, t);
        }
      }
      TtLastRowWins(init, toFloat, i, t);
      if last != [] && last[0] != TtTimePrefix && s.recording && toFloat(last[0]) == Some(t) {
        assert RecordsTime(lines, toFloat, |lines| - 1, t) by {
          var k :| 0 <= k < |init| && IsSentinel(init[k]);
          assert IsSentinel(lines[k]);
        }
      }
    }
  }

  // ------------------------------------------------------------ the time list

  /** Dropping the last line changes no earlier line's status as a recorded row. */
  lemma RecordsTimeInInit(lines: seq<Line>, toFloat: FloatParser, i: int, t: real)
    requires lines != [] && i < |lines| - 1
    ensures RecordsTime(lines[..|lines| - 1], toFloat, i, t) <==> RecordsTime(lines, toFloat, i, t)
  {
    var init := lines[..|lines| - 1];
    if RecordsTime(init, toFloat, i, t) {
      var j :| 0 <= j < i && j < |init| && IsSentinel(init[j]);
      assert IsSentinel(lines[j]);
    }
    if RecordsTime(lines, toFloat, i, t) {
      var j :| 0 <= j < i && j < |lines| && IsSentinel(lines[j]);
      assert IsSentinel(init[j]);
    }
  }

  /** Time t is recorded on some row before the first row recording u. */
  ghost predicate RecordedFirst(lines: seq<Line>, toFloat: FloatParser, t: real, u: real) {
    exists i :: RecordsTime(lines, toFloat, i, t) && forall j :: 0 <= j <= i ==> !RecordsTime(lines, toFloat, j, u)
  }

  /** The reference for the time list: the positive times of the rows read
      while recording, each listed once, at its first row. */
  ghost function RecordedTimes(lines: seq<Line>, toFloat: FloatParser): (ts: seq<real>)
  {
    if lines == [] then []
    else
      var ts := RecordedTimes(lines[..|lines| - 1], toFloat);
      var last := lines[|lines| - 1];
      if |last| > 0 && last[0] != TtTimePrefix && SentinelBefore(lines, |lines| - 1)
         && toFloat(last[0]).Some? && toFloat(last[0]).value > 0.0 && toFloat(last[0]).value !in ts
      then ts + [toFloat(last[0]).value]
      else ts
  }

  /** The reference list holds every recorded time exactly once, and a time
      comes before another exactly when it is recorded before the other's
      first row. */
  lemma {:induction false} RecordedTimesSpec(lines: seq<Line>, toFloat: FloatParser)
    ensures Distinct(RecordedTimes(lines, toFloat))
    ensures forall t :: t in RecordedTimes(lines, toFloat) <==> exists i :: RecordsTime(lines, toFloat, i, t)
    ensures forall a, b :: 0 <= a < b < |RecordedTimes(lines, toFloat)| ==>
              RecordedFirst(lines, toFloat, RecordedTimes(lines, toFloat)[a], RecordedTimes(lines, toFloat)[b])
  {
    if lines != [] {
      var init := lines[..|lines| - 1];
      var n := |lines| - 1;
      RecordedTimesSpec(init, toFloat);
      var ts := RecordedTimes(init, toFloat);
      var ts' := RecordedTimes(lines, toFloat);
      forall t | t in ts' ensures exists i :: RecordsTime(lines, toFloat, i, t) {
        if t in ts {
          var i :| RecordsTime(init, toFloat, i, t);
          RecordsTimeInInit(lines, toFloat, i, t);
        } else {
          assert RecordsTime(lines, toFloat, n, t);
        }
      }
      forall i, t | RecordsTime(lines, toFloat, i, t) ensures t in ts' {
        if i < n {
          RecordsTimeInInit(lines, toFloat, i, t);
        }
      }
      forall a, b | 0 <= a < b < |ts'| ensures RecordedFirst(lines, toFloat, ts'[a], ts'[b]) {
        assert ts'[a] == ts[a];
        if b < |ts| {
          assert ts'[b] == ts[b];
          assert RecordedFirst(init, toFloat, ts[a], ts[b]);
          var i :| RecordsTime(init, toFloat, i, ts[a]) && forall j :: 0 <= j <= i ==> !RecordsTime(init, toFloat, j, ts[b]);
          RecordsTimeInInit(lines, toFloat, i, ts[a]);
          forall j | 0 <= j <= i ensures !RecordsTime(lines, toFloat, j, ts[b]) {
            RecordsTimeInInit(lines, toFloat, j, ts[b]);
          }
        } else {
          var u := ts'[b];
          assert u !in ts && ts[a] in ts;
          var i :| RecordsTime(init, toFloat, i, ts[a]);
          RecordsTimeInInit(lines, toFloat, i, ts[a]);
          forall j | 0 <= j <= i ensures !RecordsTime(lines, toFloat, j, u) {
            RecordsTimeInInit(lines, toFloat, j, u);
          }
        }
      }
    }
  }

  /** The parse keeps its times in the order of the reference list. */
  lemma {:induction false} TtKeysAreRecordedTimes(lines: seq<Line>, toFloat: FloatParser)
    requires TtScanLines(lines, toFloat).Success?
    ensures TtScanLines(lines, toFloat).value.data.keys == RecordedTimes(lines, toFloat)
  {
    if lines != [] {
      var init := lines[..|lines| - 1];
      TtKeysAreRecordedTimes(init, toFloat);
      TtRecordingStarts(init, toFloat);
      TtScanValid(init, toFloat);
      if SentinelBefore(init, |init|) {
        var j :| 0 <= j < |init| && IsSentinel(init[j]);
        assert IsSentinel(lines[j]);
      }
      if SentinelBefore(lines, |init|) {
        var j :| 0 <= j < |init| && IsSentinel(lines[j]);
        assert IsSentinel(init[j]);
      }
      assert forall t :: t in TtScanLines(init, toFloat).value.data.keys <==>
                         t in TtScanLines(init, toFloat).value.data.values;
    }
  }

  /** When the table's times strictly increase down the file, the time list
      is strictly ascending. */
  lemma IncreasingTimesAscend(lines: seq<Line>, toFloat: FloatParser)
    requires forall i, j, t, u :: i < j && RecordsTime(lines, toFloat, i, t) && RecordsTime(lines, toFloat, j, u) ==> t < u
    ensures var ts := RecordedTimes(lines, toFloat);
      forall a, b :: 0 <= a < b < |ts| ==> ts[a] < ts[b]
  {
    RecordedTimesSpec(lines, toFloat);
    var ts := RecordedTimes(lines, toFloat);
    forall a, b | 0 <= a < b < |ts| ensures ts[a] < ts[b] {
      assert RecordedFirst(lines, toFloat, ts[a], ts[b]);
      var i :| RecordsTime(lines, toFloat, i, ts[a]) && forall j :: 0 <= j <= i ==> !RecordsTime(lines, toFloat, j, ts[b]);
      assert ts[b] in ts;
      var j :| RecordsTime(lines, toFloat, j, ts[b]);
    }
  }

  /** Line i is the first line holding `MASS(SOLAR)=`, and its tokens 1 and
      last read as the given mass and radius. */
  ghost predicate FirstMassLine(lines: seq<Line>, toFloat: FloatParser, i: int, info: StellarInfo) {
    && 0 <= i < |lines| && MassToken in lines[i]
    && (forall j :: 0 <= j < i ==> MassToken !in lines[j])
    && 2 <= |lines[i]|
    && toFloat(lines[i][1]) == Some(info.mass)
    && toFloat(lines[i][|lines[i]| - 1]) == Some(info.radius)
  }

  /** stellar_info is set from the first `MASS(SOLAR)=` line and later such
      lines change nothing; it stays empty when there is none. */
  lemma {:induction false} TtInfoFromFirstMassLine(lines: seq<Line>, toFloat: FloatParser)
    requires TtScanLines(lines, toFloat).Success?
    ensures var info := TtScanLines(lines, toFloat).value.info;
      && (info.None? <==> forall i :: 0 <= i < |lines| ==> MassToken !in lines[i])
      && (info.Some? ==> exists i :: FirstMassLine(lines, toFloat, i, info.value))
  {
    if lines != [] {
      var init := lines[..|lines| - 1];
      var last := lines[|lines| - 1];
      TtInfoFromFirstMassLine(init, toFloat);
      var s := TtScanLines(init, toFloat).value;
      var info := TtScanLines(lines, toFloat).value.info;
      assert forall j :: 0 <= j < |lines| - 1 ==> lines[j] == init[j];
      if s.info.Some? {
        var i :| FirstMassLine(init, toFloat, i, s.info.value);
        assert info == s.info;
        assert FirstMassLine(lines, toFloat, i, s.info.value);
      } else if MassToken in last {
        assert FirstMassLine(lines, toFloat, |lines| - 1, info.value);
      } else {
        assert info == s.info;
      }
    }
  }

  /** `timestep_data.get(key, 0.0)` for the k-th stored time. */
  function RecordValue(d: OrderedMap<real, TtRecord>, k: nat, key: TtField): real
    requires d.Valid() && k < |d.keys|
  {
    var rec := d.values[d.keys[k]];
    if key in rec then rec[key] else 0.0
  }

  // ------------------------------------------------------------ the parser

  class TtParser {
    const filename: string
    var data: OrderedMap<real, TtRecord>
    var stellarInfo: Option<StellarInfo>

    ghost predicate Valid()
      reads this
    {
      data.Valid() && forall t :: t in data.keys ==> t > 0.0
    }

    constructor (filename: string)
      ensures this.filename == filename && data == Empty() && stellarInfo == None
    {
      this.filename := filename;
      data := Empty();
      stellarInfo := None;
    }

    /** _store_data: one pass over the lines of the file. */
    method StoreData(lines: seq<Line>, toFloat: FloatParser) returns (outcome: Outcome)
      requires data == Empty() && stellarInfo == None
      modifies this
      ensures outcome.Pass? <==> TtScanLines(lines, toFloat).Success?
      ensures outcome.Fail? ==> TtScanLines(lines, toFloat) == Failure(outcome.error)
      ensures outcome.Pass? ==> && data == TtScanLines(lines, toFloat).value.data
                                && stellarInfo == TtScanLines(lines, toFloat).value.info
                                && Valid()
    {
      var recording := false;
      var i := 0;
      while i < |lines|
        invariant 0 <= i <= |lines|
        invariant TtScanLines(lines[..i], toFloat) == Success(TtScan(recording, data, stellarInfo))
      {
        assert lines[..i + 1][..i] == lines[..i];
        var line := lines[i];
        ghost var before := TtScan(recording, data, stellarInfo);
        var raised: Option<Error> := None;
        if line != [] {
          if stellarInfo.None? && MassToken in line {
            if |line| < 2 {
              raised := Some(IndexOutOfRange);
            } else {
              var mass := toFloat(line[1]);
              var radius := toFloat(line[|line| - 1]);
              if mass.None? || radius.None? {
                raised := Some(MalformedNumber);
              } else {
                stellarInfo := Some(StellarInfo(mass.value, radius.value));
              }
            }
          }
          if raised.Some? {
          } else if line[0] == TtTimePrefix {
            recording := true;
          } else if recording {
            var time := toFloat(line[0]);
            if time.None? {
              raised := Some(MalformedNumber);
            } else if time.value > 0.0 {
              var values := TtValues(line[1..], toFloat);
              if values.Failure? {
                raised := Some(values.error);
              } else {
                data := Put(data, time.value, values.value);
              }
            }
          }
        }
        if raised.Some? {
          assert TtStep(before, line, toFloat) == Failure(raised.value);
          assert TtScanLines(lines[..i + 1], toFloat) == Failure(raised.value);
          TtFailureAborts(lines, toFloat, i + 1);
          return Fail(raised.value);
        }
        assert TtStep(before, line, toFloat) == Success(TtScan(recording, data, stellarInfo));
        i := i + 1;
      }
      assert lines[..i] == lines;
      TtScanValid(lines, toFloat);
      return Pass;
    }

    /** `times` (and get_time_range): the stored times in insertion order,
        which after StoreData is RecordedTimes of the file (TtKeysAreRecordedTimes). */
    function Times(): (ts: seq<real>)
      reads this
      requires Valid()
      ensures ts == data.keys
      ensures Distinct(ts) && forall k :: 0 <= k < |ts| ==> ts[k] > 0.0 && ts[k] in data.values
      ensures forall t :: t in data.values ==> t in ts
    {
      data.keys
    }

    function GetTimeRange(): (ts: seq<real>)
      reads this
      requires Valid()
      ensures ts == Times()
    {
      data.keys
    }

    /** The values get_values(key) returns: one per stored time, in order. */
    function Series(key: TtField): (vs: seq<real>)
      reads this
      requires Valid()
      ensures |vs| == |Times()|
      ensures forall k :: 0 <= k < |vs| ==> vs[k] == RecordValue(data, k, key)
    {
      var d := data;
      seq(|d.keys|, k requires 0 <= k < |d.keys| => RecordValue(d, k, key))
    }

    /** get_values(key): one entry per stored time, in the same order. */
    method GetValues(key: TtField) returns (values: seq<real>)
      requires Valid()
      ensures |values| == |Times()|
      ensures forall k :: 0 <= k < |values| ==>
                var rec := data.values[Times()[k]];
                values[k] == if key in rec then rec[key] else 0.0
      ensures values == Series(key)
    {
      values := [];
      var k := 0;
      while k < |data.keys|
        invariant 0 <= k <= |data.keys|
        invariant |values| == k
        invariant forall m :: 0 <= m < k ==> values[m] == RecordValue(data, m, key)
      {
        var rec := data.values[data.keys[k]];
        values := values + [if key in rec then rec[key] else 0.0];
        k := k + 1;
      }
    }
  }

  /** TTParser(path, prefix): resolve `<prefix>.tt`, read it, parse it. The
      file system and the file's contents are inputs. */
  method OpenTt(path: string, prefix: string, isDir: bool, isFile: bool,
                read: string -> Result<seq<Line>>, toFloat: FloatParser)
    returns (r: Result<TtParser>)
    ensures var f := Paths.Resolve(path, prefix, ".tt", isDir, isFile);
      r.Success? <==> && f.Success? && read(f.value).Success?
                      && TtScanLines(read(f.value).value, toFloat).Success?
    ensures r.Success? ==>
      var f := Paths.Resolve(path, prefix, ".tt", isDir, isFile).value;
      var scan := TtScanLines(read(f).value, toFloat).value;
      && r.value.filename == f && r.value.Valid()
      && r.value.data == scan.data && r.value.stellarInfo == scan.info
  {
    var f := Paths.Resolve(path, prefix, ".tt", isDir, isFile);
    if f.Failure? {
      return Failure(f.error);
    }
    var lines := read(f.value);
    if lines.Failure? {
      return Failure(lines.error);
    }
    var p := new TtParser(f.value);
    var outcome := p.StoreData(lines.value, toFloat);
    if outcome.Fail? {
      return Failure(outcome.error);
    }
    return Success(p);
  }
}
