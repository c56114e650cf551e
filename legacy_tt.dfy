/** The first-generation TT parser (parser/tt.py). It reads the same table
    as the current one, names the columns by the strings of TT_TABLE_LABELS,
    keeps no stellar information and takes the file stem from the path. */
module LegacyTt {
  import opened Common
  import opened OrderedMaps
  import Config
  import LegacyConfig
  import Paths
  import Tt

  type LegacyRecord = map<string, real>

  /** The first w entries of `{TT_TABLE_LABELS[i]: float(v) for i, v in
      enumerate(values)}`. Each key is looked up before its value is
      converted, so the 14th value raises IndexError even when it is no number. */
  function LegacyRow(values: seq<string>, toFloat: FloatParser, w: nat): (r: Result<LegacyRecord>)
    requires w <= |values|
    ensures r.Success? <==> w <= |LegacyConfig.TtLabels| && forall k :: 0 <= k < w ==> toFloat(values[k]).Some?
    ensures r == Failure(IndexOutOfRange) <==>
      w > |LegacyConfig.TtLabels| && forall k :: 0 <= k < |LegacyConfig.TtLabels| ==> toFloat(values[k]).Some?
    ensures r.Failure? ==> r.error in {IndexOutOfRange, MalformedNumber}
  {
    if w == 0 then Success(map[])
    else
      var prev :- LegacyRow(values, toFloat, w - 1);
      if w - 1 >= |LegacyConfig.TtLabels| then Failure(IndexOutOfRange)
      else
        var x :- ParseNumber(toFloat, values[w - 1]);
        Success(prev[LegacyConfig.TtLabels[w - 1] := x])
  }

  /** A converted row holds exactly the labels of its columns, each with the
      number read from its own column. */
  lemma LegacyRowFields(values: seq<string>, toFloat: FloatParser, w: nat)
    requires w <= |values| && LegacyRow(values, toFloat, w).Success?
    ensures var row := LegacyRow(values, toFloat, w).value;
      && (forall l :: l in row <==> exists k :: 0 <= k < w && LegacyConfig.TtLabels[k] == l)
      && (forall k :: 0 <= k < w ==> row[LegacyConfig.TtLabels[k]] == toFloat(values[k]).value)
  {
    LegacyRowKeys(values, toFloat, w);
    LegacyRowValues(values, toFloat, w);
  }

  lemma {:induction false} LegacyRowKeys(values: seq<string>, toFloat: FloatParser, w: nat)
    requires w <= |values| && LegacyRow(values, toFloat, w).Success?
    ensures forall l :: l in LegacyRow(values, toFloat, w).value <==>
                        exists k :: 0 <= k < w && LegacyConfig.TtLabels[k] == l
  {
    if w > 0 {
      LegacyRowKeys(values, toFloat, w - 1);
      var row := LegacyRow(values, toFloat, w).value;
      var lab := LegacyConfig.TtLabels[w - 1];
      forall l ensures l in row <==> exists k :: 0 <= k < w && LegacyConfig.TtLabels[k] == l {
        if l in row && l != lab {
          var k :| 0 <= k < w - 1 && LegacyConfig.TtLabels[k] == l;
        }
      }
    }
  }

  lemma {:induction false} LegacyRowValues(values: seq<string>, toFloat: FloatParser, w: nat)
    requires w <= |values| && LegacyRow(values, toFloat, w).Success?
    ensures forall k :: 0 <= k < w ==>
              && LegacyConfig.TtLabels[k] in LegacyRow(values, toFloat, w).value
              && LegacyRow(values, toFloat, w).value[LegacyConfig.TtLabels[k]] == toFloat(values[k]).value
  {
    if w > 0 {
      LegacyRowValues(values, toFloat, w - 1);
      LegacyConfig.TtLabelsDistinct();
      var prev := LegacyRow(values, toFloat, w - 1).value;
      var row := LegacyRow(values, toFloat, w).value;
      assert row == prev[LegacyConfig.TtLabels[w - 1] := toFloat(values[w - 1]).value];
    }
  }

  /** The current parser's record and the legacy one describe the same row:
      field f is present in one exactly when its label is present in the other,
      with the same number. */
  ghost predicate RowsAgree(row: LegacyRecord, rec: Tt.TtRecord) {
    && (forall f :: f in rec <==> LegacyConfig.TtLabels[Config.TtIndex(f)] in row)
    && (forall f :: f in rec ==> row[LegacyConfig.TtLabels[Config.TtIndex(f)]] == rec[f])
  }

  /** On rows of at most 13 values both parsers convert the same numbers. */
  lemma RowAgreesWithCurrent(values: seq<string>, toFloat: FloatParser)
    requires |values| <= |LegacyConfig.TtLabels|
    requires Tt.TtValues(values, toFloat).Success?
    ensures LegacyRow(values, toFloat, |values|).Success?
    ensures RowsAgree(LegacyRow(values, toFloat, |values|).value, Tt.TtValues(values, toFloat).value)
  {
    LegacyRowFields(values, toFloat, |values|);
    LegacyConfig.TtLabelsDistinct();
    var row := LegacyRow(values, toFloat, |values|).value;
    var rec := Tt.TtValues(values, toFloat).value;
    forall f
      ensures f in rec <==> LegacyConfig.TtLabels[Config.TtIndex(f)] in row
      ensures f in rec ==> row[LegacyConfig.TtLabels[Config.TtIndex(f)]] == rec[f]
    {
      var i := Config.TtIndex(f);
      if LegacyConfig.TtLabels[i] in row {
        var k :| 0 <= k < |values| && LegacyConfig.TtLabels[k] == LegacyConfig.TtLabels[i];
        assert k == i;
      }
    }
  }

  datatype LegacyScan = LegacyScan(recording: bool, data: OrderedMap<real, LegacyRecord>)

  /** One pass of the loop body of the legacy _store_data. */
  function LegacyStep(s: LegacyScan, line: Line, toFloat: FloatParser): Result<LegacyScan>
  {
    if line == [] then Success(s)
    else if line[0] == LegacyConfig.TtTimePrefix then Success(LegacyScan(true, s.data))
    else if !s.recording then Success(s)
    else
      var t :- ParseNumber(toFloat, line[0]);
      if t <= 0.0 then Success(s)
      else
        var row :- LegacyRow(line[1..], toFloat, |line| - 1);
        Success(LegacyScan(true, Put(s.data, t, row)))
  }

  function LegacyScanLines(lines: seq<Line>, toFloat: FloatParser): Result<LegacyScan>
  {
    if lines == [] then Success(LegacyScan(false, Empty()))
    else
      var s :- LegacyScanLines(lines[..|lines| - 1], toFloat);
      LegacyStep(s, lines[|lines| - 1], toFloat)
  }

  /** Blank lines change nothing: the parse of a file is the parse of its
      non-blank lines. */
  lemma {:induction false} LegacyBlankLinesIgnored(lines: seq<Line>, toFloat: FloatParser)
    ensures LegacyScanLines(NonBlank(lines), toFloat) == LegacyScanLines(lines, toFloat)
  {
    if lines != [] {
      var init, last := lines[..|lines| - 1], lines[|lines| - 1];
      LegacyBlankLinesIgnored(init, toFloat);
      var nb := NonBlank(lines);
      if last == [] {
        assert nb == NonBlank(init) + [];
        assert nb == NonBlank(init);
      } else {
        assert nb == NonBlank(init) + [last];
        assert nb[..|nb| - 1] == NonBlank(init) && nb[|nb| - 1] == last;
      }
    }
  }

  lemma {:induction false} LegacyFailureAborts(lines: seq<Line>, toFloat: FloatParser, i: nat)
    requires i <= |lines| && LegacyScanLines(lines[..i], toFloat).Failure?
    ensures LegacyScanLines(lines, toFloat) == LegacyScanLines(lines[..i], toFloat)
    decreases |lines| - i
  {
    if i < |lines| {
      assert lines[..i + 1][..i] == lines[..i];
      LegacyFailureAborts(lines, toFloat, i + 1);
    } else {
      assert lines[..i] == lines;
    }
  }

  /** The legacy table only holds positive times, each once. */
  lemma {:induction false} LegacyScanValid(lines: seq<Line>, toFloat: FloatParser)
    requires LegacyScanLines(lines, toFloat).Success?
    ensures LegacyScanLines(lines, toFloat).value.data.Valid()
    ensures forall t :: t in LegacyScanLines(lines, toFloat).value.data.keys ==> t > 0.0
  {
    if lines != [] {
      LegacyScanValid(lines[..|lines| - 1], toFloat);
    }
  }

  /** Recording is on exactly when some line so far was the `time` line. */
  lemma {:induction false} LegacyRecordingStarts(lines: seq<Line>, toFloat: FloatParser)
    requires LegacyScanLines(lines, toFloat).Success?
    ensures LegacyScanLines(lines, toFloat).value.recording <==> Tt.SentinelBefore(lines, |lines|)
  {
    if lines != [] {
      var init := lines[..|lines| - 1];
      LegacyRecordingStarts(init, toFloat);
      if Tt.SentinelBefore(init, |init|) {
        var j :| 0 <= j < |init| && Tt.IsSentinel(init[j]);
        assert Tt.IsSentinel(lines[j]);
      }
      if Tt.SentinelBefore(lines, |lines|) && !Tt.IsSentinel(lines[|lines| - 1]) {
        var j :| 0 <= j < |lines| && Tt.IsSentinel(lines[j]);
        assert j < |init| && Tt.IsSentinel(init[j]);
      }
    }
  }

  /** The legacy parse keeps its times in the order of the reference list
      Tt.RecordedTimes: each recorded time once, at its first row. */
  lemma {:induction false} LegacyKeysAreRecordedTimes(lines: seq<Line>, toFloat: FloatParser)
    requires LegacyScanLines(lines, toFloat).Success?
    ensures LegacyScanLines(lines, toFloat).value.data.keys == Tt.RecordedTimes(lines, toFloat)
  {
    if lines != [] {
      var init := lines[..|lines| - 1];
      LegacyKeysAreRecordedTimes(init, toFloat);
      LegacyRecordingStarts(init, toFloat);
      LegacyScanValid(init, toFloat);
      if Tt.SentinelBefore(init, |init|) {
        var j :| 0 <= j < |init| && Tt.IsSentinel(init[j]);
        assert Tt.IsSentinel(lines[j]);
      }
      if Tt.SentinelBefore(lines, |init|) {
        var j :| 0 <= j < |init| && Tt.IsSentinel(lines[j]);
        assert Tt.IsSentinel(init[j]);
      }
      assert forall t :: t in LegacyScanLines(init, toFloat).value.data.keys <==>
                         t in LegacyScanLines(init, toFloat).value.data.values;
    }
  }

  /** The two parsers hold the same times in the same order, with agreeing rows. */
  ghost predicate TablesAgree(legacy: OrderedMap<real, LegacyRecord>, current: OrderedMap<real, Tt.TtRecord>) {
    && legacy.keys == current.keys
    && legacy.values.Keys == current.values.Keys
    && forall t :: t in current.values ==> RowsAgree(legacy.values[t], current.values[t])
  }

  /** One line read by both parsers from agreeing states leaves them agreeing. */
  lemma StepAgrees(ls: LegacyScan, s: Tt.TtScan, line: Line, toFloat: FloatParser)
    requires ls.recording == s.recording && TablesAgree(ls.data, s.data)
    requires Tt.TtStep(s, line, toFloat).Success?
    requires line != [] && line[0] != Config.TtTimePrefix && s.recording
             && toFloat(line[0]).Some? && toFloat(line[0]).value > 0.0
             ==> |line| <= 1 + |LegacyConfig.TtLabels|
    ensures LegacyStep(ls, line, toFloat).Success?
    ensures LegacyStep(ls, line, toFloat).value.recording == Tt.TtStep(s, line, toFloat).value.recording
    ensures TablesAgree(LegacyStep(ls, line, toFloat).value.data, Tt.TtStep(s, line, toFloat).value.data)
  {
    if line != [] && line[0] != Config.TtTimePrefix && s.recording {
      var t := toFloat(line[0]).value;
      if t > 0.0 {
        RowAgreesWithCurrent(line[1..], toFloat);
        var rec := Tt.TtValues(line[1..], toFloat).value;
        var row := LegacyRow(line[1..], toFloat, |line| - 1).value;
        assert LegacyStep(ls, line, toFloat).value.data == Put(ls.data, t, row);
        assert Tt.TtStep(s, line, toFloat).value.data == Put(s.data, t, rec);
      }
    }
  }

  /** Wherever the current parser succeeds and no recorded row has more than
      13 values, the legacy parser succeeds too and builds the same table. */
  lemma {:induction false} LegacyAgreesWithCurrent(lines: seq<Line>, toFloat: FloatParser)
    requires Tt.TtScanLines(lines, toFloat).Success?
    requires forall i, t :: Tt.RecordsTime(lines, toFloat, i, t) ==> |lines[i]| <= 1 + |LegacyConfig.TtLabels|
    ensures LegacyScanLines(lines, toFloat).Success?
    ensures LegacyScanLines(lines, toFloat).value.recording == Tt.TtScanLines(lines, toFloat).value.recording
    ensures TablesAgree(LegacyScanLines(lines, toFloat).value.data, Tt.TtScanLines(lines, toFloat).value.data)
  {
    if lines != [] {
      var init := lines[..|lines| - 1];
      var last := lines[|lines| - 1];
      forall i, t | Tt.RecordsTime(init, toFloat, i, t) ensures |init[i]| <= 1 + |LegacyConfig.TtLabels| {
        var j :| 0 <= j < i && j < |init| && Tt.IsSentinel(init[j]);
        assert Tt.IsSentinel(lines[j]);
        assert Tt.RecordsTime(lines, toFloat, i, t);
      }
      LegacyAgreesWithCurrent(init, toFloat);
      Tt.TtRecordingStarts(init, toFloat);
      var s := Tt.TtScanLines(init, toFloat).value;
      if last != [] && last[0] != Config.TtTimePrefix && s.recording
         && toFloat(last[0]).Some? && toFloat(last[0]).value > 0.0 {
        assert Tt.RecordsTime(lines, toFloat, |lines| - 1, toFloat(last[0]).value) by {
          var j :| 0 <= j < |init| && Tt.IsSentinel(init[j]);
          assert Tt.IsSentinel(lines[j]);
        }
      }
      StepAgrees(LegacyScanLines(init, toFloat).value, s, last, toFloat);
    }
  }

  class LegacyTtParser {
    const filename: string
    var data: OrderedMap<real, LegacyRecord>

    ghost predicate Valid()
      reads this
    {
      data.Valid() && forall t :: t in data.keys ==> t > 0.0
    }

    constructor (filename: string)
      ensures this.filename == filename && data == Empty()
    {
      this.filename := filename;
      data := Empty();
    }

    /** _store_data of the legacy parser. */
    method StoreData(lines: seq<Line>, toFloat: FloatParser) returns (outcome: Outcome)
      requires data == Empty()
      modifies this
      ensures outcome.Pass? <==> LegacyScanLines(lines, toFloat).Success?
      ensures outcome.Fail? ==> LegacyScanLines(lines, toFloat) == Failure(outcome.error)
      ensures outcome.Pass? ==> data == LegacyScanLines(lines, toFloat).value.data && Valid()
    {
      var recording := false;
      var i := 0;
      while i < |lines|
        invariant 0 <= i <= |lines|
        invariant LegacyScanLines(lines[..i], toFloat) == Success(LegacyScan(recording, data))
      {
        assert lines[..i + 1][..i] == lines[..i];
        var line := lines[i];
        if line != [] {
          if line[0] == LegacyConfig.TtTimePrefix {
            recording := true;
          } else if recording {
            var time := toFloat(line[0]);
            if time.None? {
              LegacyFailureAborts(lines, toFloat, i + 1);
              return Fail(MalformedNumber);
            }
            if time.value > 0.0 {
              var values := LegacyRow(line[1..], toFloat, |line| - 1);
              if values.Failure? {
                LegacyFailureAborts(lines, toFloat, i + 1);
                return Fail(values.error);
              }
              data := Put(data, time.value, values.value);
            }
          }
        }
        i := i + 1;
      }
      assert lines[..i] == lines;
      LegacyScanValid(lines, toFloat);
      return Pass;
    }

    /** get_time_range: the stored times in insertion order, which after
        StoreData is Tt.RecordedTimes of the file (LegacyKeysAreRecordedTimes). */
    function GetTimeRange(): (ts: seq<real>)
      reads this
      requires Valid()
      ensures ts == data.keys
      ensures Distinct(ts) && forall k :: 0 <= k < |ts| ==> ts[k] > 0.0 && ts[k] in data.values
      ensures forall t :: t in data.values ==> t in ts
    {
      data.keys
    }

    function ValueAt(k: nat, key: string): real
      reads this
      requires Valid() && k < |data.keys|
    {
      var row := data.values[data.keys[k]];
      if key in row then row[key] else 0.0
    }

    /** get_values(key): the value of a label at every stored time, 0.0 where
        a row lacks it. */
    method GetValues(key: string) returns (values: seq<real>)
      requires Valid()
      ensures |values| == |GetTimeRange()|
      ensures forall k :: 0 <= k < |values| ==>
                var row := data.values[GetTimeRange()[k]];
                values[k] == if key in row then row[key] else 0.0
    {
      values := [];
      var k := 0;
      while k < |data.keys|
        invariant 0 <= k <= |data.keys|
        invariant |values| == k
        invariant forall m :: 0 <= m < k ==> values[m] == ValueAt(m, key)
      {
        var row := data.values[data.keys[k]];
        values := values + [if key in row then row[key] else 0.0];
        k := k + 1;
      }
    }
  }

  /** TTParser(path): the stem of the file is the last component of the path. */
  method OpenLegacyTt(path: string, isDir: bool, isFile: bool,
                      read: string -> Result<seq<Line>>, toFloat: FloatParser)
    returns (r: Result<LegacyTtParser>)
    ensures var f := Paths.Resolve(path, Paths.LastSegment(path), ".tt", isDir, isFile);
      r.Success? <==> && f.Success? && read(f.value).Success?
                      && LegacyScanLines(read(f.value).value, toFloat).Success?
    ensures r.Success? ==>
      var f := Paths.Resolve(path, Paths.LastSegment(path), ".tt", isDir, isFile).value;
      && r.value.filename == f && r.value.Valid()
      && r.value.data == LegacyScanLines(read(f).value, toFloat).value.data
  {
    var f := Paths.Resolve(path, Paths.LastSegment(path), ".tt", isDir, isFile);
    if f.Failure? {
      return Failure(f.error);
    }
    var lines := read(f.value);
    if lines.Failure? {
      return Failure(lines.error);
    }
    var p := new LegacyTtParser(f.value);
    var outcome := p.StoreData(lines.value, toFloat);
    if outcome.Fail? {
      return Failure(outcome.error);
    }
    return Success(p);
  }
}
