/** The first-generation MRT parser (parser/mrt.py): the file is a series of
    blocks, each opened by a time line and holding table rows; every block is
    collected into one label-to-value dict and stored under its time when
    the next time line, or the end of the file, is reached. Numbers written
    without their exponent marker (`2.08-100`) are repaired. The time prefix
    the code reads is a parameter here. */
module Mrt {
  import opened Common
  import opened OrderedMaps
  import opened LegacyConfig
  import Paths

  /** The dict a block is collected into. */
  type Block = map<string, real>

  /** `s.find(c)`: the first position of `c` in `s`, -1 when there is none. */
  function Find(s: string, c: char): (i: int)
    ensures -1 <= i < |s|
    ensures i == -1 <==> c !in s
    ensures i >= 0 ==> s[i] == c && forall j :: 0 <= j < i ==> s[j] != c
  {
    if s == [] then -1
    else if s[0] == c then 0
    else
      var k := Find(s[1..], c);
      assert forall x :: x in s <==> x == s[0] || x in s[1..];
      if k == -1 then -1 else k + 1
  }

  /** The position the literal repair inserts the exponent marker at: the
      first '-', failing that the first '+', -1 when the literal has neither. */
  function SignPosition(value: string): (p: int)
    ensures -1 <= p < |value|
    ensures p == -1 <==> '-' !in value && '+' !in value
    ensures '-' in value ==> value[p] == '-' && forall j :: 0 <= j < p ==> value[j] != '-'
    ensures '-' !in value && '+' in value ==> value[p] == '+' && forall j :: 0 <= j < p ==> value[j] != '+'
  {
    var i := Find(value, '-');
    if i == -1 then Find(value, '+') else i
  }

  /** `value[0:idx] + 'E' + value[idx:]`. */
  function Repaired(value: string, p: nat): (r: string)
    requires p <= |value|
    ensures |r| == |value| + 1 && r[p] == 'E'
    ensures r[..p] == value[..p] && r[p + 1..] == value[p..]
  {
    value[..p] + "E" + value[p..]
  }

  /** `timestep_data[MRT_TABLE_LABELS[idx]] = float(value)` for the token at
      column k, with its `except ValueError` branch. float() runs before the
      label is looked up, so a column past the labels fails only when its
      token parses; a token that does not parse is repaired and, because
      `idx` now holds the sign's position, stored under the label at that
      position. */
  function StoreValue(labels: seq<string>, block: Block, k: nat, value: string, toFloat: FloatParser): (r: Result<Block>)
    ensures r.Success? ==> forall l :: l in r.value ==> l in block || l in labels
  {
    match toFloat(value)
    case Some(x) =>
      if k < |labels| then Success(block[labels[k] := x]) else Failure(IndexOutOfRange)
    case None => StoreRepaired(labels, block, value, toFloat)
  }

  /** The `except ValueError` branch of StoreValue: the literal is repaired
      at its sign and stored under the label at the sign's position. */
  function StoreRepaired(labels: seq<string>, block: Block, value: string, toFloat: FloatParser): (r: Result<Block>)
    ensures r.Success? ==> forall l :: l in r.value ==> l in block || l in labels
    ensures '-' !in value && '+' !in value ==> r == Failure(MalformedNumber)
    ensures r.Success? ==> && 0 <= SignPosition(value) < |labels|
                           && toFloat(Repaired(value, SignPosition(value))).Some?
                           && r.value == block[labels[SignPosition(value)] := toFloat(Repaired(value, SignPosition(value))).value]
  {
    var p := SignPosition(value);
    if p == -1 then Failure(MalformedNumber)
    else
      var x :- ParseNumber(toFloat, Repaired(value, p));
      if p < |labels| then Success(block[labels[p] := x]) else Failure(IndexOutOfRange)
  }

  /** The row loop `for idx, value in enumerate(line)` over the first w
      tokens, naming column k by `labels[k]`; the first exception ends it. */
  function StoreRowPrefix(labels: seq<string>, block: Block, line: Line, toFloat: FloatParser, w: nat): (r: Result<Block>)
    requires w <= |line|
    ensures r.Success? ==> block.Keys <= r.value.Keys
    ensures r.Success? ==> forall l :: l in r.value ==> l in block || l in labels
  {
    if w == 0 then Success(block)
    else
      var b :- StoreRowPrefix(labels, block, line, toFloat, w - 1);
      StoreValue(labels, b, w - 1, line[w - 1], toFloat)
  }

  /** The `try`/`except ValueError` statement for the token at column k. */
  method StoreToken(labels: seq<string>, block: Block, k: nat, value: string, toFloat: FloatParser)
    returns (r: Result<Block>)
    ensures r == StoreValue(labels, block, k, value, toFloat)
  {
    var x := toFloat(value);
    var idx: int := k;
    if x.Some? {
      if idx >= |labels| {
        return Failure(IndexOutOfRange);
      }
      return Success(block[labels[idx] := x.value]);
    }
    // the except branch: idx now holds the position of the sign
    assert StoreValue(labels, block, k, value, toFloat) == StoreRepaired(labels, block, value, toFloat);
    idx := Find(value, '-');
    if idx == -1 {
      idx := Find(value, '+');
    }
    assert idx == SignPosition(value);
    if idx == -1 {
      return Failure(MalformedNumber);
    }
    x := toFloat(Repaired(value, idx));
    if x.None? {
      return Failure(MalformedNumber);
    }
    if idx >= |labels| {
      return Failure(IndexOutOfRange);
    }
    return Success(block[labels[idx] := x.value]);
  }

  /** The row loop of _store_data. */
  method StoreRow(labels: seq<string>, block: Block, line: Line, toFloat: FloatParser) returns (r: Result<Block>)
    ensures r == StoreRowPrefix(labels, block, line, toFloat, |line|)
  {
    var b := block;
    var k := 0;
    while k < |line|
      invariant 0 <= k <= |line|
      invariant StoreRowPrefix(labels, block, line, toFloat, k) == Success(b)
    {
      var next := StoreToken(labels, b, k, line[k], toFloat);
      if next.Failure? {
        RowFailureStays(labels, block, line, toFloat, k + 1, |line|);
        return next;
      }
      b := next.value;
      k := k + 1;
    }
    return Success(b);
  }

  /** Once the row loop has failed, more tokens fail the same way. */
  lemma {:induction false} RowFailureStays(labels: seq<string>, block: Block, line: Line, toFloat: FloatParser, w: nat, v: nat)
    requires w <= v <= |line|
    requires StoreRowPrefix(labels, block, line, toFloat, w).Failure?
    ensures StoreRowPrefix(labels, block, line, toFloat, v) == StoreRowPrefix(labels, block, line, toFloat, w)
    decreases v - w
  {
    if w < v {
      RowFailureStays(labels, block, line, toFloat, w, v - 1);
    }
  }

  // ------------------------------------------------------------ the line loop

  /** What the parse has built after some lines: the recording flag, the
      time of the current block, the block and the stored blocks. */
  datatype MrtScan = MrtScan(recording: bool, timeInfo: real, block: Block, data: OrderedMap<real, Block>)

  function MrtStart(): MrtScan {
    MrtScan(false, 0.0, map[], Empty())
  }

  /** `if len(timestep_data) > 0: self.mrt_data[time_info] = timestep_data`. */
  function Flush(s: MrtScan): (d: OrderedMap<real, Block>)
    ensures |s.block| > 0 ==> d.values == s.data.values[s.timeInfo := s.block]
    ensures |s.block| == 0 ==> d == s.data
  {
    if |s.block| > 0 then Put(s.data, s.timeInfo, s.block) else s.data
  }

  /** One pass of the loop body of _store_data; `prefix` is the time prefix. */
  function MrtStep(s: MrtScan, line: Line, toFloat: FloatParser, prefix: string): (r: Result<MrtScan>)
  {
    if line == [] then Success(s)
    else if line[0] == prefix then
      if |line| < 2 then Failure(IndexOutOfRange)
      else
        var t :- ParseNumber(toFloat, line[1]);
        if t < 0.0 then Success(MrtScan(false, t, s.block, Flush(s)))
        else Success(MrtScan(true, t, map[], Flush(s)))
    else if line[0] == MrtLabels[0] then Success(s)
    else if !s.recording then Success(s)
    else
      var b :- StoreRowPrefix(MrtLabels, s.block, line, toFloat, |line|);
      Success(s.(block := b))
  }

  /** The line loop of _store_data over a whole file. */
  function MrtScanLines(lines: seq<Line>, toFloat: FloatParser, prefix: string): Result<MrtScan>
  {
    if lines == [] then Success(MrtStart())
    else
      var s :- MrtScanLines(lines[..|lines| - 1], toFloat, prefix);
      MrtStep(s, lines[|lines| - 1], toFloat, prefix)
  }

  /** _store_data: the line loop, then the final flush. */
  function MrtParse(lines: seq<Line>, toFloat: FloatParser, prefix: string): Result<OrderedMap<real, Block>>
  {
    var s :- MrtScanLines(lines, toFloat, prefix);
    Success(Flush(s))
  }

  // ------------------------------------------------------------ properties

  /** A line the loop reads: not blank, and not a column-label line (first
      token 'ZON') unless that token is also the time prefix. */
  predicate Significant(line: Line, prefix: string) {
    line != [] && (line[0] == prefix || line[0] != MrtLabels[0])
  }

  /** The lines of a file the loop reads, in order. */
  function SignificantLines(lines: seq<Line>, prefix: string): (r: seq<Line>)
    ensures |r| <= |lines|
    ensures forall k :: 0 <= k < |r| ==> Significant(r[k], prefix) && r[k] in lines
  {
    if lines == [] then []
    else
      var last := lines[|lines| - 1];
      SignificantLines(lines[..|lines| - 1], prefix) + if Significant(last, prefix) then [last] else []
  }

  /** A single line is kept exactly when it is significant. */
  lemma SignificantLine(l: Line, prefix: string)
    ensures SignificantLines([l], prefix) == if Significant(l, prefix) then [l] else []
  {
    assert [l][..0] == [];
  }

  /** A concatenation is filtered part by part; with SignificantLine, every
      significant line is kept, in order. */
  lemma {:induction false} SignificantLinesAppend(a: seq<Line>, b: seq<Line>, prefix: string)
    ensures SignificantLines(a + b, prefix) == SignificantLines(a, prefix) + SignificantLines(b, prefix)
    decreases |b|
  {
    if b == [] {
      assert a + b == a;
    } else {
      var init := b[..|b| - 1];
      var last := b[|b| - 1];
      SignificantLinesAppend(a, init, prefix);
      assert (a + b)[..|a + b| - 1] == a + init && (a + b)[|a + b| - 1] == last;
    }
  }

  /** Blank lines and column-label lines change nothing: the parse of a file
      is the parse of the lines that are neither. */
  lemma {:induction false} MrtSkippedLines(lines: seq<Line>, toFloat: FloatParser, prefix: string)
    ensures MrtScanLines(SignificantLines(lines, prefix), toFloat, prefix) == MrtScanLines(lines, toFloat, prefix)
    ensures MrtParse(SignificantLines(lines, prefix), toFloat, prefix) == MrtParse(lines, toFloat, prefix)
  {
    if lines != [] {
      var init, last := lines[..|lines| - 1], lines[|lines| - 1];
      MrtSkippedLines(init, toFloat, prefix);
      var sl := SignificantLines(lines, prefix);
      if Significant(last, prefix) {
        assert sl == SignificantLines(init, prefix) + [last];
        assert sl[..|sl| - 1] == SignificantLines(init, prefix) && sl[|sl| - 1] == last;
      } else {
        assert sl == SignificantLines(init, prefix) + [];
        assert sl == SignificantLines(init, prefix);
      }
    }
  }

  /** An exception on one line ends the whole parse with that exception. */
  lemma {:induction false} MrtFailureAborts(lines: seq<Line>, toFloat: FloatParser, prefix: string, i: nat)
    requires i <= |lines| && MrtScanLines(lines[..i], toFloat, prefix).Failure?
    ensures MrtScanLines(lines, toFloat, prefix) == MrtScanLines(lines[..i], toFloat, prefix)
    decreases |lines| - i
  {
    if i < |lines| {
      assert lines[..i + 1][..i] == lines[..i];
      MrtFailureAborts(lines, toFloat, prefix, i + 1);
    } else {
      assert lines[..i] == lines;
    }
  }

  /** The stored blocks form a dict: each time once, every time with its block. */
  lemma {:induction false} MrtScanValid(lines: seq<Line>, toFloat: FloatParser, prefix: string)
    requires MrtScanLines(lines, toFloat, prefix).Success?
    ensures MrtScanLines(lines, toFloat, prefix).value.data.Valid()
  {
    if lines != [] {
      MrtScanValid(lines[..|lines| - 1], toFloat, prefix);
    }
  }

  ghost predicate PrefixBefore(lines: seq<Line>, prefix: string, i: int) {
    exists j :: 0 <= j < i && j < |lines| && |lines[j]| > 0 && lines[j][0] == prefix
  }

  /** Before the first time line nothing is read: the state is the initial
      one, whatever the lines hold. */
  lemma {:induction false} MrtNothingBeforePrefix(lines: seq<Line>, toFloat: FloatParser, prefix: string)
    requires !PrefixBefore(lines, prefix, |lines|)
    ensures MrtScanLines(lines, toFloat, prefix) == Success(MrtStart())
    ensures MrtParse(lines, toFloat, prefix) == Success(Empty())
  {
    if lines != [] {
      var init := lines[..|lines| - 1];
      assert !PrefixBefore(init, prefix, |init|) by {
        forall j | 0 <= j < |init|
          ensures !(|init[j]| > 0 && init[j][0] == prefix)
        {
          assert init[j] == lines[j];
        }
      }
      MrtNothingBeforePrefix(init, toFloat, prefix);
    }
  }

  /** A time line always flushes a non-empty block under the previous time.
      A negative time switches recording off but keeps the block, so that
      block is stored again, under the negative time, at the next time line
      or at the end of the file; a zero or positive time opens an empty block. */
  lemma TimeLine(s: MrtScan, line: Line, toFloat: FloatParser, prefix: string)
    requires |line| >= 2 && line[0] == prefix && toFloat(line[1]).Some?
    ensures var t := toFloat(line[1]).value;
            var r := MrtStep(s, line, toFloat, prefix);
            && r.Success?
            && r.value.timeInfo == t && r.value.data == Flush(s)
            && (t < 0.0 ==> !r.value.recording && r.value.block == s.block)
            && (t >= 0.0 ==> r.value.recording && r.value.block == map[])
  {
  }

  /** A non-empty block followed by a time line with a negative time and the
      end of the file: the block is stored under its own time and again under
      the negative time. */
  lemma NegativeTimeStoresBlockAgain(lines: seq<Line>, toFloat: FloatParser, prefix: string, u: string)
    requires MrtScanLines(lines, toFloat, prefix).Success?
    requires |MrtScanLines(lines, toFloat, prefix).value.block| > 0
    requires toFloat(u).Some? && toFloat(u).value < 0.0
    ensures var s := MrtScanLines(lines, toFloat, prefix).value;
            var d := MrtParse(lines + [[prefix, u]], toFloat, prefix);
            && d.Success?
            && d.value.values == s.data.values[s.timeInfo := s.block][toFloat(u).value := s.block]
  {
    var all := lines + [[prefix, u]];
    assert all[..|all| - 1] == lines;
    TimeLine(MrtScanLines(lines, toFloat, prefix).value, [prefix, u], toFloat, prefix);
  }

  /** Every token of a row parses and the row has no more tokens than
      labels: each label holds the value of the last column carrying it. */
  lemma {:induction false} RowLastLabelWins(labels: seq<string>, block: Block, line: Line, toFloat: FloatParser, w: nat, k: nat)
    requires w <= |line| && w <= |labels| && k < w
    requires forall j :: 0 <= j < w ==> toFloat(line[j]).Some?
    requires forall j :: k < j < w ==> labels[j] != labels[k]
    ensures StoreRowPrefix(labels, block, line, toFloat, w).Success?
    ensures labels[k] in StoreRowPrefix(labels, block, line, toFloat, w).value
    ensures StoreRowPrefix(labels, block, line, toFloat, w).value[labels[k]] == toFloat(line[k]).value
  {
    if k < w - 1 {
      RowLastLabelWins(labels, block, line, toFloat, w - 1, k);
    } else {
      RowParses(labels, block, line, toFloat, w - 1);
    }
  }

  /** A row whose tokens all parse and that has no more tokens than labels is stored. */
  lemma {:induction false} RowParses(labels: seq<string>, block: Block, line: Line, toFloat: FloatParser, w: nat)
    requires w <= |line| && w <= |labels|
    requires forall j :: 0 <= j < w ==> toFloat(line[j]).Some?
    ensures StoreRowPrefix(labels, block, line, toFloat, w).Success?
  {
    if w > 0 {
      RowParses(labels, block, line, toFloat, w - 1);
    }
  }

  /** A row with more tokens than labels, all of which parse, raises IndexError. */
  lemma TooManyColumns(labels: seq<string>, block: Block, line: Line, toFloat: FloatParser)
    requires |line| > |labels|
    requires forall j :: 0 <= j < |line| ==> toFloat(line[j]).Some?
    ensures StoreRowPrefix(labels, block, line, toFloat, |line|) == Failure(IndexOutOfRange)
  {
    RowParses(labels, block, line, toFloat, |labels|);
    assert StoreRowPrefix(labels, block, line, toFloat, |labels| + 1) == Failure(IndexOutOfRange);
    RowFailureStays(labels, block, line, toFloat, |labels| + 1, |line|);
  }

  /** With the MRT labels, 'ZON' names columns 0 and 12: a row of 13 to 18
      tokens that all parse leaves column 12's value under 'ZON'. */
  lemma ZonHoldsColumn12(block: Block, line: Line, toFloat: FloatParser)
    requires 13 <= |line| <= 18
    requires forall j :: 0 <= j < |line| ==> toFloat(line[j]).Some?
    ensures StoreRowPrefix(MrtLabels, block, line, toFloat, |line|).Success?
    ensures "ZON" in StoreRowPrefix(MrtLabels, block, line, toFloat, |line|).value
    ensures StoreRowPrefix(MrtLabels, block, line, toFloat, |line|).value["ZON"] == toFloat(line[12]).value
  {
    MrtLabelsZon();
    RowLastLabelWins(MrtLabels, block, line, toFloat, |line|, 12);
  }

  /** The store rule for one token, whatever its column k: a token that
      parses goes under labels[k]; one that does not is repaired at
      p = SignPosition (the first '-', else the first '+'), and its value
      goes under labels[p], so k plays no part. No sign, or a repair that
      still does not parse, is a ValueError; a label position past the
      labels is an IndexError. */
  lemma StoreValueRule(labels: seq<string>, block: Block, k: nat, value: string, toFloat: FloatParser)
    ensures var r := StoreValue(labels, block, k, value, toFloat);
      && (toFloat(value).Some? && k < |labels| ==> r == Success(block[labels[k] := toFloat(value).value]))
      && (toFloat(value).Some? && k >= |labels| ==> r == Failure(IndexOutOfRange))
      && (toFloat(value).None? && '-' !in value && '+' !in value ==> r == Failure(MalformedNumber))
    ensures var p := SignPosition(value);
      toFloat(value).None? && p >= 0 ==>
        var r := StoreValue(labels, block, k, value, toFloat);
        var x := toFloat(Repaired(value, p));
        && (x.None? ==> r == Failure(MalformedNumber))
        && (x.Some? && p >= |labels| ==> r == Failure(IndexOutOfRange))
        && (x.Some? && p < |labels| ==> r == Success(block[labels[p] := x.value]))
    ensures toFloat(value).None? ==>
      forall c: nat :: StoreValue(labels, block, c, value, toFloat) == StoreValue(labels, block, k, value, toFloat)
  {
  }

  /** `2.08-100` lacks its exponent marker: it goes in before the '-' at
      position 4. */
  lemma RepairedExample(v: string)
    requires v == "2.08-100"
    ensures SignPosition(v) == 4
    ensures Repaired(v, 4) == "2.08E-100"
  {
    assert v[4] == '-' && v[0] != '-' && v[1] != '-' && v[2] != '-' && v[3] != '-';
    assert v[..4] == "2.08" && v[4..] == "-100";
  }

  /** Whatever column `2.08-100` stands in, its repaired value is stored
      under the label of column 4. */
  lemma RepairExample(labels: seq<string>, block: Block, k: nat, v: string, toFloat: FloatParser)
    requires v == "2.08-100" && |labels| > 4
    requires toFloat(v).None? && toFloat("2.08E-100").Some?
    ensures StoreValue(labels, block, k, v, toFloat)
              == Success(block[labels[4] := toFloat("2.08E-100").value])
  {
    RepairedExample(v);
  }

  /** A literal that does not parse and starts with '-' is repaired at
      position 0 into 'E' followed by the literal, and stored under the
      first label. */
  lemma RepairAtStart(labels: seq<string>, block: Block, k: nat, value: string, toFloat: FloatParser)
    requires |value| > 0 && value[0] == '-' && toFloat(value).None?
    requires |labels| > 0 && toFloat("E" + value).Some?
    ensures SignPosition(value) == 0 && Repaired(value, 0) == "E" + value
    ensures StoreValue(labels, block, k, value, toFloat) == Success(block[labels[0] := toFloat("E" + value).value])
  {
    assert Repaired(value, 0) == "E" + value;
  }

  /** A literal that does not parse and has neither sign is a ValueError. */
  lemma RepairNeedsSign(labels: seq<string>, block: Block, k: nat, value: string, toFloat: FloatParser)
    requires toFloat(value).None? && '-' !in value && '+' !in value
    ensures StoreValue(labels, block, k, value, toFloat) == Failure(MalformedNumber)
  {
  }

  // ------------------------------------------------------------ the parser

  class MrtParser {
    const filename: string
    var data: OrderedMap<real, Block>

    ghost predicate Valid()
      reads this
    {
      data.Valid()
    }

    constructor (filename: string)
      ensures this.filename == filename && data == Empty()
    {
      this.filename := filename;
      data := Empty();
    }

    /** _store_data: one pass over the lines, then the final flush. */
    method StoreData(lines: seq<Line>, toFloat: FloatParser, prefix: string) returns (outcome: Outcome)
      requires data == Empty()
      modifies this
      ensures outcome.Pass? <==> MrtParse(lines, toFloat, prefix).Success?
      ensures outcome.Fail? ==> MrtParse(lines, toFloat, prefix) == Failure(outcome.error)
      ensures outcome.Pass? ==> data == MrtParse(lines, toFloat, prefix).value && Valid()
    {
      var timestepData: Block := map[];
      var timeInfo := 0.0;
      var recordValue := false;
      var i := 0;
      while i < |lines|
        invariant 0 <= i <= |lines|
        invariant MrtScanLines(lines[..i], toFloat, prefix) == Success(MrtScan(recordValue, timeInfo, timestepData, data))
      {
        assert lines[..i + 1][..i] == lines[..i];
        var line := lines[i];
        ghost var before := MrtScan(recordValue, timeInfo, timestepData, data);
        var raised: Option<Error> := None;
        if line != [] {
          if line[0] == prefix {
            recordValue := true;
            if |timestepData| > 0 {
              data := Put(data, timeInfo, timestepData);
            }
            if |line| < 2 {
              raised := Some(IndexOutOfRange);
            } else {
              var t := toFloat(line[1]);
              if t.None? {
                raised := Some(MalformedNumber);
              } else {
                timeInfo := t.value;
                if timeInfo < 0.0 {
                  recordValue := false;
                } else {
                  timestepData := map[];
                }
              }
            }
          } else if line[0] == MrtLabels[0] {
          } else if recordValue {
            var b := StoreRow(MrtLabels, timestepData, line, toFloat);
            if b.Failure? {
              raised := Some(b.error);
            } else {
              timestepData := b.value;
            }
          }
        }
        if raised.Some? {
          assert MrtStep(before, line, toFloat, prefix) == Failure(raised.value);
          assert MrtScanLines(lines[..i + 1], toFloat, prefix) == Failure(raised.value);
          MrtFailureAborts(lines, toFloat, prefix, i + 1);
          return Fail(raised.value);
        }
        assert MrtStep(before, line, toFloat, prefix) == Success(MrtScan(recordValue, timeInfo, timestepData, data));
        i := i + 1;
      }
      assert lines[..i] == lines;
      MrtScanValid(lines, toFloat, prefix);
      if |timestepData| > 0 {
        data := Put(data, timeInfo, timestepData);
      }
      return Pass;
    }
  }

  /** MRTParser(path): resolve `<last path segment>.mrt`, read it, parse it
      with the given time prefix. */
  method OpenMrt(path: string, isDir: bool, isFile: bool, prefix: string,
                 read: string -> Result<seq<Line>>, toFloat: FloatParser)
    returns (r: Result<MrtParser>)
    ensures var f := Paths.Resolve(path, Paths.LastSegment(path), ".mrt", isDir, isFile);
      r.Success? <==> && f.Success? && read(f.value).Success?
                      && MrtParse(read(f.value).value, toFloat, prefix).Success?
    ensures r.Success? ==>
      var f := Paths.Resolve(path, Paths.LastSegment(path), ".mrt", isDir, isFile).value;
      && r.value.filename == f && r.value.Valid()
      && r.value.data == MrtParse(read(f).value, toFloat, prefix).value
  {
    var f := Paths.Resolve(path, Paths.LastSegment(path), ".mrt", isDir, isFile);
    if f.Failure? {
      return Failure(f.error);
    }
    var lines := read(f.value);
    if lines.Failure? {
      return Failure(lines.error);
    }
    var p := new MrtParser(f.value);
    var outcome := p.StoreData(lines.value, toFloat, prefix);
    if outcome.Fail? {
      return Failure(outcome.error);
    }
    return Success(p);
  }
}
