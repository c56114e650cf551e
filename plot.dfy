/** The quantities the plotter derives from the three parsers
    (stella/core/plot.py): the mass coordinate of every zone, the photosphere
    found by lining the SWD and TT time grids up with find_closest, and the
    two levels plot_abn_data would draw. Nothing is drawn; `log10` and
    `10 ** x` are function parameters. */
module Plot {
  import opened Common
  import opened Config
  import opened NearestSearch
  import Tt
  import Swd
  import Abn

  /** np.log10 and np.power(10, x), whose floating-point values are not
      modelled. */
  datatype Numerics = Numerics(log10: real -> real, pow10: real -> real) {
    function Log10(x: real): real { log10(x) }
    function Pow10(x: real): real { pow10(x) }
  }

  /** _mass_coord: the total mass less 10 to the power of the logarithmic
      mass of every zone. */
  function MassCoord(totMass: real, logMass: seq<real>, num: Numerics): (m: seq<real>)
    ensures |m| == |logMass|
    ensures forall z :: 0 <= z < |logMass| ==> m[z] == totMass - num.Pow10(logMass[z])
  {
    seq(|logMass|, z requires 0 <= z < |logMass| => totMass - num.Pow10(logMass[z]))
  }

  /** When 10 ** x strictly increases and the logarithmic mass increases
      outward, the mass coordinate strictly decreases outward. */
  lemma MassCoordDecreasing(totMass: real, logMass: seq<real>, num: Numerics)
    requires forall x, y :: x < y ==> num.Pow10(x) < num.Pow10(y)
    requires forall a, b :: 0 <= a < b < |logMass| ==> logMass[a] < logMass[b]
    ensures forall a, b :: 0 <= a < b < |logMass| ==>
              MassCoord(totMass, logMass, num)[a] > MassCoord(totMass, logMass, num)[b]
  {
    forall a, b | 0 <= a < b < |logMass|
      ensures MassCoord(totMass, logMass, num)[a] > MassCoord(totMass, logMass, num)[b]
    {
      assert num.Pow10(logMass[a]) < num.Pow10(logMass[b]);
    }
  }

  /** log10(tot_mass - mass[z]) gives back the logarithmic mass of zone z
      when log10 undoes 10 ** x. */
  lemma MassCoordLogInverse(totMass: real, logMass: seq<real>, num: Numerics, z: nat)
    requires forall x :: num.Log10(num.Pow10(x)) == x
    requires z < |logMass|
    ensures num.Log10(totMass - MassCoord(totMass, logMass, num)[z]) == logMass[z]
  {
    assert totMass - MassCoord(totMass, logMass, num)[z] == num.Pow10(logMass[z]);
  }

  /** `data[step, :, SWD2IDX[R]]`: the radius of every zone at one step. */
  function RadiusProfile(data: Swd.Grid, nz: nat, step: nat): (rs: seq<real>)
    requires step < |data| && |data[step]| == nz
    requires forall z :: 0 <= z < nz ==> |data[step][z]| == SwdColumns
    ensures |rs| == nz
    ensures forall z :: 0 <= z < nz ==> rs[z] == data[step][z][SwdIndex(SwdField.R)]
  {
    seq(nz, z requires 0 <= z < nz => data[step][z][SwdIndex(SwdField.R)])
  }

  /** What the two photosphere searches read: the TT times and the R value of
      every TT record, the SWD times and time2idx, the radius profile of
      every SWD step and the mass coordinate of every zone. */
  datatype Alignment = Alignment(
    ttTimes: seq<real>, ttR: seq<real>,
    swdTimes: seq<real>, steps: map<real, nat>,
    radii: seq<seq<real>>, mass: seq<real>)
  {
    ghost predicate Valid() {
      && |ttR| == |ttTimes|
      && |radii| == |swdTimes| >= 1 && |mass| >= 1
      && (forall p :: 0 <= p < |radii| ==> |radii[p]| == |mass|)
      && (forall t :: t in steps <==> t in swdTimes)
      && (forall t :: t in steps ==> steps[t] < |swdTimes| && swdTimes[steps[t]] == t)
    }

    /** The mass coordinate of the zone whose radius at `step` is nearest rTau. */
    function MassAtRadius(step: nat, rTau: real): (m: real)
      requires Valid() && step < |radii|
      ensures exists z :: 0 <= z < |mass| && m == mass[z]
    {
      mass[ClosestIndex(radii[step], |mass|, rTau)]
    }

    /** Entry s of _photosphere_alter: the TT record nearest in time to SWD
        step s gives log10 R, and the step time2idx gives for step s's time
        is searched for the zone whose radius is nearest it. */
    function AlterEntry(num: Numerics, s: nat): real
      requires Valid() && s < |swdTimes| && ttTimes != []
    {
      var k := ClosestIndex(ttTimes, |ttTimes|, swdTimes[s]);
      MassAtRadius(steps[swdTimes[s]], num.Log10(ttR[k]))
    }

    /** Entry k of _photosphere: the SWD time nearest TT record k (find_closest
        in value mode), its step by time2idx, then the zone whose radius is
        nearest log10 R of record k. */
    function PhotosphereEntry(num: Numerics, k: nat): real
      requires Valid() && k < |ttTimes|
    {
      var t := swdTimes[ClosestIndex(swdTimes, |swdTimes|, ttTimes[k])];
      MassAtRadius(steps[t], num.Log10(ttR[k]))
    }
  }

  lemma AscendingAt(ts: seq<real>, a: int, b: int)
    requires Ascending(ts, |ts|) && 0 <= a < b < |ts|
    ensures ts[a] < ts[b]
  {
  }

  /** On strictly increasing SWD times time2idx sends step s's time back to s. */
  lemma StepOfOwnTime(g: Alignment, s: nat)
    requires g.Valid() && s < |g.swdTimes| && Ascending(g.swdTimes, |g.swdTimes|)
    ensures g.swdTimes[s] in g.steps && g.steps[g.swdTimes[s]] == s
  {
    assert g.swdTimes[s] in g.swdTimes;
    var p := g.steps[g.swdTimes[s]];
    if p < s {
      AscendingAt(g.swdTimes, p, s);
    } else if p > s {
      AscendingAt(g.swdTimes, s, p);
    }
  }

  /** SWD-to-TT: on ascending times and radii, entry s is the mass coordinate
      of the zone of step s whose radius is nearest log10 R of the TT record
      nearest in time (the later one on a tie). */
  lemma AlterNearest(g: Alignment, num: Numerics, s: nat)
    requires g.Valid() && s < |g.swdTimes| && g.ttTimes != []
    requires Ascending(g.ttTimes, |g.ttTimes|) && Ascending(g.swdTimes, |g.swdTimes|)
    requires Ascending(g.radii[s], |g.mass|)
    ensures exists k, z :: && NearestHigh(g.ttTimes, |g.ttTimes|, g.swdTimes[s], k)
                           && NearestHigh(g.radii[s], |g.mass|, num.Log10(g.ttR[k]), z)
                           && g.AlterEntry(num, s) == g.mass[z]
  {
    var k := ClosestIndex(g.ttTimes, |g.ttTimes|, g.swdTimes[s]);
    ClosestIsNearest(g.ttTimes, |g.ttTimes|, g.swdTimes[s]);
    StepOfOwnTime(g, s);
    var rTau := num.Log10(g.ttR[k]);
    var z := ClosestIndex(g.radii[s], |g.mass|, rTau);
    ClosestIsNearest(g.radii[s], |g.mass|, rTau);
    assert g.AlterEntry(num, s) == g.mass[z];
  }

  /** TT-to-SWD: on ascending times and radii, entry k is the mass coordinate
      of the zone, in the SWD step nearest in time to TT record k, whose
      radius is nearest log10 R of that record. */
  lemma PhotosphereNearest(g: Alignment, num: Numerics, k: nat)
    requires g.Valid() && k < |g.ttTimes|
    requires Ascending(g.swdTimes, |g.swdTimes|)
    requires forall p :: 0 <= p < |g.radii| ==> Ascending(g.radii[p], |g.mass|)
    ensures exists p, z :: && NearestHigh(g.swdTimes, |g.swdTimes|, g.ttTimes[k], p)
                           && NearestHigh(g.radii[p], |g.mass|, num.Log10(g.ttR[k]), z)
                           && g.PhotosphereEntry(num, k) == g.mass[z]
  {
    var p := ClosestIndex(g.swdTimes, |g.swdTimes|, g.ttTimes[k]);
    ClosestIsNearest(g.swdTimes, |g.swdTimes|, g.ttTimes[k]);
    StepOfOwnTime(g, p);
    var rTau := num.Log10(g.ttR[k]);
    var z := ClosestIndex(g.radii[p], |g.mass|, rTau);
    ClosestIsNearest(g.radii[p], |g.mass|, rTau);
    assert g.PhotosphereEntry(num, k) == g.mass[z];
  }

  /** Python truthiness of an option value. */
  predicate Truthy(s: Setting) {
    match s
    case Flag(b) => b
    case Amount(x) => x != 0.0
    case Text(t) => t != ""
  }

  /** `xs[i]` on a NumPy array: negative positions count from the end. */
  function PyIndex(xs: seq<real>, i: int): (r: Result<real>)
    ensures r.Success? <==> -|xs| <= i < |xs|
    ensures r.Failure? ==> r.error == IndexOutOfRange
    ensures 0 <= i < |xs| ==> r == Success(xs[i])
    ensures -|xs| <= i < 0 ==> r == Success(xs[|xs| + i])
  {
    if 0 <= i < |xs| then Success(xs[i])
    else if -|xs| <= i < 0 then Success(xs[|xs| + i])
    else Failure(IndexOutOfRange)
  }

  /** `build_configuration(key, **kwargs)['log_mass']`, as Python tests it. */
  predicate LogMass(key: Key, kwargs: map<string, Setting>) {
    LogMassOption(key, kwargs);
    Truthy(BuildConfiguration(key, kwargs)["log_mass"])
  }

  class Plotter {
    const tt: Tt.TtParser
    const swd: Swd.SwdParser
    const abn: Abn.AbnParser
    const num: Numerics
    var totMass: real
    var mass: seq<real>
    var photosphere: seq<real>
    /** Whether `ax1` is set; only plot() sets it, and plot() draws. */
    var hasAxes: bool

    /** The parsers hold data and the mass coordinate is the one _mass_coord
        computes from the TT total mass and the SWD mass profile. */
    ghost predicate Valid()
      reads this, tt, swd, abn
    {
      && tt.Valid() && swd.Valid() && abn.Valid()
      && tt.stellarInfo.Some? && totMass == tt.stellarInfo.value.mass
      && mass == MassCoord(totMass, swd.Mass(), num)
    }

    /** The fields set before the photosphere: tot_mass and mass. */
    constructor (tt: Tt.TtParser, swd: Swd.SwdParser, abn: Abn.AbnParser,
                 num: Numerics)
      requires tt.Valid() && swd.Valid() && abn.Valid() && tt.stellarInfo.Some?
      ensures this.tt == tt && this.swd == swd && this.abn == abn
      ensures this.num == num
      ensures totMass == tt.stellarInfo.value.mass
      ensures mass == MassCoord(totMass, swd.Mass(), num)
      ensures photosphere == [] && !hasAxes && Valid()
    {
      this.tt := tt;
      this.swd := swd;
      this.abn := abn;
      this.num := num;
      totMass := tt.stellarInfo.value.mass;
      mass := MassCoord(tt.stellarInfo.value.mass, swd.Mass(), num);
      photosphere := [];
      hasAxes := false;
    }

    /** The view of the parsers that the photosphere searches read. */
    function View(): (g: Alignment)
      reads this, tt, swd, abn
      requires Valid()
      ensures g.Valid()
      ensures g.ttTimes == tt.Times() && g.ttR == tt.Series(TtField.R)
      ensures g.swdTimes == swd.Times() && g.steps == swd.Time2Idx() && g.mass == mass
      ensures |g.radii| == |swd.data|
      ensures forall s :: 0 <= s < |swd.data| ==> g.radii[s] == RadiusProfile(swd.data, swd.numZon, s)
    {
      var d, nz := swd.data, swd.numZon;
      Alignment(tt.Times(), tt.Series(TtField.R), swd.Times(), swd.Time2Idx(),
                seq(|d|, s requires 0 <= s < |d| => RadiusProfile(d, nz, s)), mass)
    }

    /** _photosphere_alter, from the plotter's parsers. */
    method PhotosphereAlter() returns (r: Result<seq<real>>)
      requires Valid()
      ensures r.Failure? <==> tt.Times() == []
      ensures r.Failure? ==> r.error == IndexOutOfRange
      ensures r.Success? ==> && |r.value| == |swd.Times()|
                             && forall s :: 0 <= s < |r.value| ==> r.value[s] == View().AlterEntry(num, s)
    {
      r := AlignAlter(View(), num);
    }

    /** _photosphere, from the plotter's parsers. */
    method Photosphere() returns (r: Result<seq<real>>)
      requires Valid()
      ensures r.Failure? <==> exists i :: 0 <= i < |swd.Times()| - 1 && swd.Times()[i] > swd.Times()[i + 1]
      ensures r.Failure? ==> r.error == NotSorted
      ensures r.Success? ==> && |r.value| == |tt.Times()|
                             && forall k :: 0 <= k < |r.value| ==> r.value[k] == View().PhotosphereEntry(num, k)
    {
      var g := View();
      r := AlignPhotosphere(g, num);
      assert g.swdTimes == swd.Times();
    }

    /** The two levels plot_abn_data draws for `key`, or None when it returns
        without drawing: no axes yet, a key that is neither an ABN member nor
        a tuple, or no zone above the threshold. */
    function AbnLevels(key: Key, threshold: real, kwargs: map<string, Setting>): (r: Result<Option<(real, real)>>)
      reads this, abn
      requires abn.Valid()
    {
      if !hasAxes || !(key.AbnKey? || key.TupleKey?) then Success(None)
      else
        var band :- Abn.ElementData(abn.data, key, threshold);
        BandLevels(band.value, LogMass(key, kwargs))
    }

    /** What follows get_element_data: nothing for (-1, -1); otherwise the
        mass coordinates of the first and last zone of the band, or
        log10(tot_mass - mass) of each when log_mass is set. */
    function BandLevels(band: (int, int), logMass: bool): (r: Result<Option<(real, real)>>)
      reads this
    {
      var (low, high) := band;
      if low == -1 && high == -1 then Success(None)
      else
        var massLow :- PyIndex(mass, low);
        var massHigh :- PyIndex(mass, high);
        if logMass then Success(Some((num.Log10(totMass - massLow), num.Log10(totMass - massHigh))))
        else Success(Some((massLow, massHigh)))
    }

    /** plot_abn_data(key, threshold, **kwargs) up to the drawing. */
    method PlotAbnData(key: Key, threshold: real := Abn.DefaultThreshold, kwargs: map<string, Setting>)
      returns (r: Result<Option<(real, real)>>)
      requires abn.Valid()
      ensures r == AbnLevels(key, threshold, kwargs)
    {
      if !hasAxes {
        return Success(None);
      }
      if !(key.AbnKey? || key.TupleKey?) {
        return Success(None);
      }
      var band := abn.GetElementData(key, threshold);
      if band.Failure? {
        return Failure(band.error);
      }
      r := Levels(band.value.value, LogMass(key, kwargs));
    }

    /** Lines 152-164 of plot_abn_data. */
    method Levels(band: (int, int), logMass: bool) returns (r: Result<Option<(real, real)>>)
      ensures r == BandLevels(band, logMass)
    {
      var (low, high) := band;
      if low == -1 && high == -1 {
        return Success(None);
      }
      var massLow := PyIndex(mass, low);
      if massLow.Failure? {
        return Failure(massLow.error);
      }
      var massHigh := PyIndex(mass, high);
      if massHigh.Failure? {
        return Failure(massHigh.error);
      }
      if logMass {
        return Success(Some((num.Log10(totMass - massLow.value), num.Log10(totMass - massHigh.value))));
      }
      return Success(Some((massLow.value, massHigh.value)));
    }
  }

  /** plot_abn_data draws nothing exactly when there are no axes, the key is
      neither an ABN member nor a tuple, or no zone exceeds the threshold. */
  lemma AbnNothingDrawn(p: Plotter, key: Key, threshold: real, kwargs: map<string, Setting>)
    requires p.abn.Valid()
    ensures p.AbnLevels(key, threshold, kwargs) == Success(None) <==>
              || !p.hasAxes || !(key.AbnKey? || key.TupleKey?)
              || Abn.ElementData(p.abn.data, key, threshold) == Success(Some((-1, -1)))
  {
    if p.hasAxes && (key.AbnKey? || key.TupleKey?) {
      var e := Abn.ElementData(p.abn.data, key, threshold);
      if e.Success? {
        assert p.AbnLevels(key, threshold, kwargs) == p.BandLevels(e.value.value, LogMass(key, kwargs));
        if e.value.value != (-1, -1) {
          BandLevelsOfBand(p, e.value.value, LogMass(key, kwargs));
        }
      }
    }
  }

  /** For a band (low, high), its last zone must be a zone of the mass
      coordinate (IndexError otherwise), and the levels are the mass
      coordinates of its first and last zone, or log10(tot_mass - mass) of
      each. */
  lemma BandLevelsOfBand(p: Plotter, band: (int, int), logMass: bool)
    requires 0 <= band.0 <= band.1
    ensures var (low, high) := band;
            var r := p.BandLevels(band, logMass);
            && (r.Failure? <==> high >= |p.mass|)
            && (r.Failure? ==> r.error == IndexOutOfRange)
            && (r.Success? && !logMass ==> r.value == Some((p.mass[low], p.mass[high])))
            && (r.Success? && logMass ==>
                  r.value == Some((p.num.Log10(p.totMass - p.mass[low]), p.num.Log10(p.totMass - p.mass[high]))))
  {
  }

  /** Once plot_abn_data finds a band (low, high), its last zone must be a
      zone of the mass coordinate (IndexError otherwise), and the levels it
      draws are the mass coordinates of its first and last zone, or
      log10(tot_mass - mass) of each when log_mass is set. */
  lemma AbnLevelsOfBand(p: Plotter, key: Key, threshold: real, kwargs: map<string, Setting>, band: (int, int))
    requires p.abn.Valid() && p.hasAxes && (key.AbnKey? || key.TupleKey?)
    requires Abn.ElementData(p.abn.data, key, threshold) == Success(Some(band)) && band != (-1, -1)
    ensures var (low, high) := band;
            var r := p.AbnLevels(key, threshold, kwargs);
            && (r.Failure? <==> high >= |p.mass|)
            && (r.Failure? ==> r.error == IndexOutOfRange)
            && (r.Success? && !LogMass(key, kwargs) ==> r.value == Some((p.mass[low], p.mass[high])))
            && (r.Success? && LogMass(key, kwargs) ==>
                  r.value == Some((p.num.Log10(p.totMass - p.mass[low]), p.num.Log10(p.totMass - p.mass[high]))))
  {
    assert p.AbnLevels(key, threshold, kwargs) == p.BandLevels(band, LogMass(key, kwargs));
    BandLevelsOfBand(p, band, LogMass(key, kwargs));
  }

  /** On the log_mass scale the levels of a band are the logarithmic masses
      that _mass_coord built the mass coordinate from (the SWD mass profile,
      by Valid()), taken at the band's first and last zone, when log10
      undoes 10 ** x. */
  lemma LogLevelsAreSwdMass(p: Plotter, band: (int, int), logMass: seq<real>)
    requires 0 <= band.0 <= band.1
    requires p.mass == MassCoord(p.totMass, logMass, p.num)
    requires forall x :: p.num.Log10(p.num.Pow10(x)) == x
    ensures var r := p.BandLevels(band, true);
            && (r.Success? <==> band.1 < |logMass|)
            && (r.Success? ==> r.value == Some((logMass[band.0], logMass[band.1])))
  {
    BandLevelsOfBand(p, band, true);
    if band.1 < |logMass| {
      MassCoordLogInverse(p.totMass, logMass, p.num, band.0);
      MassCoordLogInverse(p.totMass, logMass, p.num, band.1);
    }
  }

  /** The loop of _photosphere_alter: for every SWD time the nearest TT
      record (find_closest in index mode) gives log10 R, and the profile of
      the step time2idx names is searched for it. IndexError when TT holds no
      record, since find_closest reads arr[0]. */
  method AlignAlter(g: Alignment, num: Numerics) returns (r: Result<seq<real>>)
    requires g.Valid()
    ensures r.Failure? <==> g.ttTimes == []
    ensures r.Failure? ==> r.error == IndexOutOfRange
    ensures r.Success? ==> && |r.value| == |g.swdTimes|
                           && forall s :: 0 <= s < |r.value| ==> r.value[s] == g.AlterEntry(num, s)
  {
    var ttTimes, swdTimes := g.ttTimes, g.swdTimes;
    if |ttTimes| == 0 {
      return Failure(IndexOutOfRange);
    }
    var close := [];
    var s := 0;
    while s < |swdTimes|
      invariant 0 <= s <= |swdTimes| && |close| == s
      invariant forall q :: 0 <= q < s ==> close[q] == ClosestIndex(ttTimes, |ttTimes|, swdTimes[q])
    {
      var k := FindClosestIndex(ttTimes, |ttTimes|, swdTimes[s]);
      close := close + [k];
      s := s + 1;
    }
    var rTaus := seq(|swdTimes|, q requires 0 <= q < |swdTimes| => num.Log10(g.ttR[close[q]]));
    var rTauMass := [];
    s := 0;
    while s < |swdTimes|
      invariant 0 <= s <= |swdTimes| && |rTauMass| == s
      invariant forall q :: 0 <= q < s ==> rTauMass[q] == g.AlterEntry(num, q)
    {
      var step := g.steps[swdTimes[s]];
      var idx := FindClosestIndex(g.radii[step], |g.mass|, rTaus[s]);
      rTauMass := rTauMass + [g.mass[idx]];
      s := s + 1;
    }
    return Success(rTauMass);
  }

  /** `for i, j in zip(sorted(ts), ts): assert i == j`: a sequence equals
      its sorted copy exactly when no element exceeds the next one. */
  method InSortedOrder(ts: seq<real>) returns (sorted: bool)
    ensures sorted <==> forall j :: 0 <= j < |ts| - 1 ==> ts[j] <= ts[j + 1]
  {
    var i := 0;
    while i < |ts| - 1
      invariant 0 <= i <= |ts|
      invariant forall j :: 0 <= j < i && j < |ts| - 1 ==> ts[j] <= ts[j + 1]
    {
      if ts[i] > ts[i + 1] {
        return false;
      }
      i := i + 1;
    }
    return true;
  }

  /** The body of _photosphere: every TT time is mapped to the nearest SWD
      time (find_closest in value mode) and that time to its step; the SWD
      times must already be in sorted order (AssertionError otherwise), which
      comparing with sorted(swd_times) checks and comparing neighbours
      checks equally. */
  method AlignPhotosphere(g: Alignment, num: Numerics) returns (r: Result<seq<real>>)
    requires g.Valid()
    ensures r.Failure? <==> exists i :: 0 <= i < |g.swdTimes| - 1 && g.swdTimes[i] > g.swdTimes[i + 1]
    ensures r.Failure? ==> r.error == NotSorted
    ensures r.Success? ==> && |r.value| == |g.ttTimes|
                           && forall k :: 0 <= k < |r.value| ==> r.value[k] == g.PhotosphereEntry(num, k)
  {
    var ttTimes, swdTimes := g.ttTimes, g.swdTimes;
    var rTaus := seq(|g.ttR|, k requires 0 <= k < |g.ttR| => num.Log10(g.ttR[k]));
    var closestTime := [];
    var k := 0;
    while k < |ttTimes|
      invariant 0 <= k <= |ttTimes| && |closestTime| == k
      invariant forall q :: 0 <= q < k ==>
                  closestTime[q] == AtValue(swdTimes[ClosestIndex(swdTimes, |swdTimes|, ttTimes[q])])
    {
      var t := FindClosest(swdTimes, |swdTimes|, ttTimes[k], false);
      closestTime := closestTime + [t];
      k := k + 1;
    }
    var sorted := InSortedOrder(swdTimes);
    if !sorted {
      return Failure(NotSorted);
    }
    var rTauMass := [];
    k := 0;
    while k < |ttTimes|
      invariant 0 <= k <= |ttTimes| && |rTauMass| == k
      invariant forall q :: 0 <= q < k ==> rTauMass[q] == g.PhotosphereEntry(num, q)
    {
      var step := g.steps[closestTime[k].value];
      var idx := FindClosestIndex(g.radii[step], |g.mass|, rTaus[k]);
      rTauMass := rTauMass + [g.mass[idx]];
      k := k + 1;
    }
    return Success(rTauMass);
  }

  /** Plotter(root, prefix) once the three parsers exist: KeyError when the
      TT file gave no MASS(SOLAR)= line, IndexError when it gave no record;
      otherwise photosphere holds the SWD-to-TT alignment. */
  method NewPlotter(tt: Tt.TtParser, swd: Swd.SwdParser, abn: Abn.AbnParser,
                    num: Numerics)
    returns (r: Result<Plotter>)
    requires tt.Valid() && swd.Valid() && abn.Valid()
    ensures r.Failure? <==> tt.stellarInfo.None? || tt.Times() == []
    ensures r.Failure? ==> r.error == if tt.stellarInfo.None? then MissingKey else IndexOutOfRange
    ensures r.Success? ==> && r.value.tt == tt && r.value.swd == swd && r.value.abn == abn
                           && r.value.Valid() && !r.value.hasAxes
                           && |r.value.photosphere| == |swd.Times()|
                           && forall s :: 0 <= s < |swd.Times()| ==>
                                r.value.photosphere[s] == r.value.View().AlterEntry(num, s)
  {
    if tt.stellarInfo.None? {
      return Failure(MissingKey);
    }
    var p := new Plotter(tt, swd, abn, num);
    var ph := p.PhotosphereAlter();
    if ph.Failure? {
      return Failure(ph.error);
    }
    p.photosphere := ph.value;
    return Success(p);
  }
}
