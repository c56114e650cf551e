/** Field schemas and plot options (stella/utils/config.py). Every column
    index used by the parsers comes from the enumeration maps defined here. */
module Config {
  import opened Common

  /** `{k: v for v, k in enumerate(s)}`: each element of `s` is mapped to the
      position of its LAST occurrence, because a later entry of a dict
      comprehension replaces an earlier one. */
  function Enumerate<T(==,!new)>(s: seq<T>): (m: map<T, nat>)
    ensures forall x :: x in m <==> x in s
    ensures forall x :: x in m ==> m[x] < |s| && s[m[x]] == x
    ensures forall x, j :: x in m && m[x] < j < |s| ==> s[j] != x
  {
    if s == [] then map[] else Enumerate(s[..|s| - 1])[s[|s| - 1] := |s| - 1]
  }

  /** On a sequence without repetitions every element is mapped to its own position. */
  lemma EnumerateDistinct<T(!new)>(s: seq<T>, i: nat)
    requires Distinct(s) && i < |s|
    ensures s[i] in Enumerate(s) && Enumerate(s)[s[i]] == i
  {
    assert s[i] in s;
  }

  /** A sequence whose i-th element has rank i repeats no element. */
  lemma DistinctByRank<T>(s: seq<T>, rank: T -> nat)
    requires forall i :: 0 <= i < |s| ==> rank(s[i]) == i
    ensures Distinct(s)
  {
  }

  // ---------------------------------------------------------------- SWD
  datatype SwdField =
    | Time | Zon | Mass | R | V | T | Trad | Rho | P | Qv | Eng | Lum | KappaRosseland

  const SwdFields: seq<SwdField> := [
    SwdField.Time, SwdField.Zon, SwdField.Mass, SwdField.R, SwdField.V,
    SwdField.T, SwdField.Trad, SwdField.Rho, SwdField.P, SwdField.Qv,
    SwdField.Eng, SwdField.Lum, SwdField.KappaRosseland]

  /** len(SWD): the number of columns of one SWD row. */
  const SwdColumns: nat := 13

  /** SWD2IDX[f]: the column of field `f` in an SWD row. */
  function SwdIndex(f: SwdField): (i: nat)
    ensures i < SwdColumns == |SwdFields| && SwdFields[i] == f
  {
    match f
    case Time => 0
    case Zon => 1
    case Mass => 2
    case R => 3
    case V => 4
    case T => 5
    case Trad => 6
    case Rho => 7
    case P => 8
    case Qv => 9
    case Eng => 10
    case Lum => 11
    case KappaRosseland => 12
  }

  /** SWD2IDX assigns 0..12 in declaration order. */
  lemma SwdIndexValues()
    ensures forall i :: 0 <= i < |SwdFields| ==> SwdIndex(SwdFields[i]) == i
  {
    forall i | 0 <= i < |SwdFields| ensures SwdIndex(SwdFields[i]) == i {
      assert i == 0 || i == 1 || i == 2 || i == 3 || i == 4 || i == 5 || i == 6
        || i == 7 || i == 8 || i == 9 || i == 10 || i == 11 || i == 12;
    }
  }

  /** The dict comprehension over the enumeration gives every field the
      column SwdIndex gives it. */
  lemma SwdIndexIsEnumerate(f: SwdField)
    ensures f in Enumerate(SwdFields) && Enumerate(SwdFields)[f] == SwdIndex(f)
  {
    SwdIndexValues();
    DistinctByRank(SwdFields, SwdIndex);
    EnumerateDistinct(SwdFields, SwdIndex(f));
  }

  /** The three columns the derived quantities read. */
  lemma SwdNamedColumns()
    ensures SwdIndex(SwdField.Time) == 0 && SwdIndex(SwdField.Mass) == 2
    ensures SwdIndex(SwdField.R) == 3
  {
  }

  // ---------------------------------------------------------------- TT
  datatype TtField =
    | Tbb | Rbb | Teff | RlastSc | R | Mbol | Mu | Mb | Mv | Mi | Mr | MbolAvg | Gdepos

  const TtFields: seq<TtField> := [
    TtField.Tbb, TtField.Rbb, TtField.Teff, TtField.RlastSc, TtField.R,
    TtField.Mbol, TtField.Mu, TtField.Mb, TtField.Mv, TtField.Mi, TtField.Mr,
    TtField.MbolAvg, TtField.Gdepos]

  /** TT_TIME_PREFIX: the first token of the line that starts the TT table. */
  const TtTimePrefix: string := "time"

  /** TT2IDX[f]. */
  function TtIndex(f: TtField): (i: nat)
    ensures i < |TtFields| == 13 && TtFields[i] == f
  {
    match f
    case Tbb => 0
    case Rbb => 1
    case Teff => 2
    case RlastSc => 3
    case R => 4
    case Mbol => 5
    case Mu => 6
    case Mb => 7
    case Mv => 8
    case Mi => 9
    case Mr => 10
    case MbolAvg => 11
    case Gdepos => 12
  }

  /** The map assigns 0, 1, 2, ... in declaration order. */
  lemma TtIndexValues()
    ensures forall i :: 0 <= i < |TtFields| ==> TtIndex(TtFields[i]) == i
    ensures TtIndex(TtField.Tbb) == 0 && TtIndex(TtField.R) == 4
    ensures TtIndex(TtField.Gdepos) == 12
  {
    forall i | 0 <= i < |TtFields| ensures TtIndex(TtFields[i]) == i {
      assert i == 0 || i == 1 || i == 2 || i == 3 || i == 4 || i == 5 || i == 6
        || i == 7 || i == 8 || i == 9 || i == 10 || i == 11 || i == 12;
    }
  }

  /** The dict comprehension over the enumeration gives every field the
      column TtIndex gives it. */
  lemma TtIndexIsEnumerate(f: TtField)
    ensures f in Enumerate(TtFields) && Enumerate(TtFields)[f] == TtIndex(f)
  {
    TtIndexValues();
    DistinctByRank(TtFields, TtIndex);
    EnumerateDistinct(TtFields, TtIndex(f));
  }

  // ---------------------------------------------------------------- ABN
  /** ABN columns, including the six dummy columns that keep the indices of
      the real elements aligned with the file. */
  datatype AbnField =
    | Zon | Dum1 | Dum2 | Dum3 | H | He | C | N | O | Ne | Dum4 | Mg | Dum5
    | Si | S | Ar | Ca | Fe | Dum6 | Ni

  const AbnFields: seq<AbnField> := [
    AbnField.Zon, AbnField.Dum1, AbnField.Dum2, AbnField.Dum3, AbnField.H,
    AbnField.He, AbnField.C, AbnField.N, AbnField.O, AbnField.Ne,
    AbnField.Dum4, AbnField.Mg, AbnField.Dum5, AbnField.Si, AbnField.S,
    AbnField.Ar, AbnField.Ca, AbnField.Fe, AbnField.Dum6, AbnField.Ni]

  /** ABN2IDX[f]. */
  function AbnIndex(f: AbnField): (i: nat)
    ensures i < |AbnFields| == 20 && AbnFields[i] == f
  {
    match f
    case Zon => 0
    case Dum1 => 1
    case Dum2 => 2
    case Dum3 => 3
    case H => 4
    case He => 5
    case C => 6
    case N => 7
    case O => 8
    case Ne => 9
    case Dum4 => 10
    case Mg => 11
    case Dum5 => 12
    case Si => 13
    case S => 14
    case Ar => 15
    case Ca => 16
    case Fe => 17
    case Dum6 => 18
    case Ni => 19
  }

  /** The map assigns 0, 1, 2, ... in declaration order. */
  lemma AbnIndexValues()
    ensures forall i :: 0 <= i < |AbnFields| ==> AbnIndex(AbnFields[i]) == i
    ensures AbnIndex(AbnField.Zon) == 0 && AbnIndex(AbnField.H) == 4
    ensures AbnIndex(AbnField.Mg) == 11 && AbnIndex(AbnField.Ni) == 19
  {
    forall i | 0 <= i < |AbnFields| ensures AbnIndex(AbnFields[i]) == i {
      assert i == 0 || i == 1 || i == 2 || i == 3 || i == 4 || i == 5 || i == 6
        || i == 7 || i == 8 || i == 9 || i == 10 || i == 11 || i == 12 || i == 13
        || i == 14 || i == 15 || i == 16 || i == 17 || i == 18 || i == 19;
    }
  }

  /** The dict comprehension over the enumeration gives every field the
      column AbnIndex gives it. */
  lemma AbnIndexIsEnumerate(f: AbnField)
    ensures f in Enumerate(AbnFields) && Enumerate(AbnFields)[f] == AbnIndex(f)
  {
    AbnIndexValues();
    DistinctByRank(AbnFields, AbnIndex);
    EnumerateDistinct(AbnFields, AbnIndex(f));
  }

  // ---------------------------------------------------------------- MRT
  datatype MrtField =
    | Am | R | V | T | Trad | LogD | LogP | Xhi | Eng | Lum | Cappa | Zon
    | NBar | NE | Fe | II | III

  const MrtFields: seq<MrtField> := [
    MrtField.Am, MrtField.R, MrtField.V, MrtField.T, MrtField.Trad,
    MrtField.LogD, MrtField.LogP, MrtField.Xhi, MrtField.Eng, MrtField.Lum,
    MrtField.Cappa, MrtField.Zon, MrtField.NBar, MrtField.NE, MrtField.Fe,
    MrtField.II, MrtField.III]

  const MrtTimePrefix: string := "OBS.TIME="

  /** MRT2IDX[f]. */
  function MrtIndex(f: MrtField): (i: nat)
    ensures i < |MrtFields| == 17 && MrtFields[i] == f
  {
    match f
    case Am => 0
    case R => 1
    case V => 2
    case T => 3
    case Trad => 4
    case LogD => 5
    case LogP => 6
    case Xhi => 7
    case Eng => 8
    case Lum => 9
    case Cappa => 10
    case Zon => 11
    case NBar => 12
    case NE => 13
    case Fe => 14
    case II => 15
    case III => 16
  }

  /** The map assigns 0, 1, 2, ... in declaration order. */
  lemma MrtIndexValues()
    ensures forall i :: 0 <= i < |MrtFields| ==> MrtIndex(MrtFields[i]) == i
    ensures MrtIndex(MrtField.Am) == 0 && MrtIndex(MrtField.III) == 16
  {
    forall i | 0 <= i < |MrtFields| ensures MrtIndex(MrtFields[i]) == i {
      assert i == 0 || i == 1 || i == 2 || i == 3 || i == 4 || i == 5 || i == 6
        || i == 7 || i == 8 || i == 9 || i == 10 || i == 11 || i == 12 || i == 13
        || i == 14 || i == 15 || i == 16;
    }
  }

  /** The dict comprehension over the enumeration gives every field the
      column MrtIndex gives it. */
  lemma MrtIndexIsEnumerate(f: MrtField)
    ensures f in Enumerate(MrtFields) && Enumerate(MrtFields)[f] == MrtIndex(f)
  {
    MrtIndexValues();
    DistinctByRank(MrtFields, MrtIndex);
    EnumerateDistinct(MrtFields, MrtIndex(f));
  }

  // ---------------------------------------------------------------- keys
  /** Any value a caller may pass where the code expects a schema member: a
      member of one of the enumerations, a tuple of values, or anything else. */
  datatype Key =
    | SwdKey(swd: SwdField)
    | TtKey(tt: TtField)
    | AbnKey(abn: AbnField)
    | MrtKey(mrt: MrtField)
    | TupleKey(items: seq<Key>)
    | OtherKey

  // ---------------------------------------------------------------- options
  /** A keyword-argument value: the plot options are flags and one fraction;
      other keywords (a title, say) carry text. */
  datatype Setting = Flag(on: bool) | Amount(x: real) | Text(s: string)

  const ConfigDefaults: map<string, Setting> := map[
    "log_time" := Flag(false),
    "log_mass" := Flag(false),
    "magnitude" := Flag(false),
    "photosphere" := Flag(true),
    "log_time_mag" := Flag(false),
    "transparency" := Amount(0.6)]

  /** build_configuration(key, **kwargs): the six plot options, each taken
      from the keyword arguments when given there and defaulted otherwise;
      `key` is not consulted and other keywords are dropped. */
  function BuildConfiguration<K>(key: K, kwargs: map<string, Setting>): (config: map<string, Setting>)
    ensures config.Keys == ConfigDefaults.Keys
    ensures forall name :: name in config && name in kwargs ==> config[name] == kwargs[name]
    ensures forall name :: name in config && name !in kwargs ==> config[name] == ConfigDefaults[name]
  {
    map name | name in ConfigDefaults :: if name in kwargs then kwargs[name] else ConfigDefaults[name]
  }

  /** The log_mass option is always present. */
  lemma LogMassOption<K>(key: K, kwargs: map<string, Setting>)
    ensures "log_mass" in BuildConfiguration(key, kwargs)
  {
    assert "log_mass" in ConfigDefaults;
  }

  /** With no keyword arguments the defaults are returned, whatever the key. */
  lemma BuildConfigurationDefaults<K>(key: K)
    ensures BuildConfiguration(key, map[]) == ConfigDefaults
    ensures |ConfigDefaults| == 6
    ensures ConfigDefaults["photosphere"] == Flag(true)
    ensures ConfigDefaults["transparency"] == Amount(0.6)
    ensures ConfigDefaults["log_mass"] == Flag(false)
  {
    assert ConfigDefaults.Keys ==
      {"log_time", "log_mass", "magnitude", "photosphere", "log_time_mag", "transparency"};
  }

  /** The right operand of an arithmetic operator on an SWD member. */
  datatype Operand =
    | FieldOperand(field: SwdField)
    | ArrayOperand(values: seq<real>)
    | IntOperand(i: int)             // Python bool is an int and lands here
    | FloatOperand(x: real)
    | OtherOperand                   // anything of another type

  /** _valid_operation(SWD, other): TypeError unless `other` is an SWD member,
      an array, an int or a float. */
  function ValidOperation(other: Operand): (r: Outcome)
    ensures r.Fail? <==> other.OtherOperand?
    ensures r.Fail? ==> r.error == OperandType
  {
    if other.OtherOperand? then Fail(OperandType) else Pass
  }
}
