/** Table labels of the first-generation parsers (utils/config.py): columns
    are named by strings rather than by enumeration members. */
module LegacyConfig {
  import opened Common

  /** MRT_TABLE_LABELS: 18 labels; 'ZON' appears twice, at 0 and at 12. */
  const MrtLabels: seq<string> := [
    "ZON", "AM/SOL", "R [1e+14]", "V [1e+8]", "T [1e+5]", "Trad [1e+5]",
    "lgD [1e-6]", "lgP [1e+7]", "XHI", "ENG", "LUM", "CAPPA", "ZON",
    "n_bar", "n_e", "Fe", "II", "III"]

  const MrtTimePrefix: string := "OBS.TIME="

  /** TT_TABLE_LABELS: 13 labels, all different. */
  const TtLabels: seq<string> := [
    "Tbb", "rbb", "Teff", "Rlast_sc", "R(tau2/3)", "Mbol", "MU", "MB", "MV",
    "MI", "MR", "Mbolavg", "gdepos"]

  const TtTimePrefix: string := "time"

  lemma TtLabelsDistinct()
    ensures |TtLabels| == 13 && Distinct(TtLabels)
  {
  }

  /** The repeated label: only columns 0 and 12 carry 'ZON'. */
  lemma MrtLabelsZon()
    ensures |MrtLabels| == 18
    ensures forall k :: 0 <= k < |MrtLabels| ==> (MrtLabels[k] == "ZON" <==> k == 0 || k == 12)
  {
  }
}
