/** The LCA panel of the passport editor: the EN 15804 figures of the entered GWP values. */
module LcaCalculations {
  import opened Wrappers
  import opened Numbers

  /** `value || '0'`: an absent or empty input reads as zero. */
  function InputOrZero(x: Option<string>): (s: string)
    ensures x.None? || x.value == "" ==> s == "0"
    ensures x.Some? && x.value != "" ==> s == x.value
  {
    if x.Some? && x.value != "" then x.value else "0"
  }

  datatype Calculations = Calculations(
    a1: JsNumber, a2: JsNumber, a3: JsNumber, totalA1A3: JsNumber,
    stageD: JsNumber, netImpact: JsNumber, hasData: bool)

  /**
   * The memoised figures. The total is the sum of the three stages and the
   * net impact subtracts the Stage D reduction; the figures are shown only
   * when A1, A2 and A3 are all entered, whether or not Stage D is.
   */
  function Calculate(num: NumberFormat, gwpA1: Option<string>, gwpA2: Option<string>, gwpA3: Option<string>,
                     stageDReduction: Option<string>): (c: Calculations)
    ensures c.a1 == num.parse(InputOrZero(gwpA1)) && c.a2 == num.parse(InputOrZero(gwpA2))
    ensures c.a3 == num.parse(InputOrZero(gwpA3)) && c.stageD == num.parse(InputOrZero(stageDReduction))
    ensures c.totalA1A3.Finite? <==> c.a1.Finite? && c.a2.Finite? && c.a3.Finite?
    ensures c.totalA1A3.Finite? ==> c.totalA1A3.value == c.a1.value + c.a2.value + c.a3.value
    ensures c.netImpact.Finite? <==> c.totalA1A3.Finite? && c.stageD.Finite?
    ensures c.netImpact.Finite? ==> c.netImpact.value == c.totalA1A3.value - c.stageD.value
    ensures c.hasData <==> (gwpA1.Some? && gwpA1.value != "") && (gwpA2.Some? && gwpA2.value != "") && (gwpA3.Some? && gwpA3.value != "")
  {
    var a1 := num.parse(InputOrZero(gwpA1));
    var a2 := num.parse(InputOrZero(gwpA2));
    var a3 := num.parse(InputOrZero(gwpA3));
    var stageD := num.parse(InputOrZero(stageDReduction));
    var total := Add(Add(a1, a2), a3);
    Calculations(a1, a2, a3, total, stageD, Sub(total, stageD),
      (gwpA1.Some? && gwpA1.value != "") && (gwpA2.Some? && gwpA2.value != "") && (gwpA3.Some? && gwpA3.value != ""))
  }

  /** Without a Stage D value the net impact is the A1-A3 total. */
  lemma NoStageDMeansNetIsTotal(num: NumberFormat, gwpA1: Option<string>, gwpA2: Option<string>, gwpA3: Option<string>,
                                stageDReduction: Option<string>)
    requires num.parse("0") == Finite(0.0)
    requires stageDReduction.None? || stageDReduction.value == ""
    ensures var c := Calculate(num, gwpA1, gwpA2, gwpA3, stageDReduction);
            c.netImpact == c.totalA1A3
  {
  }

  /** A missing stage contributes nothing to the total. */
  lemma MissingStageIsZero(num: NumberFormat, gwpA2: Option<string>, gwpA3: Option<string>, stageDReduction: Option<string>)
    requires num.parse("0") == Finite(0.0)
    ensures var c := Calculate(num, None, gwpA2, gwpA3, stageDReduction);
            c.a1 == Finite(0.0) && !c.hasData && (c.totalA1A3.Finite? ==> c.totalA1A3.value == c.a2.value + c.a3.value)
  {
  }

  /** What the panel shows: a placeholder until A1-A3 are entered, then the three figures. */
  datatype Panel = Placeholder | Breakdown(total: JsNumber, stageD: JsNumber, net: JsNumber)

  function PanelOf(c: Calculations): (p: Panel)
    ensures p.Placeholder? <==> !c.hasData
    ensures p.Breakdown? ==> p.total == c.totalA1A3 && p.stageD == c.stageD && p.net == c.netImpact
  {
    if c.hasData then Breakdown(c.totalA1A3, c.stageD, c.netImpact) else Placeholder
  }

  /** A worked example on the form's placeholder figures: 0.89 + 0.12 + 1.44 is 2.45, and a Stage D reduction of 1.89 leaves 0.56. */
  lemma WorkedExample(num: NumberFormat)
    requires num.parse("0.89") == Finite(0.89) && num.parse("0.12") == Finite(0.12)
    requires num.parse("1.44") == Finite(1.44) && num.parse("1.89") == Finite(1.89)
    ensures var c := Calculate(num, Some("0.89"), Some("0.12"), Some("1.44"), Some("1.89"));
            c.hasData && c.totalA1A3 == Finite(2.45) && c.netImpact == Finite(0.56)
  {
  }
}
