/** The comparison view of the client
    (frontend/src/components/ComparisonView.jsx): the five radar rows with
    one value per pivot, and the bar entries of timeline and investment. */
module Comparison {
  import opened Lists
  import opened Text
  import opened Store

  /** A JavaScript number as this view can produce it: an integer, or NaN
      when an action count is missing. */
  datatype JsNumber = Finite(value: int) | NaN

  /** A pivot's analysis, or the empty object when it has none. */
  function AnalysisOf(p: PivotDoc): PivotAnalysis
  {
    p.analysis.GetOr(PivotAnalysis(None, None, None, None, None, None, None, None, None))
  }

  // ---------------------------------------------------------------------
  // Risk safety
  // ---------------------------------------------------------------------

  /** The risk-safety score: the lower-cased risk level looked up in the
      table low 90, medium 60, medium-high 40, high 20; anything else, and
      no level at all, scores 50. */
  function RiskScore(level: Option<string>): (score: nat)
    ensures level.None? ==> score == 50
    ensures score == 20 || score == 40 || score == 50 || score == 60 || score == 90
  {
    if level.None? then 50
    else
      var key := Lower(level.value);
      if key == "low" then 90
      else if key == "medium" then 60
      else if key == "medium-high" then 40
      else if key == "high" then 20
      else 50
  }

  lemma {:induction false} LowerIdempotent(s: string)
    ensures Lower(Lower(s)) == Lower(s)
  {
    if s != [] {
      LowerIdempotent(s[1..]);
      assert Lower(s)[1..] == Lower(s[1..]);
    }
  }

  /** Text without capitals is its own lower case. */
  lemma LowerOfLowercase(s: string)
    requires forall i :: 0 <= i < |s| ==> !('A' <= s[i] <= 'Z')
    ensures Lower(s) == s
  {
  }

  /** The level is matched ignoring case. */
  lemma RiskScoreIgnoresCase(level: string)
    ensures RiskScore(Some(level)) == RiskScore(Some(Lower(level)))
  {
    LowerIdempotent(level);
  }

  /** The riskier the level, the lower the safety. */
  lemma RiskScoresDecrease()
    ensures RiskScore(Some("low")) == 90 && RiskScore(Some("medium")) == 60
    ensures RiskScore(Some("medium-high")) == 40 && RiskScore(Some("high")) == 20
    ensures RiskScore(Some("severe")) == 50
  {
    LevelsAreLowercase();
  }

  /** The level names of the table are already in lower case. */
  lemma LevelsAreLowercase()
    ensures Lower("low") == "low" && Lower("medium") == "medium"
    ensures Lower("medium-high") == "medium-high" && Lower("high") == "high"
    ensures Lower("severe") == "severe"
  {
    LowerOfLowercase("low");
    LowerOfLowercase("medium");
    LowerOfLowercase("medium-high");
    LowerOfLowercase("high");
    LowerOfLowercase("severe");
  }

  // ---------------------------------------------------------------------
  // Action percentage
  // ---------------------------------------------------------------------

  /** `Math.round(completed / total * 100)` when the total is positive
      (rounding half up, on the exact quotient), NaN when the completed
      count is missing, and 0 when the total is missing or not positive. */
  function ActionPercent(completed: Option<int>, total: Option<int>): (r: JsNumber)
    ensures total.None? || total.value <= 0 ==> r == Finite(0)
    ensures total.Some? && total.value > 0 && completed.None? ==> r.NaN?
    ensures total.Some? && total.value > 0 && completed.Some? ==>
      && r.Finite?
      && 2 * total.value * r.value - total.value <= 200 * completed.value < 2 * total.value * r.value + total.value
  {
    if total.None? || total.value <= 0 then Finite(0)
    else if completed.None? then NaN
    else
      var t, c := total.value, completed.value;
      var q := (200 * c + t) / (2 * t);
      assert 2 * t * q <= 200 * c + t < 2 * t * q + 2 * t;
      Finite(q)
  }

  /** A completed count between none and all gives a percentage between 0
      and 100, with the ends exact. */
  lemma ActionPercentRange(completed: int, total: int)
    requires 0 <= completed <= total && total > 0
    ensures 0 <= ActionPercent(Some(completed), Some(total)).value <= 100
    ensures completed == 0 ==> ActionPercent(Some(completed), Some(total)) == Finite(0)
    ensures completed == total ==> ActionPercent(Some(completed), Some(total)) == Finite(100)
  {
    var t, c := total, completed;
    var q := ActionPercent(Some(c), Some(t)).value;
    assert 2 * t * q - t <= 200 * c < 2 * t * q + t;
    if q <= -1 {
      MulLe(q, -1, 2 * t);
    }
    if q >= 101 {
      MulLe(101, q, 2 * t);
    }
    if c == 0 && q >= 1 {
      MulLe(1, q, 2 * t);
    }
    if c == t && q <= 99 {
      MulLe(q, 99, 2 * t);
    }
  }

  lemma MulLe(a: int, b: int, k: int)
    requires a <= b && k >= 0
    ensures k * a <= k * b
  {
  }

  // ---------------------------------------------------------------------
  // Radar rows
  // ---------------------------------------------------------------------

  /** One row of the radar chart: a metric, its full mark, and one value per
      pivot under the key "pivot_<index>". */
  datatype RadarRow = RadarRow(metric: string, fullMark: nat, values: map<string, JsNumber>)

  const RadarMetrics: seq<string> := ["Viability", "Market Fit", "Progress", "Risk Safety", "Action %"]

  function PivotKey(i: nat): string
  {
    "pivot_" + NatToString(i)
  }

  lemma PivotKeyInjective(i: nat, j: nat)
    requires i != j
    ensures PivotKey(i) != PivotKey(j)
  {
    if PivotKey(i) == PivotKey(j) {
      assert PivotKey(i)[6..] == NatToString(i);
      assert PivotKey(j)[6..] == NatToString(j);
      NatToStringInjective(i, j);
    }
  }

  /** The value of radar row `row` for a pivot's analysis: the three scores
      with 0 for a missing (or zero) one, the risk safety, the action
      percentage. */
  function Metric(row: nat, a: PivotAnalysis): (v: JsNumber)
    requires row < 5
    ensures row < 4 ==> v.Finite?
    ensures row == 0 ==> v == Finite(IntOr(a.viabilityScore, 0))
    ensures row == 1 ==> v == Finite(IntOr(a.marketFitScore, 0))
    ensures row == 2 ==> v == Finite(IntOr(a.progressPercentage, 0))
    ensures row == 3 ==> v == Finite(RiskScore(a.riskLevel))
    ensures row == 4 ==> v == ActionPercent(a.actionsCompleted, a.actionsTotal)
  {
    match row
    case 0 => Finite(IntOr(a.viabilityScore, 0))
    case 1 => Finite(IntOr(a.marketFitScore, 0))
    case 2 => Finite(IntOr(a.progressPercentage, 0))
    case 3 => Finite(RiskScore(a.riskLevel))
    case _ => ActionPercent(a.actionsCompleted, a.actionsTotal)
  }

  function PivotKeys(n: nat): set<string>
  {
    set j | 0 <= j < n :: PivotKey(j)
  }

  /** `rows` are the five radar rows filled for `pivots`. */
  ghost predicate IsRadarOf(rows: seq<RadarRow>, pivots: seq<PivotDoc>)
  {
    && |rows| == 5
    && (forall r :: 0 <= r < 5 ==> rows[r].metric == RadarMetrics[r] && rows[r].fullMark == 100)
    && (forall r :: 0 <= r < 5 ==> rows[r].values.Keys == PivotKeys(|pivots|))
    && (forall r, j :: 0 <= r < 5 && 0 <= j < |pivots| ==>
          PivotKey(j) in rows[r].values && rows[r].values[PivotKey(j)] == Metric(r, AnalysisOf(pivots[j])))
  }

  /** `radarData`: the five rows, filled by one pass over the pivots that
      sets each row's value under the pivot's key. */
  method RadarData(pivots: seq<PivotDoc>) returns (rows: seq<RadarRow>)
    ensures |rows| == 5
    ensures forall r :: 0 <= r < 5 ==> rows[r].metric == RadarMetrics[r] && rows[r].fullMark == 100
    ensures forall r :: 0 <= r < 5 ==> rows[r].values.Keys == PivotKeys(|pivots|)
    ensures forall r, j :: 0 <= r < 5 && 0 <= j < |pivots| ==>
      PivotKey(j) in rows[r].values && rows[r].values[PivotKey(j)] == Metric(r, AnalysisOf(pivots[j]))
  {
    rows := seq(5, r requires 0 <= r < 5 => RadarRow(RadarMetrics[r], 100, map[]));
    for i := 0 to |pivots|
      invariant IsRadarOf(rows, pivots[..i])
    {
      var a := AnalysisOf(pivots[i]);
      var key := PivotKey(i);
      var rows' := rows;
      rows := rows[0 := rows[0].(values := rows[0].values[key := Finite(IntOr(a.viabilityScore, 0))])];
      rows := rows[1 := rows[1].(values := rows[1].values[key := Finite(IntOr(a.marketFitScore, 0))])];
      rows := rows[2 := rows[2].(values := rows[2].values[key := Finite(IntOr(a.progressPercentage, 0))])];
      rows := rows[3 := rows[3].(values := rows[3].values[key := Finite(RiskScore(a.riskLevel))])];
      rows := rows[4 := rows[4].(values := rows[4].values[key := ActionPercent(a.actionsCompleted, a.actionsTotal)])];
      forall r | 0 <= r < 5
        ensures rows[r] == rows'[r].(values := rows'[r].values[key := Metric(r, a)])
      {
        if r == 0 {} else if r == 1 {} else if r == 2 {} else if r == 3 {} else {}
      }
      assert pivots[..i + 1] == pivots[..i] + [pivots[i]];
      RadarStep(rows', pivots[..i], pivots[i], rows);
    }
    assert pivots[..|pivots|] == pivots;
  }

  /** Setting the next pivot's value in every row keeps the rows filled. */
  lemma RadarStep(rows: seq<RadarRow>, seen: seq<PivotDoc>, p: PivotDoc, rows': seq<RadarRow>)
    requires IsRadarOf(rows, seen)
    requires |rows'| == 5
    requires forall r :: 0 <= r < 5 ==> rows'[r] == rows[r].(values := rows[r].values[PivotKey(|seen|) := Metric(r, AnalysisOf(p))])
    ensures IsRadarOf(rows', seen + [p])
  {
    var n := |seen|;
    assert PivotKeys(n + 1) == PivotKeys(n) + {PivotKey(n)};
    forall r, j | 0 <= r < 5 && 0 <= j < n + 1
      ensures PivotKey(j) in rows'[r].values && rows'[r].values[PivotKey(j)] == Metric(r, AnalysisOf((seen + [p])[j]))
    {
      if j < n {
        PivotKeyInjective(j, n);
      }
    }
  }

  // ---------------------------------------------------------------------
  // Bar entries
  // ---------------------------------------------------------------------

  datatype BarEntry = BarEntry(name: string, timeline: int, investment: int, index: nat)

  /** The investment read from the estimate text: the first run of decimal
      digits, as a number; 0 when the estimate is missing, empty or has no
      digit. */
  function Investment(estimate: Option<string>): (n: int)
    ensures n >= 0
    ensures estimate.None? || estimate.value == [] ==> n == 0
    ensures estimate.Some? && FirstDigitRun(estimate.value).Some? ==>
      n == DigitsToNat(FirstDigitRun(estimate.value).value)
    ensures estimate.Some? && FirstDigitRun(estimate.value).None? ==> n == 0
  {
    if estimate.None? || estimate.value == [] then 0
    else match FirstDigitRun(estimate.value)
      case None => 0
      case Some(run) =>
        ParseIntOfDigits(run);
        JsParseInt(run).value
  }

  /** An estimate such as "$5k-$10k" gives its lower bound, 5. */
  lemma InvestmentTakesFirstNumber(pre: string, n: nat, post: string)
    requires forall i :: 0 <= i < |pre| ==> !IsDigit(pre[i])
    requires post == [] || !IsDigit(post[0])
    ensures Investment(Some(pre + NatToString(n) + post)) == n
  {
    FirstDigitRunOfRendered(pre, n, post);
    DigitsOfNatToString(n);
  }

  /** `barData`: one entry per pivot, in order, carrying its index. */
  function BarData(pivots: seq<PivotDoc>): (bars: seq<BarEntry>)
    ensures |bars| == |pivots|
    ensures forall i :: 0 <= i < |pivots| ==> bars[i].index == i && bars[i].name == pivots[i].pivotName
    ensures forall i :: 0 <= i < |pivots| ==> bars[i].investment >= 0
    ensures forall i :: 0 <= i < |pivots| ==> bars[i].timeline == IntOr(AnalysisOf(pivots[i]).estimatedTimelineWeeks, 0)
    ensures forall i :: 0 <= i < |pivots| ==> bars[i].investment == Investment(AnalysisOf(pivots[i]).estimatedInvestment)
  {
    seq(|pivots|, i requires 0 <= i < |pivots| =>
      var a := AnalysisOf(pivots[i]);
      BarEntry(pivots[i].pivotName, IntOr(a.estimatedTimelineWeeks, 0), Investment(a.estimatedInvestment), i))
  }

  /** A pivot without analysis shows zero everywhere but risk safety, which
      is the neutral 50. */
  lemma NoAnalysisIsNeutral(p: PivotDoc)
    requires p.analysis.None?
    ensures forall r :: 0 <= r < 5 && r != 3 ==> Metric(r, AnalysisOf(p)) == Finite(0)
    ensures Metric(3, AnalysisOf(p)) == Finite(50)
    ensures BarData([p])[0].timeline == 0 && BarData([p])[0].investment == 0
  {
  }
}
