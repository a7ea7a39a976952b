/** The analysis engine (backend/engine.py): three LLM-backed analyses that
    share one shape. Without a provider client each returns its canned
    result at once; otherwise it makes up to three attempts, each of which
    asks the provider, strips Markdown fences from the reply and parses it,
    sleeping 2 s and then 4 s between failed attempts and falling back to the
    canned result when the last attempt fails.

    The provider is the parameter `reply` (what attempt `k` gets back) and
    JSON decoding plus schema validation is the parameter `parse`; the
    prompts are not modelled. */
module Engine {
  import opened Lists
  import opened Text

  // ---------------------------------------------------------------------
  // Fence stripping
  // ---------------------------------------------------------------------

  const JsonFence: string := "```json"
  const Fence: string := "```"

  /** The reply text after `strip()`, the removal of a leading "```json"
      and then the removal of a trailing "```". */
  function StripFences(response: string): (r: string)
    ensures Contains(response, r)
    ensures |PyStrip(response)| - |JsonFence| - |Fence| <= |r| <= |PyStrip(response)|
  {
    var t := PyStrip(response);
    ContainsTransitive(response, t, Unfence(t));
    Unfence(t)
  }

  /** The fence removal applied to already stripped text. */
  function Unfence(t: string): (r: string)
    ensures Contains(t, r)
    ensures |t| - |JsonFence| - |Fence| <= |r| <= |t|
  {
    var u := if StartsWith(t, JsonFence) then t[|JsonFence|..] else t;
    var r := if EndsWith(u, Fence) then u[..|u| - |Fence|] else u;
    assert OccursAt(t, r, |t| - |u|);
    r
  }

  /** A substring of a substring is a substring. */
  lemma ContainsTransitive(s: string, t: string, r: string)
    requires Contains(s, t) && Contains(t, r)
    ensures Contains(s, r)
  {
    var i :| 0 <= i <= |s| - |t| && OccursAt(s, t, i);
    var j :| 0 <= j <= |t| - |r| && OccursAt(t, r, j);
    assert t[j..j + |r|] == r;
    forall k | 0 <= k < |r|
      ensures s[i + j + k] == r[k]
    {
      assert s[i..i + |t|][j + k] == t[j + k];
    }
    assert s[i + j..i + j + |r|] == r;
    assert OccursAt(s, r, i + j);
  }

  /** A body wrapped as a "```json … ```" block comes back exactly, whatever
      it is; stripping undoes the wrapping. */
  lemma StripFencesUnwraps(body: string)
    ensures StripFences(JsonFence + body + Fence) == body
  {
    var w := JsonFence + body + Fence;
    assert w[0] == '`' && w[|w| - 1] == '`';
    PyStripNoop(w);
    UnfenceUnwraps(body);
  }

  lemma UnfenceUnwraps(body: string)
    ensures Unfence(JsonFence + body + Fence) == body
  {
    var w := JsonFence + body + Fence;
    assert StartsWith(w, JsonFence);
    var u := w[|JsonFence|..];
    assert u == body + Fence;
    assert EndsWith(u, Fence);
    assert u[..|u| - |Fence|] == body;
  }

  /** Surrounding whitespace of the reply does not matter. */
  lemma StripFencesIgnoresPadding(pad: string, body: string, pad': string)
    requires forall i :: 0 <= i < |pad| ==> PyIsSpace(pad[i])
    requires forall i :: 0 <= i < |pad'| ==> PyIsSpace(pad'[i])
    ensures StripFences(pad + JsonFence + body + Fence + pad') == body
  {
    var w := JsonFence + body + Fence;
    var s := pad + JsonFence + body + Fence + pad';
    assert s == pad + w + pad';
    PaddedStrip(pad, w, pad');
    StripFencesUnwraps(body);
  }

  /** Stripping removes exactly the whitespace padding around a core whose
      ends are not whitespace. */
  lemma {:induction false} PaddedStrip(pad: string, core: string, pad': string)
    requires core != [] && !PyIsSpace(core[0]) && !PyIsSpace(core[|core| - 1])
    requires forall i :: 0 <= i < |pad| ==> PyIsSpace(pad[i])
    requires forall i :: 0 <= i < |pad'| ==> PyIsSpace(pad'[i])
    ensures PyStrip(pad + core + pad') == core
  {
    TrimStartPadded(pad, core + pad');
    assert pad + core + pad' == pad + (core + pad');
    TrimEndPadded(core, pad');
  }

  lemma {:induction false} TrimStartPadded(pad: string, rest: string)
    requires rest != [] && !PyIsSpace(rest[0])
    requires forall i :: 0 <= i < |pad| ==> PyIsSpace(pad[i])
    ensures TrimStart(pad + rest, PyIsSpace) == rest
  {
    if pad != [] {
      assert (pad + rest)[1..] == pad[1..] + rest;
      TrimStartPadded(pad[1..], rest);
    } else {
      assert pad + rest == rest;
    }
  }

  lemma {:induction false} TrimEndPadded(rest: string, pad: string)
    requires rest != [] && !PyIsSpace(rest[|rest| - 1])
    requires forall i :: 0 <= i < |pad| ==> PyIsSpace(pad[i])
    ensures TrimEnd(rest + pad, PyIsSpace) == rest
  {
    if pad != [] {
      var p := pad[..|pad| - 1];
      assert (rest + pad)[..|rest + pad| - 1] == rest + p;
      TrimEndPadded(rest, p);
    } else {
      assert rest + pad == rest;
    }
  }

  /** A reply that is already bare JSON (an object, say) is left as it is. */
  lemma StripFencesKeepsBareJson(text: string)
    requires text != [] && text[0] == '{' && text[|text| - 1] == '}'
    ensures StripFences(text) == text
  {
    PyStripNoop(text);
    UnfenceKeepsBareJson(text);
  }

  lemma UnfenceKeepsBareJson(text: string)
    requires text != [] && text[0] == '{' && text[|text| - 1] == '}'
    ensures Unfence(text) == text
  {
    assert |text| < |JsonFence| || text[..|JsonFence|][0] == '{';
    assert |text| < |Fence| || text[|text| - |Fence|..][2] == '}';
  }

  /** A fence without the `json` tag is not removed at the start: the
      opening "```" survives (only the closing one is dropped). */
  lemma StripFencesKeepsUntaggedOpening(body: string)
    requires body != [] && body[0] == '{'
    ensures StripFences(Fence + body + Fence) == Fence + body
  {
    var w := Fence + body + Fence;
    assert w[0] == '`' && w[|w| - 1] == '`';
    PyStripNoop(w);
    UnfenceKeepsUntaggedOpening(body);
  }

  lemma UnfenceKeepsUntaggedOpening(body: string)
    requires body != [] && body[0] == '{'
    ensures Unfence(Fence + body + Fence) == Fence + body
  {
    var w := Fence + body + Fence;
    assert |w| < |JsonFence| || w[..|JsonFence|][3] == '{';
    assert w[|w| - |Fence|..] == Fence;
    assert w[..|w| - |Fence|] == Fence + body;
  }

  /** A reply cut off before its closing fence: the "```json" tag is
      removed and the rest is passed on as it is. */
  lemma StripFencesKeepsTruncatedBody(body: string)
    requires body == [] || !PyIsSpace(body[|body| - 1])
    requires !EndsWith(body, Fence)
    ensures StripFences(JsonFence + body) == body
  {
    var w := JsonFence + body;
    assert w[0] == '`' && w[|w| - 1] == (if body == [] then 'n' else body[|body| - 1]);
    PyStripNoop(w);
    UnfenceKeepsTruncatedBody(body);
  }

  lemma UnfenceKeepsTruncatedBody(body: string)
    requires !EndsWith(body, Fence)
    ensures Unfence(JsonFence + body) == body
  {
    var w := JsonFence + body;
    assert StartsWith(w, JsonFence);
    assert w[|JsonFence|..] == body;
  }

  // ---------------------------------------------------------------------
  // Attempts, back-off and fallback
  // ---------------------------------------------------------------------

  const MaxRetries: nat := 3
  const BaseDelay: nat := 2

  /** What the provider gives back to one attempt: the message content, or a
      failure (a raised client error, or content that is not a string). */
  datatype Reply = Content(text: string) | CallFailed

  function Pow2(n: nat): (p: nat)
    ensures p >= 1
  {
    if n == 0 then 1 else 2 * Pow2(n - 1)
  }

  /** The pause after failed attempt `attempt` (0-based): `base_delay * 2**attempt`. */
  function Backoff(attempt: nat): (seconds: nat)
    ensures seconds >= BaseDelay
  {
    BaseDelay * Pow2(attempt)
  }

  /** The pauses taken after the first `n` failed attempts. */
  function Pauses(n: nat): (r: seq<nat>)
    ensures |r| == n
    ensures forall i :: 0 <= i < n ==> r[i] == Backoff(i)
  {
    seq(n, i requires 0 <= i => Backoff(i))
  }

  /** The result of attempt `attempt`: the parsed reply, or None when the
      call, the JSON decoding or the schema check raises. */
  function AttemptOutcome<T>(reply: nat -> Reply, parse: string -> Option<T>, attempt: nat): Option<T>
  {
    match reply(attempt)
    case CallFailed => None
    case Content(text) => parse(StripFences(text))
  }

  /** The `try` block of an analysis as a function of the attempt number. */
  function TryBlock<T>(reply: nat -> Reply, parse: string -> Option<T>): nat -> Option<T>
  {
    (k: nat) => AttemptOutcome(reply, parse, k)
  }

  /** The outcomes of the attempts an analysis may make. */
  function Tries<T>(tryBlock: nat -> Option<T>): (o: seq<Option<T>>)
    ensures |o| == MaxRetries
    ensures forall k :: 0 <= k < MaxRetries ==> o[k] == tryBlock(k)
  {
    seq(MaxRetries, k requires 0 <= k => tryBlock(k))
  }

  /** The outcomes of the three attempts of an analysis with this provider
      and this parser. */
  function Outcomes<T>(reply: nat -> Reply, parse: string -> Option<T>): (o: seq<Option<T>>)
    ensures |o| == MaxRetries
    ensures forall k :: 0 <= k < MaxRetries ==> o[k] == AttemptOutcome(reply, parse, k)
  {
    Tries(TryBlock(reply, parse))
  }

  /** The index of the first success at or after `from`. */
  function FirstSuccess<T>(o: seq<Option<T>>, from: nat): (k: Option<nat>)
    ensures k.Some? ==> from <= k.value < |o| && o[k.value].Some?
    ensures k.Some? ==> forall j :: from <= j < k.value ==> o[j].None?
    ensures k.None? <==> forall j :: from <= j < |o| ==> o[j].None?
    decreases |o| - from
  {
    if from >= |o| then None
    else if o[from].Some? then Some(from)
    else FirstSuccess(o, from + 1)
  }

  /** What an analysis returns, given the outcomes of its attempts. */
  function AnalysisResult<T>(hasClient: bool, o: seq<Option<T>>, fallback: T): T
  {
    if !hasClient then fallback
    else match FirstSuccess(o, 0)
      case Some(k) => o[k].value
      case None => fallback
  }

  /** How many times an analysis calls the provider. */
  function ProviderCalls<T>(hasClient: bool, o: seq<Option<T>>): nat
  {
    if !hasClient then 0
    else match FirstSuccess(o, 0)
      case Some(k) => k + 1
      case None => |o|
  }

  /** The attempt loop shared by the three analyses. `calls` counts the
      provider calls and `pauses` lists the sleeps, in seconds. */
  method AnalyzeWithRetries<T>(hasClient: bool, tryBlock: nat -> Option<T>, fallback: T)
    returns (r: T, calls: nat, pauses: seq<nat>)
    ensures r == AnalysisResult(hasClient, Tries(tryBlock), fallback)
    ensures calls == ProviderCalls(hasClient, Tries(tryBlock))
    ensures pauses == Pauses(if calls == 0 then 0 else calls - 1)
  {
    if !hasClient {
      return fallback, 0, [];
    }
    ghost var o := Tries(tryBlock);
    calls, pauses := 0, [];
    var attempt: nat := 0;
    // The loop always leaves through a return: the return after the loop of
    // engine.py (line 141) cannot be reached.
    while true
      invariant attempt < MaxRetries
      invariant calls == attempt && pauses == Pauses(attempt)
      invariant forall j :: 0 <= j < attempt ==> o[j].None?
      decreases MaxRetries - attempt
    {
      calls := calls + 1;
      var outcome := tryBlock(attempt);
      if outcome.Some? {
        FirstSuccessIs(o, attempt);
        return outcome.value, calls, pauses;
      }
      if attempt < MaxRetries - 1 {
        PausesExtend(attempt);
        pauses := pauses + [Backoff(attempt)];
      } else {
        NoSuccess(o);
        return fallback, calls, pauses;
      }
      attempt := attempt + 1;
    }
  }

  lemma PausesExtend(n: nat)
    ensures Pauses(n) + [Backoff(n)] == Pauses(n + 1)
  {
    assert (Pauses(n) + [Backoff(n)])[n] == Backoff(n);
  }

  lemma NoSuccess<T>(o: seq<Option<T>>)
    requires forall j :: 0 <= j < |o| ==> o[j].None?
    ensures FirstSuccess(o, 0).None?
  {
  }

  /** A success preceded by failures only is the first success. */
  lemma FirstSuccessIs<T>(o: seq<Option<T>>, k: nat)
    requires k < |o| && o[k].Some?
    requires forall j :: 0 <= j < k ==> o[j].None?
    ensures FirstSuccess(o, 0) == Some(k)
  {
  }

  /** At most three provider calls, and the pauses taken are at most 2 s then 4 s. */
  lemma CallsBounded<T>(hasClient: bool, reply: nat -> Reply, parse: string -> Option<T>)
    ensures ProviderCalls(hasClient, Outcomes(reply, parse)) <= MaxRetries
    ensures Pauses(2) == [2, 4]
  {
    assert Pauses(2)[1] == Backoff(1) == 4;
  }

  /** With a client, the canned result comes back after three calls exactly
      when every attempt fails; otherwise the first parsed reply comes back. */
  lemma FallbackIffAllFail<T>(o: seq<Option<T>>, fallback: T)
    ensures (forall j :: 0 <= j < |o| ==> o[j].None?) ==>
              AnalysisResult(true, o, fallback) == fallback && ProviderCalls(true, o) == |o|
    ensures (exists j :: 0 <= j < |o| && o[j].Some?) ==>
              && FirstSuccess(o, 0).Some?
              && AnalysisResult(true, o, fallback) == o[FirstSuccess(o, 0).value].value
              && ProviderCalls(true, o) <= |o|
  {
  }

  /** An analysis returns its canned result or one of the parsed replies. */
  lemma ResultIsFallbackOrParsed<T>(hasClient: bool, o: seq<Option<T>>, fallback: T)
    ensures var r := AnalysisResult(hasClient, o, fallback);
            r == fallback || exists j :: 0 <= j < |o| && o[j] == Some(r)
  {
    var r := AnalysisResult(hasClient, o, fallback);
    if hasClient && FirstSuccess(o, 0).Some? {
      var k := FirstSuccess(o, 0).value;
      assert o[k] == Some(r);
    }
  }

  /** A first attempt that succeeds costs one call and no pause. */
  lemma FirstTryCostsOneCall<T>(o: seq<Option<T>>, fallback: T)
    requires |o| > 0 && o[0].Some?
    ensures AnalysisResult(true, o, fallback) == o[0].value
    ensures ProviderCalls(true, o) == 1
  {
  }

  // ---------------------------------------------------------------------
  // Result records and canned results
  // ---------------------------------------------------------------------

  datatype BusinessElement = BusinessElement(name: string, kind: string, description: string, monetizationPotential: string)
  datatype FundingStep = FundingStep(step: string, amount: string, description: string)
  datatype Milestone = Milestone(milestone: string, timeline: string, description: string)

  /** The deconstruction of an idea, with the fields `_get_mock_data` fills. */
  datatype DeconstructionResult = DeconstructionResult(
    originalIdea: string,
    cheapestEntryPoint: string,
    estimatedCost: string,
    timeToValidate: string,
    elements: seq<BusinessElement>,
    pivotOptions: seq<string>,
    sustainabilityTip: string,
    gradualFundingStrategy: seq<FundingStep>,
    expansionTips: seq<string>,
    sustainabilityRoadmap: seq<Milestone>,
    currency: string,
    overallScore: int)

  datatype Action = Action(action: string, priority: string)
  datatype PivotMilestone = PivotMilestone(name: string, dueWeeks: int, description: string)

  datatype PivotAnalysisResult = PivotAnalysisResult(
    viabilityScore: int,
    marketFit: string,
    marketFitScore: int,
    recommendedActions: seq<Action>,
    requiredResources: seq<string>,
    estimatedTimeline: string,
    estimatedInvestment: string,
    riskLevel: string,
    riskFactors: seq<string>,
    milestones: seq<PivotMilestone>)

  datatype DiagnosisResult = DiagnosisResult(
    weakLink: string,
    weakLinkDetail: string,
    rootCause: string,
    immediateFix: string,
    strategicAdjustment: string,
    viabilityScore: int)

  /** The seven business elements of the canned deconstruction. */
  const MockElements: seq<BusinessElement> := [
    BusinessElement("Production", "Core", "Making the product", "High"),
    BusinessElement("Packaging", "Branding", "Designing the box", "Medium"),
    BusinessElement("Training", "Education", "Teaching others", "High"),
    BusinessElement("Resale", "Retail", "Selling kits", "Medium"),
    BusinessElement("Content", "Media", "YouTube channel", "High"),
    BusinessElement("Franchising", "Scale", "Licensing the model", "Very High"),
    BusinessElement("Servicing", "Support", "Repair and maintenance", "Medium")]

  /** The canned funding steps, every amount in the requested currency. */
  function MockFunding(currency: string): (steps: seq<FundingStep>)
    ensures |steps| == 3
    ensures forall i :: 0 <= i < |steps| ==> EndsWith(steps[i].amount, currency)
  {
    EndsWithAfter("0 - 500 ", currency);
    EndsWithAfter("500 - 2000 ", currency);
    EndsWithAfter("2000+ ", currency);
    [FundingStep("Bootstrapping", "0 - 500 " + currency, "Use personal savings to buy initial ingredients."),
     FundingStep("Pre-sales", "500 - 2000 " + currency, "Sell to friends and family to fund first batch."),
     FundingStep("Reinvestment", "2000+ " + currency, "Reinvest 100% of profits into better packaging and marketing.")]
  }

  lemma EndsWithAfter(pre: string, s: string)
    ensures EndsWith(pre + s, s)
  {
    assert (pre + s)[|pre + s| - |s|..] == s;
  }

  /** `_get_mock_data`: seven elements, the idea echoed, every amount in the
      requested currency, a score of 85. */
  function MockData(idea: string, currency: string): (r: DeconstructionResult)
    ensures |r.elements| == 7
    ensures r.originalIdea == idea && r.currency == currency && r.overallScore == 85
    ensures EndsWith(r.estimatedCost, currency)
    ensures |r.gradualFundingStrategy| == 3
    ensures forall i :: 0 <= i < |r.gradualFundingStrategy| ==> EndsWith(r.gradualFundingStrategy[i].amount, currency)
  {
    EndsWithAfter(MockCostRange, currency);
    DeconstructionResult(
      idea,
      MockEntryPoint,
      MockCostRange + currency,
      MockTimeToValidate,
      MockElements,
      MockPivotOptions,
      MockSustainabilityTip,
      MockFunding(currency),
      MockExpansionTips,
      MockRoadmap,
      currency,
      85)
  }

  const MockEntryPoint: string := "Content (Start a blog/vlog about the process)"
  const MockCostRange: string := "0 - 500 "
  const MockTimeToValidate: string := "1-2 Weeks"
  const MockPivotOptions: seq<string> := ["Pivot to Teaching", "Pivot to Supply Chain"]
  const MockSustainabilityTip: string := "Start small, reinvest profits from the cheapest entry point."

  /** The canned expansion tips. */
  const MockExpansionTips: seq<string> :=
    ["Collaborate with local beauty influencers.",
     "Host a 'Make Your Own Soap' workshop.",
     "Start a 'Clean Living' challenge on social media."]

  /** The canned sustainability roadmap. */
  const MockRoadmap: seq<Milestone> :=
    [Milestone("Eco-friendly Packaging", "Month 3", "Switch to biodegradable packaging."),
     Milestone("Local Sourcing", "Month 6", "Source 80% of ingredients locally to reduce carbon footprint."),
     Milestone("Zero Waste Production", "Year 1", "Implement processes to reuse or recycle all waste.")]

  lemma ContainsAfter(pre: string, s: string)
    ensures Contains(pre + s, s)
  {
    assert (pre + s)[|pre|..|pre| + |s|] == s;
    assert OccursAt(pre + s, s, |pre|);
  }

  /** `_get_mock_pivot_data`: the first recommended action names the pivot. */
  function MockPivotData(pivotName: string): (r: PivotAnalysisResult)
    ensures |r.recommendedActions| == 3
    ensures Contains(r.recommendedActions[0].action, pivotName) && r.recommendedActions[0].priority == "High"
    ensures r.viabilityScore == 85 && r.marketFitScore == 78 && r.riskLevel == "Medium"
    ensures r.estimatedInvestment == "$5k" && r.estimatedTimeline == "12 weeks"
  {
    ContainsAfter("Validate demand for ", pivotName);
    PivotAnalysisResult(
      85,
      "Medium-High",
      78,
      [Action("Validate demand for " + pivotName, "High"),
       Action("Build MVP", "High"),
       Action("Launch marketing campaign", "Medium")],
      ["Developer", "Designer", "$500 Ad Budget"],
      "12 weeks",
      "$5k",
      "Medium",
      ["Competitor response", "Market adoption"],
      [PivotMilestone("Validation", 2, "Confirm market interest"),
       PivotMilestone("Launch", 12, "Release to public")])
  }

  /** `_get_mock_diagnosis_data`: the same diagnosis whatever the input. */
  const MockDiagnosis: DiagnosisResult := DiagnosisResult(
    "Sales & Marketing",
    "Your product is solid, but your voice is whispering in a hurricane. You're building in silence, hoping they'll come.",
    "Lack of distribution channels",
    "Launch a targeted cold outreach campaign to 100 prospects this week.",
    "Pivot to a 'Build in Public' strategy to generate organic buzz.",
    65)

  // ---------------------------------------------------------------------
  // The three analyses
  // ---------------------------------------------------------------------

  /** `deconstruct_business_idea`. */
  method DeconstructBusinessIdea(
    idea: string, currency: string, hasClient: bool,
    reply: nat -> Reply, parse: string -> Option<DeconstructionResult>)
    returns (r: DeconstructionResult, calls: nat, pauses: seq<nat>)
    ensures r == AnalysisResult(hasClient, Outcomes(reply, parse), MockData(idea, currency))
    ensures !hasClient ==> r == MockData(idea, currency) && calls == 0
    ensures calls == ProviderCalls(hasClient, Outcomes(reply, parse)) && calls <= MaxRetries
    ensures pauses == Pauses(if calls == 0 then 0 else calls - 1)
  {
    r, calls, pauses := AnalyzeWithRetries(hasClient, TryBlock(reply, parse), MockData(idea, currency));
    CallsBounded(hasClient, reply, parse);
  }

  /** `generate_pivot_analysis`; the original idea and the currency only
      enter the prompt. */
  method GeneratePivotAnalysis(
    originalIdea: string, pivotName: string, currency: string, hasClient: bool,
    reply: nat -> Reply, parse: string -> Option<PivotAnalysisResult>)
    returns (r: PivotAnalysisResult, calls: nat, pauses: seq<nat>)
    ensures r == AnalysisResult(hasClient, Outcomes(reply, parse), MockPivotData(pivotName))
    ensures !hasClient ==> r == MockPivotData(pivotName) && calls == 0
    ensures calls == ProviderCalls(hasClient, Outcomes(reply, parse)) && calls <= MaxRetries
    ensures pauses == Pauses(if calls == 0 then 0 else calls - 1)
  {
    r, calls, pauses := AnalyzeWithRetries(hasClient, TryBlock(reply, parse), MockPivotData(pivotName));
    CallsBounded(hasClient, reply, parse);
  }

  /** `generate_diagnosis`; the inputs only enter the prompt. */
  method GenerateDiagnosis(
    idea: string, challenges: string, currency: string, hasClient: bool,
    reply: nat -> Reply, parse: string -> Option<DiagnosisResult>)
    returns (r: DiagnosisResult, calls: nat, pauses: seq<nat>)
    ensures r == AnalysisResult(hasClient, Outcomes(reply, parse), MockDiagnosis)
    ensures !hasClient ==> r == MockDiagnosis && r.viabilityScore == 65 && calls == 0
    ensures calls == ProviderCalls(hasClient, Outcomes(reply, parse)) && calls <= MaxRetries
    ensures pauses == Pauses(if calls == 0 then 0 else calls - 1)
  {
    r, calls, pauses := AnalyzeWithRetries(hasClient, TryBlock(reply, parse), MockDiagnosis);
    CallsBounded(hasClient, reply, parse);
  }
}
