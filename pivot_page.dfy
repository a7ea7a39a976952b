/** The pivot page of the client (frontend/src/pages/PivotPage.jsx): the
    board's strategies, built from the user's active pivots followed by the
    project's pivot options that are not active yet; the pipeline counters
    over the active pivots; and the input checks of the two diagnosis
    handlers. */
module PivotPage {
  import opened Lists
  import opened Text
  import opened Store
  import opened StrategyBoard

  const ActiveDescription: string := "Active pivot strategy"
  const PotentialDescription: string := "Potential pivot opportunity. Analyze to unlock details."
  const PotentialPrefix: string := "potential-"

  // ---------------------------------------------------------------------
  // The strategies of the board
  // ---------------------------------------------------------------------

  /** The status an active pivot is shown with: its own, or "discovery"
      when it has none (`p.status || "discovery"`). */
  function ShownStatus(p: PivotDoc): string
  {
    StrOr(p.status, "discovery")
  }

  /** The card of an active pivot. */
  function ActiveEntry(p: PivotDoc): (s: Strategy)
    ensures s.id == p.id && s.title == p.pivotName && s.kind == "pivot" && s.analysis == p.analysis
    ensures s.status == ShownStatus(p) && s.status != []
    ensures p.analysis.None? ==> s.description == ActiveDescription
    ensures p.analysis.Some? && p.analysis.value.marketFit.Some? && p.analysis.value.marketFit.value != [] ==>
      s.description == p.analysis.value.marketFit.value
  {
    var description := if p.analysis.Some? then StrOr(p.analysis.value.marketFit, ActiveDescription) else ActiveDescription;
    Strategy(p.id, p.pivotName, description, ShownStatus(p), "pivot", p.analysis)
  }

  /** The cards of the active pivots, in order. */
  function ActiveEntries(active: seq<PivotDoc>): (r: seq<Strategy>)
    ensures |r| == |active|
    ensures forall i :: 0 <= i < |active| ==> r[i] == ActiveEntry(active[i])
  {
    if active == [] then [] else [ActiveEntry(active[0])] + ActiveEntries(active[1..])
  }

  /** Some active pivot carries this name. */
  predicate IsActiveName(active: seq<PivotDoc>, name: string)
  {
    exists i :: 0 <= i < |active| && active[i].pivotName == name
  }

  /** The project's pivot options (none when the project has no list) that
      no active pivot is named after, in order. */
  function RemainingOptions(active: seq<PivotDoc>, options: Option<seq<string>>): (r: seq<string>)
    ensures IsSubsequence(r, options.GetOr([]))
    ensures forall j :: 0 <= j < |r| ==> !IsActiveName(active, r[j])
    ensures forall k :: 0 <= k < |options.GetOr([])| && !IsActiveName(active, options.GetOr([])[k]) ==>
      options.GetOr([])[k] in r
  {
    Filter(options.GetOr([]), (o: string) => !IsActiveName(active, o))
  }

  /** The id of the `i`-th remaining option: "potential-i". */
  function PotentialId(i: nat): string
  {
    PotentialPrefix + NatToString(i)
  }

  /** The card of a remaining option, numbered after the filtering. */
  function PotentialEntry(i: nat, name: string): Strategy
  {
    Strategy(PotentialId(i), name, PotentialDescription, "potential", "pivot", None)
  }

  /** The cards of the remaining options, numbered from 0. */
  function PotentialEntries(rest: seq<string>): (r: seq<Strategy>)
    ensures |r| == |rest|
    ensures forall j :: 0 <= j < |rest| ==> r[j] == PotentialEntry(j, rest[j])
  {
    seq(|rest|, j requires 0 <= j < |rest| => PotentialEntry(j, rest[j]))
  }

  /** `strategies`: the active pivots first, then the options that are not
      active yet, with ids potential-0, potential-1, ... counted after the
      filtering. */
  function Strategies(active: seq<PivotDoc>, options: Option<seq<string>>): (r: seq<Strategy>)
    ensures |r| == |active| + |RemainingOptions(active, options)|
    ensures r[..|active|] == ActiveEntries(active)
    ensures r[|active|..] == PotentialEntries(RemainingOptions(active, options))
  {
    var r := ActiveEntries(active) + PotentialEntries(RemainingOptions(active, options));
    assert r[..|active|] == ActiveEntries(active);
    r
  }

  /** An option shows up as a potential card exactly when no active pivot
      has its name, and every potential card is "potential" of type "pivot". */
  lemma PotentialCardsAreInactiveOptions(active: seq<PivotDoc>, options: seq<string>, name: string)
    requires name in options
    ensures var r := Strategies(active, Some(options));
      (exists j :: |active| <= j < |r| && r[j].title == name) <==> !IsActiveName(active, name)
    ensures var r := Strategies(active, Some(options));
      forall j :: |active| <= j < |r| ==> r[j].status == "potential" && r[j].kind == "pivot" && !IsActiveName(active, r[j].title)
  {
    var r := Strategies(active, Some(options));
    forall j | |active| <= j < |r|
      ensures r[j].status == "potential" && r[j].kind == "pivot" && !IsActiveName(active, r[j].title)
    {
      PotentialCard(active, Some(options), j);
    }
    if !IsActiveName(active, name) {
      InactiveOptionHasCard(active, options, name);
    }
  }

  /** An option no active pivot is named after has a potential card. */
  lemma InactiveOptionHasCard(active: seq<PivotDoc>, options: seq<string>, name: string)
    requires name in options && !IsActiveName(active, name)
    ensures var r := Strategies(active, Some(options));
      exists j :: |active| <= j < |r| && r[j].title == name
  {
    var rest := RemainingOptions(active, Some(options));
    var k :| 0 <= k < |options| && options[k] == name;
    assert name in rest;
    var j :| 0 <= j < |rest| && rest[j] == name;
    PotentialCard(active, Some(options), |active| + j);
  }

  /** The cards after the active ones are the remaining options' cards. */
  lemma PotentialCard(active: seq<PivotDoc>, options: Option<seq<string>>, j: nat)
    requires |active| <= j < |Strategies(active, options)|
    ensures var rest := RemainingOptions(active, options);
      Strategies(active, options)[j] == PotentialEntry(j - |active|, rest[j - |active|])
    ensures !IsActiveName(active, Strategies(active, options)[j].title)
  {
    var r := Strategies(active, options);
    assert r[j] == r[|active|..][j - |active|];
  }

  /** Distinct positions get distinct potential ids. */
  lemma PotentialIdsDistinct(i: nat, j: nat)
    requires i != j
    ensures PotentialId(i) != PotentialId(j)
  {
    if PotentialId(i) == PotentialId(j) {
      assert PotentialId(i)[|PotentialPrefix|..] == NatToString(i);
      assert PotentialId(j)[|PotentialPrefix|..] == NatToString(j);
      NatToStringInjective(i, j);
    }
  }

  // ---------------------------------------------------------------------
  // Pipeline counters
  // ---------------------------------------------------------------------

  /** A pipeline counter: the active pivots whose stored status is `status`. */
  function PipelineCount(active: seq<PivotDoc>, status: string): (n: nat)
    ensures n <= |active|
  {
    Count(active, (p: PivotDoc) => p.status == Some(status))
  }

  /** The counter reads the stored status while the board shows the default:
      the "Discovery" counter never exceeds the discovery cards among the
      active pivots, and falls short of them when a pivot has no status. */
  lemma DiscoveryCounterMissesUnstatused(active: seq<PivotDoc>)
    ensures PipelineCount(active, "discovery") <= Count(ActiveEntries(active), HasStatus("discovery"))
    ensures (exists k :: 0 <= k < |active| && active[k].status.None?) ==>
      PipelineCount(active, "discovery") < Count(ActiveEntries(active), HasStatus("discovery"))
  {
    var stored := (p: PivotDoc) => p.status == Some("discovery");
    var shown := (p: PivotDoc) => ShownStatus(p) == "discovery";
    ShownCount(active);
    CountMonotoneOn(active, stored, shown);
    if exists k :: 0 <= k < |active| && active[k].status.None? {
      var k :| 0 <= k < |active| && active[k].status.None?;
      CountStrictlyMonotone(active, stored, shown, k);
    }
  }

  /** Counting discovery cards is counting pivots shown as discovery. */
  lemma {:induction false} ShownCount(active: seq<PivotDoc>)
    ensures Count(ActiveEntries(active), HasStatus("discovery")) == Count(active, (p: PivotDoc) => ShownStatus(p) == "discovery")
  {
    if active != [] {
      ShownCount(active[1..]);
      assert ActiveEntries(active)[1..] == ActiveEntries(active[1..]);
    }
  }

  // ---------------------------------------------------------------------
  // Handlers
  // ---------------------------------------------------------------------

  /** What `handleRunDiagnosis` asks the diagnosis mutation for. */
  datatype DiagnosisRequest = DiagnosisRequest(projectId: string, challenges: string)

  const GeneralDiagnosis: string := "General diagnosis"

  /** `handleRunDiagnosis`: the override project (when truthy) or else the
      selected one; no request at all when neither is set; empty challenges
      become "General diagnosis". */
  function RunDiagnosis(overrideProjectId: Option<string>, selectedProjectId: Option<string>, challenges: string)
    : (r: Option<DiagnosisRequest>)
    ensures r.None? <==> StrOr(overrideProjectId, "") == [] && StrOr(selectedProjectId, "") == []
    ensures r.Some? && StrOr(overrideProjectId, "") != [] ==> r.value.projectId == overrideProjectId.value
    ensures r.Some? && StrOr(overrideProjectId, "") == [] ==> r.value.projectId == selectedProjectId.value
    ensures r.Some? ==> r.value.projectId != [] && r.value.challenges != []
    ensures r.Some? ==> r.value.challenges == if challenges == [] then GeneralDiagnosis else challenges
  {
    var projectId := StrOr(overrideProjectId, StrOr(selectedProjectId, ""));
    if projectId == [] then None
    else Some(DiagnosisRequest(projectId, StrOr(Some(challenges), GeneralDiagnosis)))
  }

  /** `handleCreateAndDiagnose`: an idea that is blank after trimming is
      refused before any request; otherwise the idea goes out as typed. */
  function CreateAndDiagnose(newProjectIdea: string): (r: Option<string>)
    ensures r.None? <==> forall i :: 0 <= i < |newProjectIdea| ==> JsIsSpace(newProjectIdea[i])
    ensures r.Some? ==> r.value == newProjectIdea
  {
    if JsTrim(newProjectIdea) == [] then None else Some(newProjectIdea)
  }
}
