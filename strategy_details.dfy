/** The strategy details page of the client
    (frontend/src/pages/StrategyDetailsPage.jsx): resolving the selected
    strategy id against the active pivots and the project's pivot options,
    and deriving the edit form from the strategy found. */
module StrategyDetails {
  import opened Lists
  import opened Text
  import opened Store
  import opened StrategyBoard
  import opened PivotPage

  /** The strategy the page shows. The active pivot's project and creation
      stamp are carried along by the page but never read. */
  datatype Detail = Detail(id: string, pivotName: string, analysis: Option<PivotAnalysis>, status: string, kind: string)

  /** The analysis a potential strategy is shown with: only the market-fit line. */
  const PotentialAnalysis: PivotAnalysis := PivotAnalysis(Some(PotentialDescription), None, None, None, None, None, None, None, None)

  /** `activePivots.find(p => p.id === id)`: the position of the first
      active pivot with this id. */
  function FindById(active: seq<PivotDoc>, id: string): (k: Option<nat>)
    ensures k.Some? ==> k.value < |active| && active[k.value].id == id
    ensures k.Some? ==> forall j :: 0 <= j < k.value ==> active[j].id != id
    ensures k.None? <==> forall j :: 0 <= j < |active| ==> active[j].id != id
  {
    if active == [] then None
    else if active[0].id == id then Some(0)
    else match FindById(active[1..], id)
      case None => None
      case Some(k) => Some(k + 1)
  }

  /** An active pivot as the page shows it: type "pivot", status defaulted. */
  function ActiveDetail(p: PivotDoc): Detail
  {
    Detail(p.id, p.pivotName, p.analysis, ShownStatus(p), "pivot")
  }

  function PotentialDetail(id: string, name: string): Detail
  {
    Detail(id, name, Some(PotentialAnalysis), "potential", "pivot")
  }

  /** `selectedStrategyId.split("-")[1]` for an id that starts with
      "potential-": the text after the first dash, up to the next one. */
  function IndexField(id: string): string
    requires StartsWith(id, PotentialPrefix)
  {
    Before(id[|PotentialPrefix|..], '-')
  }

  /** `list?.[index]` for a parsed index, with `if (name)`: the entry when
      the index is a number in range and the entry is a non-empty string. */
  function Entry(list: Option<seq<string>>, index: Option<int>): (name: Option<string>)
    ensures name.Some? ==> name.value != [] && index.Some? && 0 <= index.value < |list.GetOr([])|
    ensures name.Some? ==> name.value == list.GetOr([])[index.value]
  {
    if list.Some? && index.Some? && 0 <= index.value < |list.value| && list.value[index.value] != []
    then Some(list.value[index.value])
    else None
  }

  /** The `strategy` lookup as written: no selection gives nothing; an active
      pivot with the id wins; "potential-N" is looked up as
      `pivot_options[N]` of the project's full option list; anything else
      gives nothing. */
  function ResolveStrategy(selected: Option<string>, active: seq<PivotDoc>, options: Option<seq<string>>): (r: Option<Detail>)
    ensures selected.None? || selected.value == [] ==> r.None?
    ensures selected.Some? && selected.value != [] && FindById(active, selected.value).Some? ==>
      r == Some(ActiveDetail(active[FindById(active, selected.value).value]))
    ensures r.Some? ==> r.value.kind == "pivot" && r.value.status != []
    ensures r.Some? && FindById(active, selected.value).None? ==>
      && StartsWith(selected.value, PotentialPrefix) && r.value.status == "potential"
      && r.value.pivotName in options.GetOr([]) && r.value.pivotName != []
  {
    if selected.None? || selected.value == [] then None
    else
      var id := selected.value;
      match FindById(active, id)
      case Some(k) => Some(ActiveDetail(active[k]))
      case None =>
        if StartsWith(id, PotentialPrefix) then
          match Entry(options, JsParseInt(IndexField(id)))
          case Some(name) => Some(PotentialDetail(id, name))
          case None => None
        else None
  }

  /** The index field of a potential id is its number. */
  lemma IndexOfPotentialId(i: nat)
    ensures StartsWith(PotentialId(i), PotentialPrefix)
    ensures JsParseInt(IndexField(PotentialId(i))) == Some(i)
  {
    var id := PotentialId(i);
    assert id[..|PotentialPrefix|] == PotentialPrefix;
    assert id[|PotentialPrefix|..] == NatToString(i) + [];
    BeforeOf(NatToString(i), [], '-');
    ParseIntOfRendered(i);
  }

  /** "potential-N" with N past the end of the options (or no options at
      all) resolves to nothing unless an active pivot has that very id. */
  lemma OutOfRangeIsNull(active: seq<PivotDoc>, options: Option<seq<string>>, n: nat)
    requires n >= |options.GetOr([])|
    requires FindById(active, PotentialId(n)).None?
    ensures ResolveStrategy(Some(PotentialId(n)), active, options).None?
  {
    IndexOfPotentialId(n);
  }

  /** A non-numeric index resolves to nothing. */
  lemma NonNumericIsNull(active: seq<PivotDoc>, options: Option<seq<string>>, field: string)
    requires forall i :: 0 <= i < |field| ==> !IsDigit(field[i]) && field[i] != '-'
    requires FindById(active, PotentialPrefix + field).None?
    ensures ResolveStrategy(Some(PotentialPrefix + field), active, options).None?
  {
    var id := PotentialPrefix + field;
    assert id[..|PotentialPrefix|] == PotentialPrefix;
    assert id[|PotentialPrefix|..] == field + [];
    BeforeOf(field, [], '-');
    ParseIntWithoutDigits(field);
  }

  // ---------------------------------------------------------------------
  // The two numbering schemes
  // ---------------------------------------------------------------------

  /** When no option is already active the two pages agree: the card
      potential-j of the pivot page resolves to that card's option. */
  lemma SchemesAgreeWithoutActiveOptions(active: seq<PivotDoc>, options: seq<string>, j: nat)
    requires forall k :: 0 <= k < |options| ==> !IsActiveName(active, options[k])
    requires j < |options| && options[j] != []
    requires FindById(active, PotentialId(j)).None?
    ensures RemainingOptions(active, Some(options)) == options
    ensures ResolveStrategy(Some(PotentialId(j)), active, Some(options)) == Some(PotentialDetail(PotentialId(j), options[j]))
  {
    FilterAll(options, (o: string) => !IsActiveName(active, o));
    LookupAsWritten(active, options, j);
  }

  /** The schemes disagree once an option is already active: with options
      [A, B] and A active, the pivot page labels B as potential-0, but this
      page resolves potential-0 to A. Nothing in the client opens this page
      by a card's id yet, so the disagreement is latent until one does. */
  lemma PotentialIdMismatch()
    ensures var active := [PivotDoc("p1", None, "A", None, Some("active"), None)];
      var options := ["A", "B"];
      && Strategies(active, Some(options))[1] == PotentialEntry(0, "B")
      && ResolveStrategy(Some(PotentialId(0)), active, Some(options)) == Some(PotentialDetail(PotentialId(0), "A"))
  {
    var active := [PivotDoc("p1", None, "A", None, Some("active"), None)];
    var options := ["A", "B"];
    ExampleBoard(active, options);
    ExampleLookup(active, options);
  }

  /** The board side of the example: B is the only remaining option, so it
      is card potential-0. */
  lemma ExampleBoard(active: seq<PivotDoc>, options: seq<string>)
    requires active == [PivotDoc("p1", None, "A", None, Some("active"), None)] && options == ["A", "B"]
    ensures RemainingOptions(active, Some(options)) == ["B"]
    ensures Strategies(active, Some(options))[1] == PotentialEntry(0, "B")
  {
    var keep := (o: string) => !IsActiveName(active, o);
    assert keep(options[0]) == false by {
      assert active[0].pivotName == options[0];
    }
    assert keep(options[1]) by {
      assert options[1] == "B" && active[0].pivotName == "A";
      assert "B"[0] != "A"[0];
    }
    assert options[1..][1..] == [];
    assert Filter(options, keep) == [options[1]];
    var r := Strategies(active, Some(options));
    assert r[1] == r[|active|..][0];
  }

  /** The lookup side of the example: potential-0 is read as options[0]. */
  lemma ExampleLookup(active: seq<PivotDoc>, options: seq<string>)
    requires active == [PivotDoc("p1", None, "A", None, Some("active"), None)] && options == ["A", "B"]
    ensures ResolveStrategy(Some(PotentialId(0)), active, Some(options)) == Some(PotentialDetail(PotentialId(0), "A"))
  {
    assert !StartsWith(active[0].id, PotentialPrefix);
    PotentialIdsAreNotStoreIds(active, 0);
    LookupAsWritten(active, options, 0);
  }

  /** Without an active pivot of that id, the lookup as written reads
      potential-i as the i-th option of the full list. */
  lemma LookupAsWritten(active: seq<PivotDoc>, options: seq<string>, i: nat)
    requires FindById(active, PotentialId(i)).None?
    requires i < |options| && options[i] != []
    ensures ResolveStrategy(Some(PotentialId(i)), active, Some(options)) == Some(PotentialDetail(PotentialId(i), options[i]))
  {
    var id := PotentialId(i);
    IndexOfPotentialId(i);
    assert Entry(Some(options), JsParseInt(IndexField(id))) == Some(options[i]);
  }

  /** No store id is a potential id when no store id starts with
      "potential-". */
  lemma PotentialIdsAreNotStoreIds(active: seq<PivotDoc>, i: nat)
    requires forall a :: 0 <= a < |active| ==> !StartsWith(active[a].id, PotentialPrefix)
    ensures FindById(active, PotentialId(i)).None?
  {
    IndexOfPotentialId(i);
  }

  /** The lookup with the numbering of the pivot page: "potential-N" is the
      N-th option that is not active yet. */
  function ResolveStrategyConsistent(selected: Option<string>, active: seq<PivotDoc>, options: Option<seq<string>>): (r: Option<Detail>)
    ensures selected.None? || selected.value == [] ==> r.None?
    ensures selected.Some? && selected.value != [] && FindById(active, selected.value).Some? ==>
      r == Some(ActiveDetail(active[FindById(active, selected.value).value]))
    ensures r.Some? && FindById(active, selected.value).None? ==>
      && StartsWith(selected.value, PotentialPrefix) && r.value.status == "potential"
      && r.value.pivotName in RemainingOptions(active, options) && r.value.pivotName != []
  {
    if selected.None? || selected.value == [] then None
    else
      var id := selected.value;
      match FindById(active, id)
      case Some(k) => Some(ActiveDetail(active[k]))
      case None =>
        if StartsWith(id, PotentialPrefix) then
          match Entry(Some(RemainingOptions(active, options)), JsParseInt(IndexField(id)))
          case Some(name) => Some(PotentialDetail(id, name))
          case None => None
        else None
  }

  /** Every card of the pivot page resolves to itself: an active card to its
      pivot, a potential card to its option, with the card's title and
      status. Pivot ids are distinct and none starts with "potential-"
      (store ids never contain a dash). */
  lemma CardsResolveToThemselves(active: seq<PivotDoc>, options: Option<seq<string>>, j: nat)
    requires forall a, b :: 0 <= a < b < |active| ==> active[a].id != active[b].id
    requires forall a :: 0 <= a < |active| ==> active[a].id != [] && !StartsWith(active[a].id, PotentialPrefix)
    requires j < |Strategies(active, options)|
    requires j >= |active| ==> Strategies(active, options)[j].title != []
    ensures var card := Strategies(active, options)[j];
      var r := ResolveStrategyConsistent(Some(card.id), active, options);
      && r.Some? && r.value.id == card.id && r.value.pivotName == card.title && r.value.status == card.status
  {
    var r := Strategies(active, options);
    if j < |active| {
      assert r[j] == r[..|active|][j] == ActiveEntry(active[j]);
      ActiveCardResolves(active, options, j);
    } else {
      var i := j - |active|;
      var rest := RemainingOptions(active, options);
      assert r[j] == r[|active|..][i] == PotentialEntry(i, rest[i]);
      PotentialIdsAreNotStoreIds(active, i);
      PotentialCardResolves(active, options, i);
    }
  }

  /** An active card resolves to its own pivot. */
  lemma ActiveCardResolves(active: seq<PivotDoc>, options: Option<seq<string>>, j: nat)
    requires forall a, b :: 0 <= a < b < |active| ==> active[a].id != active[b].id
    requires j < |active| && active[j].id != []
    ensures ResolveStrategyConsistent(Some(active[j].id), active, options) == Some(ActiveDetail(active[j]))
  {
    assert FindById(active, active[j].id) == Some(j);
  }

  /** The i-th potential card resolves to the i-th remaining option. */
  lemma PotentialCardResolves(active: seq<PivotDoc>, options: Option<seq<string>>, i: nat)
    requires FindById(active, PotentialId(i)).None?
    requires i < |RemainingOptions(active, options)| && RemainingOptions(active, options)[i] != []
    ensures ResolveStrategyConsistent(Some(PotentialId(i)), active, options)
      == Some(PotentialDetail(PotentialId(i), RemainingOptions(active, options)[i]))
  {
    IndexOfPotentialId(i);
  }

  // ---------------------------------------------------------------------
  // The edit form
  // ---------------------------------------------------------------------

  datatype FormData = FormData(title: string, description: string, kind: string, impact: string, growthRate: string, confidence: int)

  /** The form before any strategy is found. */
  const InitialForm: FormData := FormData("", "", "pivot", "Medium", "", 50)

  /** The form the effect fills from a found strategy. */
  function FormFor(d: Detail): (f: FormData)
    ensures f.title == d.pivotName && f.kind == "pivot" && f.impact == "Medium" && f.growthRate == []
    ensures d.analysis.None? ==> f.description == [] && f.confidence == 50
    ensures d.analysis.Some? ==> f.description == StrOr(d.analysis.value.marketFit, "")
    ensures d.analysis.Some? ==> f.confidence == IntOr(d.analysis.value.viabilityScore, 50)
    ensures f.confidence != 0
  {
    var analysis := d.analysis.GetOr(PivotAnalysis(None, None, None, None, None, None, None, None, None));
    FormData(StrOr(Some(d.pivotName), ""), StrOr(analysis.marketFit, ""), "pivot", "Medium", "", IntOr(analysis.viabilityScore, 50))
  }

  /** The form after the effect on `strategy`: refilled when a strategy was
      found, left as it was otherwise. */
  function FormAfter(current: FormData, strategy: Option<Detail>): (f: FormData)
    ensures strategy.None? ==> f == current
    ensures strategy.Some? ==> f.title == strategy.value.pivotName && f.confidence != 0
  {
    if strategy.Some? then FormFor(strategy.value) else current
  }
}
