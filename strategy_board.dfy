/** The strategy board of the client
    (frontend/src/components/StrategyBoard.jsx): the tab, search and status
    filters over the strategies the page hands in, the kanban grouping of
    the filtered strategies by status, and the counts shown on the tabs. */
module StrategyBoard {
  import opened Lists
  import opened Text
  import opened Store

  /** One card of the board: an active pivot or a potential one, as the
      pivot page builds it. `kind` is the card's `type` ("pivot" or "fix"). */
  datatype Strategy = Strategy(
    id: string,
    title: string,
    description: string,
    status: string,
    kind: string,
    analysis: Option<PivotAnalysis>)

  /** The kanban columns, in board order. */
  const KanbanStatuses: set<string> := {"discovery", "validation", "growth", "success"}

  /** The search box: a non-empty query must occur, ignoring the case of
      ASCII letters, in the title or in the description. */
  predicate MatchesSearch(s: Strategy, searchQuery: string)
  {
    searchQuery == [] || IncludesIgnoringCase(s.title, searchQuery) || IncludesIgnoringCase(s.description, searchQuery)
  }

  /** The predicate of `filteredStrategies`, clause by clause: the tab, the
      hiding of potential strategies outside the "all" and "potential" tabs,
      the search, and the status sub-filter. */
  predicate Keep(s: Strategy, activeTab: string, searchQuery: string, statusFilter: string)
  {
    && !(activeTab == "pivot" && s.kind != "pivot")
    && !(activeTab == "fix" && s.kind != "fix")
    && !(activeTab == "potential" && s.status != "potential")
    && !(activeTab != "potential" && activeTab != "all" && s.status == "potential")
    && MatchesSearch(s, searchQuery)
    && !(statusFilter != "all" && s.status != statusFilter)
  }

  function Keeper(activeTab: string, searchQuery: string, statusFilter: string): Strategy -> bool
  {
    (s: Strategy) => Keep(s, activeTab, searchQuery, statusFilter)
  }

  /** `filteredStrategies`: the strategies the current tab, search and status
      filter let through, in their original order. */
  function FilteredStrategies(strategies: seq<Strategy>, activeTab: string, searchQuery: string, statusFilter: string)
    : (r: seq<Strategy>)
    ensures IsSubsequence(r, strategies)
    ensures activeTab == "pivot" || activeTab == "fix" ==>
      forall i :: 0 <= i < |r| ==> r[i].kind == activeTab && r[i].status != "potential"
    ensures statusFilter != "all" ==> forall i :: 0 <= i < |r| ==> r[i].status == statusFilter
    ensures forall i :: 0 <= i < |r| ==> MatchesSearch(r[i], searchQuery)
    ensures forall i :: 0 <= i < |strategies| && Keep(strategies[i], activeTab, searchQuery, statusFilter) ==> strategies[i] in r
  {
    Filter(strategies, Keeper(activeTab, searchQuery, statusFilter))
  }

  /** With the "all" tab, no search and no status filter, every strategy is
      shown, in order. */
  lemma UnfilteredShowsAll(strategies: seq<Strategy>)
    ensures FilteredStrategies(strategies, "all", "", "all") == strategies
  {
    FilterAll(strategies, Keeper("all", "", "all"));
  }

  /** On the "all" tab with no status filter, the board is exactly the
      search: a strategy stays iff the query occurs, ignoring the case of
      ASCII letters, in its title or its description. */
  lemma SearchOnly(strategies: seq<Strategy>, searchQuery: string)
    ensures FilteredStrategies(strategies, "all", searchQuery, "all") ==
            Filter(strategies, (s: Strategy) => MatchesSearch(s, searchQuery))
  {
    FilterCongruent(strategies, Keeper("all", searchQuery, "all"), (s: Strategy) => MatchesSearch(s, searchQuery));
  }

  // ---------------------------------------------------------------------
  // Kanban
  // ---------------------------------------------------------------------

  function HasStatus(status: string): Strategy -> bool
  {
    (s: Strategy) => s.status == status
  }

  /** `kanbanColumns`: the four columns, filled by one pass over the filtered
      strategies that pushes each onto the column of its status, if there is
      one. Each column is the filtered strategies of its status, in order. */
  method KanbanColumns(filtered: seq<Strategy>) returns (cols: map<string, seq<Strategy>>)
    ensures cols.Keys == KanbanStatuses
    ensures forall st :: st in cols ==> cols[st] == Filter(filtered, HasStatus(st))
  {
    cols := NoColumns();
    assert filtered[..0] == [];
    for i := 0 to |filtered|
      invariant IsColumnsOf(cols, filtered[..i])
    {
      var s := filtered[i];
      assert filtered[..i + 1] == filtered[..i] + [s];
      PushKeepsColumns(cols, filtered[..i], s);
      if s.status in cols {
        cols := cols[s.status := cols[s.status] + [s]];
      }
    }
    assert filtered[..|filtered|] == filtered;
  }

  /** `cols` holds the four columns of `filtered`. */
  ghost predicate IsColumnsOf(cols: map<string, seq<Strategy>>, filtered: seq<Strategy>)
  {
    cols.Keys == KanbanStatuses && forall st :: st in cols ==> cols[st] == Filter(filtered, HasStatus(st))
  }

  /** The four columns, empty. */
  function NoColumns(): (cols: map<string, seq<Strategy>>)
    ensures cols.Keys == KanbanStatuses
    ensures forall st :: st in cols ==> cols[st] == []
  {
    map["discovery" := [], "validation" := [], "growth" := [], "success" := []]
  }

  /** One step of the grouping loop keeps the columns up to date. */
  lemma PushKeepsColumns(cols: map<string, seq<Strategy>>, seen: seq<Strategy>, s: Strategy)
    requires IsColumnsOf(cols, seen)
    ensures IsColumnsOf(if s.status in cols then cols[s.status := cols[s.status] + [s]] else cols, seen + [s])
  {
    forall st | st in cols
      ensures Filter(seen + [s], HasStatus(st)) == Filter(seen, HasStatus(st)) + (if s.status == st then [s] else [])
    {
      FilterSnoc(seen, s, HasStatus(st));
    }
  }

  /** A strategy of a kanban status sits in the column of that status and in
      no other; a strategy of any other status sits in no column. */
  lemma KanbanPlacement(filtered: seq<Strategy>, cols: map<string, seq<Strategy>>, s: Strategy)
    requires cols.Keys == KanbanStatuses
    requires forall st :: st in cols ==> cols[st] == Filter(filtered, HasStatus(st))
    requires s in filtered
    ensures s.status in KanbanStatuses ==> s in cols[s.status]
    ensures forall st :: st in cols && st != s.status ==> s !in cols[st]
  {
    if s.status in KanbanStatuses {
      var k :| 0 <= k < |filtered| && filtered[k] == s;
      assert HasStatus(s.status)(filtered[k]);
    }
  }

  // ---------------------------------------------------------------------
  // Tab counts
  // ---------------------------------------------------------------------

  /** The badge of a tab: every strategy for "all", the potential ones for
      "potential", otherwise the strategies of that type, potential or not. */
  function TabCount(strategies: seq<Strategy>, tabId: string): (n: nat)
    ensures n <= |strategies|
    ensures tabId == "all" ==> n == |strategies|
  {
    if tabId == "all" then |strategies|
    else if tabId == "potential" then Count(strategies, HasStatus("potential"))
    else Count(strategies, OfKind(tabId))
  }

  function OfKind(kind: string): Strategy -> bool
  {
    (s: Strategy) => s.kind == kind
  }

  /** The tab names are distinct. */
  lemma TabNamesDistinct()
    ensures "pivot" != "fix" && "pivot" != "all" && "pivot" != "potential"
    ensures "fix" != "all" && "fix" != "potential"
  {
    assert "pivot"[0] != "fix"[0] && "pivot"[0] != "all"[0];
    assert "fix"[0] != "all"[0] && "fix"[0] != "potential"[0];
    assert "pivot"[1] != "potential"[1];
  }

  /** The "pivot" and "fix" badges count potential strategies that the tab
      hides: the badge is at least the number of cards shown with no search
      and no status filter, and more when one of them is potential. */
  lemma TabCountCanExceedShown(strategies: seq<Strategy>, tab: string)
    requires tab == "pivot" || tab == "fix"
    ensures TabCount(strategies, tab) >= |FilteredStrategies(strategies, tab, "", "all")|
    ensures (exists k :: 0 <= k < |strategies| && strategies[k].kind == tab && strategies[k].status == "potential") ==>
      TabCount(strategies, tab) > |FilteredStrategies(strategies, tab, "", "all")|
  {
    TabNamesDistinct();
    var keep := Keeper(tab, "", "all");
    var ofType := OfKind(tab);
    CountIsFilterLength(strategies, keep);
    CountMonotoneOn(strategies, keep, ofType);
    if exists k :: 0 <= k < |strategies| && strategies[k].kind == tab && strategies[k].status == "potential" {
      var k :| 0 <= k < |strategies| && strategies[k].kind == tab && strategies[k].status == "potential";
      CountStrictlyMonotone(strategies, keep, ofType, k);
    }
  }
}
