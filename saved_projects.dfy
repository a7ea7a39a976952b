/** The saved projects page of the client
    (frontend/src/pages/SavedProjectsPage.jsx): the status tabs and the
    search box over the user's project list, and the statuses its menu
    offers. */
module SavedProjects {
  import opened Lists
  import opened Text

  /** A project of the listing, with the fields the page reads; `name` and
      `status` are whatever the stored document holds, possibly nothing. */
  datatype ProjectSummary = ProjectSummary(id: string, name: Option<string>, status: Option<string>)

  /** What `filteredProjects` evaluates to: nothing while there is no list,
      an exception when a project has no name to lower-case, or the projects
      shown. */
  datatype Listing = Absent | Threw | Shown(projects: seq<ProjectSummary>)

  /** The status tabs, in order. */
  const FilterStatuses: seq<string> := ["all", "active", "completed", "archived"]

  /** The statuses the menu of a project card can set. */
  const MenuStatuses: seq<string> := ["active", "completed", "archived"]

  predicate MatchesStatus(p: ProjectSummary, filterStatus: string)
  {
    filterStatus == "all" || p.status == Some(filterStatus)
  }

  /** Both clauses of the filter; both are evaluated for every project. */
  predicate Keep(p: ProjectSummary, filterStatus: string, searchQuery: string)
  {
    MatchesStatus(p, filterStatus) && p.name.Some? && IncludesIgnoringCase(p.name.value, searchQuery)
  }

  function Keeper(filterStatus: string, searchQuery: string): ProjectSummary -> bool
  {
    (p: ProjectSummary) => Keep(p, filterStatus, searchQuery)
  }

  predicate AllNamed(projects: seq<ProjectSummary>)
  {
    forall i :: 0 <= i < |projects| ==> projects[i].name.Some?
  }

  /** `filteredProjects`: no list gives nothing; a project without a name
      makes the search clause throw, whatever the status tab; otherwise the
      projects of the tab whose name contains the query, ignoring the case
      of ASCII letters, in listing order. */
  function FilterProjects(data: Option<seq<ProjectSummary>>, filterStatus: string, searchQuery: string): (r: Listing)
    ensures r.Absent? <==> data.None?
    ensures r.Threw? <==> data.Some? && exists i :: 0 <= i < |data.value| && data.value[i].name.None?
    ensures r.Shown? ==> IsSubsequence(r.projects, data.value)
    ensures r.Shown? ==> forall i :: 0 <= i < |r.projects| ==>
      && MatchesStatus(r.projects[i], filterStatus) && r.projects[i].name.Some?
      && IncludesIgnoringCase(r.projects[i].name.value, searchQuery)
    ensures r.Shown? ==> forall i :: 0 <= i < |data.value| && Keep(data.value[i], filterStatus, searchQuery) ==>
      data.value[i] in r.projects
  {
    if data.None? then Absent
    else if !AllNamed(data.value) then Threw
    else Shown(Filter(data.value, Keeper(filterStatus, searchQuery)))
  }

  /** The "all" tab with an empty search shows every project, in order. */
  lemma AllTabShowsEverything(projects: seq<ProjectSummary>)
    requires AllNamed(projects)
    ensures FilterProjects(Some(projects), "all", "") == Shown(projects)
  {
    forall i | 0 <= i < |projects|
      ensures Keeper("all", "")(projects[i])
    {
      IncludesEmptyQuery(projects[i].name.value);
    }
    FilterAll(projects, Keeper("all", ""));
  }

  /** A status tab shows exactly the projects of that status among those
      the "all" tab shows for the same search. */
  lemma StatusTabRefinesAll(projects: seq<ProjectSummary>, filterStatus: string, searchQuery: string)
    requires AllNamed(projects)
    ensures FilterProjects(Some(projects), filterStatus, searchQuery).projects ==
      Filter(FilterProjects(Some(projects), "all", searchQuery).projects, (p: ProjectSummary) => MatchesStatus(p, filterStatus))
  {
    FilterInStages(projects, Keeper("all", searchQuery), (p: ProjectSummary) => MatchesStatus(p, filterStatus), Keeper(filterStatus, searchQuery));
  }

  /** Every status the menu sets has a tab of its own, so a project moved
      by the menu is found again under that tab. */
  lemma MenuStatusesHaveTabs(status: string, p: ProjectSummary, searchQuery: string)
    requires status in MenuStatuses
    requires p.name.Some? && IncludesIgnoringCase(p.name.value, searchQuery)
    ensures status in FilterStatuses && status != "all"
    ensures FilterProjects(Some([p.(status := Some(status))]), status, searchQuery) == Shown([p.(status := Some(status))])
  {
    var q := p.(status := Some(status));
    assert Filter([q], Keeper(status, searchQuery)) == [q] by {
      assert [q][1..] == [];
    }
  }
}
