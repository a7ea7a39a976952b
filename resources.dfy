/** The resources page of the client (frontend/src/pages/ResourcesPage.jsx):
    the selected project's elements as a resource list, and the category
    tabs and search box over it. */
module Resources {
  import opened Lists
  import opened Text

  /** An element of a stored project, with the fields the page reads; each
      may be missing from the document. The elements the engine produces
      carry no category. */
  datatype ElementDoc = ElementDoc(name: Option<string>, description: Option<string>, category: Option<string>, kind: Option<string>)

  /** A resource: the element with its type set to "element". */
  datatype Resource = Resource(name: Option<string>, description: Option<string>, category: Option<string>, kind: string)

  /** The category tabs, in order. */
  const Tabs: seq<string> := ["all", "human", "tech", "capital"]

  /** `resources`: every element of the project (none when it has no list),
      in order, typed "element" whatever type the element had. */
  function ResourcesOf(elements: Option<seq<ElementDoc>>): (r: seq<Resource>)
    ensures |r| == |elements.GetOr([])|
    ensures forall i :: 0 <= i < |r| ==> r[i].kind == "element"
    ensures forall i :: 0 <= i < |r| ==> var e := elements.GetOr([])[i];
      r[i].name == e.name && r[i].description == e.description && r[i].category == e.category
  {
    var es := elements.GetOr([]);
    seq(|es|, i requires 0 <= i < |es| => Resource(es[i].name, es[i].description, es[i].category, "element"))
  }

  /** The tab clause: every resource on "all", otherwise those whose
      category, lower-cased, is the tab's id. */
  predicate MatchesTab(r: Resource, activeTab: string)
  {
    activeTab == "all" || (r.category.Some? && Lower(r.category.value) == activeTab)
  }

  /** The search clause: the query occurs, ignoring the case of ASCII
      letters, in the name or in the description; a missing field matches
      nothing. */
  predicate MatchesSearch(r: Resource, searchQuery: string)
  {
    (r.name.Some? && IncludesIgnoringCase(r.name.value, searchQuery))
    || (r.description.Some? && IncludesIgnoringCase(r.description.value, searchQuery))
  }

  function Keeper(activeTab: string, searchQuery: string): Resource -> bool
  {
    (r: Resource) => MatchesTab(r, activeTab) && MatchesSearch(r, searchQuery)
  }

  /** `filteredResources`: the resources of the tab that match the search,
      in order. */
  function FilteredResources(resources: seq<Resource>, activeTab: string, searchQuery: string): (r: seq<Resource>)
    ensures IsSubsequence(r, resources)
    ensures forall i :: 0 <= i < |r| ==> MatchesTab(r[i], activeTab) && MatchesSearch(r[i], searchQuery)
    ensures forall i :: 0 <= i < |resources| && MatchesTab(resources[i], activeTab) && MatchesSearch(resources[i], searchQuery) ==>
      resources[i] in r
    ensures activeTab != "all" ==> forall i :: 0 <= i < |r| ==> r[i].category.Some?
  {
    Filter(resources, Keeper(activeTab, searchQuery))
  }

  /** With no search, the "all" tab shows exactly the resources that have a
      name or a description. */
  lemma EmptySearchShowsDescribed(resources: seq<Resource>)
    ensures FilteredResources(resources, "all", "") ==
      Filter(resources, (r: Resource) => r.name.Some? || r.description.Some?)
  {
    forall r: Resource | r.name.Some? ensures IncludesIgnoringCase(r.name.value, "") {
      IncludesEmptyQuery(r.name.value);
    }
    forall r: Resource | r.description.Some? ensures IncludesIgnoringCase(r.description.value, "") {
      IncludesEmptyQuery(r.description.value);
    }
    FilterCongruent(resources, Keeper("all", ""), (r: Resource) => r.name.Some? || r.description.Some?);
  }

  /** A category tab shows the resources of that category among those the
      "all" tab shows for the same search. */
  lemma TabRefinesAll(resources: seq<Resource>, activeTab: string, searchQuery: string)
    ensures FilteredResources(resources, activeTab, searchQuery) ==
      Filter(FilteredResources(resources, "all", searchQuery), (r: Resource) => MatchesTab(r, activeTab))
  {
    FilterInStages(resources, Keeper("all", searchQuery), (r: Resource) => MatchesTab(r, activeTab), Keeper(activeTab, searchQuery));
  }

  /** Elements without a category, as the engine produces them, leave every
      tab but "all" empty. */
  lemma UncategorisedOnlyOnAll(elements: seq<ElementDoc>, activeTab: string, searchQuery: string)
    requires forall i :: 0 <= i < |elements| ==> elements[i].category.None?
    requires activeTab != "all"
    ensures FilteredResources(ResourcesOf(Some(elements)), activeTab, searchQuery) == []
  {
  }
}
