/** The derived views of the project list (src/components/ProjectList.tsx):
    the status filter and text search applied to the cached list, and the
    per-status counts shown on the badge and in the filter menu. */
module ProjectList {
  import opened Common
  import opened Types

  /** The status filter: "all" or one status. */
  datatype StatusFilter = All | Only(status: ProjectStatus)

  /** The search text as compared: lower-cased, then trimmed. */
  function NormalizeQuery(searchQuery: string): string
  {
    Trim(ToLower(searchQuery))
  }

  /** The lower-cased name or the lower-cased summary contains `query`. */
  predicate MatchesQuery(p: Project, query: string)
  {
    Contains(ToLower(p.name), query) || Contains(ToLower(p.summary), query)
  }

  /** When a project is shown: it passes the status filter, and either the
      search box is empty or the project matches the normalised query. */
  predicate IsShown(p: Project, filter: StatusFilter, searchQuery: string)
  {
    && (filter.All? || p.status == filter.status)
    && (searchQuery == "" || MatchesQuery(p, NormalizeQuery(searchQuery)))
  }

  /** `filteredProjects`: nothing without a cached list; otherwise the
      status filter, then the text filter when the search box is not
      empty. The result holds exactly the shown projects of the list. */
  function FilteredProjects(projects: Option<seq<Project>>, filter: StatusFilter, searchQuery: string): (r: seq<Project>)
    ensures projects.None? ==> r == []
    ensures forall i :: 0 <= i < |r| ==> r[i] in OrElse(projects, []) && IsShown(r[i], filter, searchQuery)
    ensures forall p :: p in OrElse(projects, []) && IsShown(p, filter, searchQuery) ==> p in r
  {
    if projects.None? then []
    else
      var byStatus :=
        if filter.All? then projects.value
        else Filter(projects.value, (p: Project) => p.status == filter.status);
      if searchQuery == "" then byStatus
      else
        var query := NormalizeQuery(searchQuery);
        Filter(byStatus, (p: Project) => MatchesQuery(p, query))
  }

  /** The chained filters are one filter by `IsShown`. */
  lemma FilteredIsOneFilter(s: seq<Project>, filter: StatusFilter, searchQuery: string)
    ensures FilteredProjects(Some(s), filter, searchQuery) == Filter(s, (p: Project) => IsShown(p, filter, searchQuery))
  {
    var shown := (p: Project) => IsShown(p, filter, searchQuery);
    var query := NormalizeQuery(searchQuery);
    var byQuery := (p: Project) => MatchesQuery(p, query);
    if filter.All? {
      if searchQuery == "" {
        FilterKeepAll(s, shown);
      } else {
        FilterCongruent(s, byQuery, shown);
      }
    } else {
      var byStatus := (p: Project) => p.status == filter.status;
      if searchQuery == "" {
        FilterCongruent(s, byStatus, shown);
      } else {
        FilterFilter(s, byStatus, byQuery, shown);
      }
    }
  }

  /** The shown projects keep the relative order they have in the cache. */
  lemma FilteredIsSubsequence(s: seq<Project>, filter: StatusFilter, searchQuery: string)
    ensures IsSubsequence(FilteredProjects(Some(s), filter, searchQuery), s)
  {
    FilteredIsOneFilter(s, filter, searchQuery);
    FilterIsSubsequence(s, (p: Project) => IsShown(p, filter, searchQuery));
  }

  /** With "all" and an empty search box every cached project is shown. */
  lemma NoFilterShowsAll(s: seq<Project>)
    ensures FilteredProjects(Some(s), All, "") == s
  {
  }

  /** A search box holding only whitespace is not empty, so the text filter
      runs, but the query trims to "" which every string contains: the
      result is what the status filter alone gives. */
  lemma WhitespaceQueryKeepsStatusFiltered(s: seq<Project>, filter: StatusFilter, searchQuery: string)
    requires forall i :: 0 <= i < |searchQuery| ==> IsJsWhitespace(searchQuery[i])
    ensures FilteredProjects(Some(s), filter, searchQuery) == FilteredProjects(Some(s), filter, "")
  {
    var lowered := ToLower(searchQuery);
    assert forall i :: 0 <= i < |lowered| ==> IsJsWhitespace(lowered[i]);
    TrimEmptyIffWhitespace(lowered);
    forall p: Project
      ensures IsShown(p, filter, searchQuery) == IsShown(p, filter, "")
    {
      ContainsEmpty(ToLower(p.name));
    }
    FilteredIsOneFilter(s, filter, searchQuery);
    FilteredIsOneFilter(s, filter, "");
    FilterCongruent(s, (p: Project) => IsShown(p, filter, searchQuery), (p: Project) => IsShown(p, filter, ""));
  }

  // -----------------------------------------------------------------------
  // Counts by status
  // -----------------------------------------------------------------------

  /** The number of projects of `s` with status `status`. */
  function CountStatus(s: seq<Project>, status: ProjectStatus): (n: nat)
    ensures n <= |s|
  {
    if s == [] then 0
    else CountStatus(s[..|s| - 1], status) + (if s[|s| - 1].status == status then 1 else 0)
  }

  /** The counts dictionary for a list: "all" and the three status labels. */
  function StatusCounts(s: seq<Project>): map<string, int>
  {
    map["all" := |s|,
        "To-Do" := CountStatus(s, ToDo),
        "In Progress" := CountStatus(s, InProgress),
        "Completed" := CountStatus(s, Completed)]
  }

  /** `projectCounts`: a fold over the cached list that bumps "all" and the
      entry of each project's status, starting from all four keys at zero. */
  method ProjectCounts(projects: Option<seq<Project>>) returns (counts: map<string, int>)
    ensures counts == StatusCounts(OrElse(projects, []))
    ensures counts.Keys == {"all", "To-Do", "In Progress", "Completed"}
    ensures counts["all"] == |OrElse(projects, [])|
    ensures forall status :: counts[StatusLabel(status)] == CountStatus(OrElse(projects, []), status)
  {
    counts := map["all" := 0, "To-Do" := 0, "In Progress" := 0, "Completed" := 0];
    if projects.None? {
      assert StatusCounts([]) == counts;
      return;
    }
    var s := projects.value;
    for i := 0 to |s|
      invariant counts == StatusCounts(s[..i])
    {
      assert s[..i + 1][..i] == s[..i];
      var key := StatusLabel(s[i].status);
      counts := counts["all" := counts["all"] + 1];
      counts := counts[key := counts[key] + 1];
    }
    assert s[..|s|] == s;
  }

  /** Every project has exactly one of the three statuses, so the status
      counts add up to the "all" count. */
  lemma {:induction false} CountsAddUp(s: seq<Project>)
    ensures CountStatus(s, ToDo) + CountStatus(s, InProgress) + CountStatus(s, Completed) == |s|
    decreases |s|
  {
    if s != [] {
      CountsAddUp(s[..|s| - 1]);
    }
  }

  /** The count next to a status in the menu is the number of cards shown
      when that status is selected and the search box is empty. */
  lemma {:induction false} CountMatchesFilter(s: seq<Project>, status: ProjectStatus)
    ensures CountStatus(s, status) == |FilteredProjects(Some(s), Only(status), "")|
    decreases |s|
  {
    var byStatus := (p: Project) => p.status == status;
    if s != [] {
      var init, last := s[..|s| - 1], s[|s| - 1];
      CountMatchesFilter(init, status);
      assert s == init + [last];
      FilterAppend(init, [last], byStatus);
      assert Filter([last], byStatus) == if last.status == status then [last] else [];
    }
  }
}
