/**
 * The projects page: its search filter (a case-insensitive substring match
 * on the project's name or its client's name), the badge colour and label of
 * a status, and the page state `loadProjects` updates.
 */
module Projects {
  import opened Types
  import opened Strings
  import opened Api

  /* ------------------------------------------------------------------ filter */

  /** The filter's test for one project. */
  predicate Matches(p: Project, query: string) {
    Contains(Lower(p.name), Lower(query)) || Contains(Lower(p.client.name), Lower(query))
  }

  /** `projects.filter(project => ...)` */
  function Filter(ps: seq<Project>, query: string): (r: seq<Project>)
    ensures |r| <= |ps|
    ensures forall p :: p in r ==> p in ps && Matches(p, query)
  {
    if ps == [] then []
    else if Matches(ps[0], query) then [ps[0]] + Filter(ps[1..], query)
    else Filter(ps[1..], query)
  }

  /** `xs` is `ys` with some elements left out, the rest kept in order. */
  predicate IsSubsequence(xs: seq<Project>, ys: seq<Project>)
    decreases |ys|
  {
    if xs == [] then true
    else if ys == [] then false
    else if xs[0] == ys[0] then IsSubsequence(xs[1..], ys[1..])
    else IsSubsequence(xs, ys[1..])
  }

  /** The filtered list keeps projects in their original order. */
  lemma {:induction false} FilterIsSubsequence(ps: seq<Project>, query: string)
    ensures IsSubsequence(Filter(ps, query), ps)
  {
    if ps != [] {
      FilterIsSubsequence(ps[1..], query);
      var rest := Filter(ps[1..], query);
      if !Matches(ps[0], query) && rest != [] {
        assert rest[0] in rest;
        assert rest[0] != ps[0];
      }
    }
  }

  /** A project is kept exactly when it matches. */
  lemma {:induction false} FilterMembership(ps: seq<Project>, query: string, p: Project)
    ensures p in Filter(ps, query) <==> p in ps && Matches(p, query)
  {
    if ps != [] {
      FilterMembership(ps[1..], query, p);
      assert ps == [ps[0]] + ps[1..];
    }
  }

  /** When every project matches, the filter keeps the whole list. */
  lemma {:induction false} FilterKeepsAll(ps: seq<Project>, query: string)
    requires forall i :: 0 <= i < |ps| ==> Matches(ps[i], query)
    ensures Filter(ps, query) == ps
  {
    if ps != [] {
      FilterKeepsAll(ps[1..], query);
    }
  }

  /** An empty search keeps every project. */
  lemma EmptyQueryKeepsAll(ps: seq<Project>)
    ensures Filter(ps, "") == ps
  {
    forall i | 0 <= i < |ps|
      ensures Matches(ps[i], "")
    {
      ContainsEmpty(Lower(ps[i].name));
    }
    FilterKeepsAll(ps, "");
  }

  /** Queries that are equal once lower-cased select the same projects. */
  lemma {:induction false} FilterIgnoresCase(ps: seq<Project>, q1: string, q2: string)
    requires Lower(q1) == Lower(q2)
    ensures Filter(ps, q1) == Filter(ps, q2)
  {
    if ps != [] {
      FilterIgnoresCase(ps[1..], q1, q2);
    }
  }

  /** In particular, typing the query in capitals changes nothing. */
  lemma FilterUpperCaseQuery(ps: seq<Project>, query: string)
    ensures Filter(ps, Upper(query)) == Filter(ps, query)
  {
    LowerOfUpper(query);
    FilterIgnoresCase(ps, Upper(query), query);
  }

  /* ------------------------------------------------------------------ status */

  const ActiveClass := "bg-green-100 text-green-800 dark:bg-green-900 dark:text-green-300"
  const CompletedClass := "bg-blue-100 text-blue-800 dark:bg-blue-900 dark:text-blue-300"
  const OnHoldClass := "bg-yellow-100 text-yellow-800 dark:bg-yellow-900 dark:text-yellow-300"
  const CancelledClass := "bg-red-100 text-red-800 dark:bg-red-900 dark:text-red-300"
  const DefaultClass := "bg-gray-100 text-gray-800 dark:bg-gray-900 dark:text-gray-300"

  /** `getStatusColor(status)` */
  function StatusColor(status: string): string {
    if status == "active" then ActiveClass
    else if status == "completed" then CompletedClass
    else if status == "on_hold" then OnHoldClass
    else if status == "cancelled" then CancelledClass
    else DefaultClass
  }

  /** The four statuses get four distinct colours, none of them the default;
      every other string gets the default. */
  lemma StatusColorSpec(status: string)
    ensures StatusColor(status) == DefaultClass <==>
      status !in {"active", "completed", "on_hold", "cancelled"}
    ensures StatusColor("active") != StatusColor("completed")
    ensures StatusColor("active") != StatusColor("on_hold")
    ensures StatusColor("active") != StatusColor("cancelled")
    ensures StatusColor("completed") != StatusColor("on_hold")
    ensures StatusColor("completed") != StatusColor("cancelled")
    ensures StatusColor("on_hold") != StatusColor("cancelled")
  {
  }

  /** `status.replace('_', ' ')` */
  function StatusLabel(status: string): string {
    ReplaceFirst(status, '_', ' ')
  }

  /** Only the first underscore becomes a space: a status without
      underscores is shown as it is, and after the first underscore the
      string is kept character for character. */
  lemma StatusLabelSpec(status: string)
    ensures '_' !in status ==> StatusLabel(status) == status
    ensures '_' in status ==>
      var k := FirstIndex(status, '_');
      && |StatusLabel(status)| == |status|
      && StatusLabel(status)[k] == ' '
      && forall i :: 0 <= i < |status| && i != k ==> StatusLabel(status)[i] == status[i]
  {
  }

  /** The seeded "on_hold" status reads "on hold"; a second underscore
      would stay. */
  lemma StatusLabelExamples()
    ensures StatusLabel("on_hold") == "on hold"
    ensures StatusLabel("a_b_c") == "a b_c"
  {
    assert "on_hold" == "on" + "_hold";
    assert FirstIndex("on_hold", '_') == 2;
    assert "on_hold"[2 := ' '] == "on hold";
    assert FirstIndex("a_b_c", '_') == 1;
    assert "a_b_c"[1 := ' '] == "a b_c";
  }

  /* -------------------------------------------------------------- page state */

  class ProjectsPage {
    const api: Fetcher
    var projects: seq<Project>
    var isLoading: bool
    var searchQuery: string

    constructor (api: Fetcher)
      ensures this.api == api && projects == [] && isLoading && searchQuery == ""
    {
      this.api := api;
      projects := [];
      isLoading := true;
      searchQuery := "";
    }

    /** `filteredProjects` */
    function FilteredProjects(): seq<Project>
      reads this
    {
      Filter(projects, searchQuery)
    }

    /** `loadProjects()`; `reply` is the `data` list a real server answers to
        GET /projects. A failure is only logged. */
    method LoadProjects(reply: Result<seq<Project>>)
      requires api.Valid()
      modifies this, api.browser, api.backend
      ensures api.Valid() && !isLoading && searchQuery == old(searchQuery)
      ensures
        var (s, r) := FetchGet(api.mockMode, "/projects", old(api.backend.State()), old(api.browser.GetToken()),
                               api.backend.loadedAt, ProjectsReply(reply));
        && api.backend.State() == s
        && api.browser.Snapshot()
           == BrowserAfter(api.mockMode, HttpGet, "/projects", old(api.browser.Snapshot()), ProjectsReply(reply))
        && (r.Success? ==> r.value.ProjectData? && projects == r.value.projects)
        && (r.Failure? ==> projects == old(projects))
    {
      var r, _ := api.Get("/projects", ProjectsReply(reply));
      match r {
        case Success(p) =>
          assert p.ProjectData?;
          projects := p.projects;
        case Failure(_) =>
      }
      isLoading := false;
    }

    /** The search box's `onChange`. */
    method SetSearchQuery(query: string)
      modifies this
      ensures searchQuery == query && projects == old(projects) && isLoading == old(isLoading)
    {
      searchQuery := query;
    }
  }
}
