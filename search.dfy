/** The search page (src/pages/SearchPage.tsx): a case-insensitive text query over
    project and task names and descriptions, and three select-box filters (project,
    state, priority) that narrow the tasks only. */
module Search {
  import opened Wrappers
  import opened Domain
  import opened Seqs
  import opened Text
  import opened TaskList

  /** `nombre.toLowerCase().includes(q) || (descripcion && descripcion.toLowerCase().includes(q))`
      with `q` the lower-cased search term; an empty description is falsy. */
  predicate TextMatches(name: string, description: string, term: string)
  {
    Includes(Lower(name), Lower(term)) ||
    (|description| > 0 && Includes(Lower(description), Lower(term)))
  }

  function ProjectMatches(term: string): Project -> bool
  {
    (p: Project) => TextMatches(p.name, p.description, term)
  }

  function TaskText(term: string): Task -> bool
  {
    (t: Task) => TextMatches(t.name, t.description, term)
  }

  /** Every condition a task must meet, the filters on 'all' accepting anything. */
  function TaskMatches(term: string, pf: Choice<int>, sf: Choice<TaskStatus>, prf: Choice<Priority>): Task -> bool
  {
    (t: Task) => TextMatches(t.name, t.description, term) && ProjectAccepts(pf, t)
                 && Accepts(sf, t.status) && Accepts(prf, t.priority)
  }

  /** The projects `applyFilters` keeps. */
  function ProjectResults(ps: seq<Project>, term: string): (r: seq<Project>)
    ensures |r| <= |ps|
    ensures forall i :: 0 <= i < |r| ==> r[i] in ps && TextMatches(r[i].name, r[i].description, term)
  {
    Filter(ProjectMatches(term), ps)
  }

  /** The tasks `applyFilters` keeps. */
  function TaskResults(ts: seq<Task>, term: string, pf: Choice<int>, sf: Choice<TaskStatus>,
                       prf: Choice<Priority>): (r: seq<Task>)
    ensures |r| <= |ts|
    ensures forall i :: 0 <= i < |r| ==>
      && r[i] in ts && TextMatches(r[i].name, r[i].description, term)
      && ProjectAccepts(pf, r[i]) && Accepts(sf, r[i].status) && Accepts(prf, r[i].priority)
  {
    Filter(TaskMatches(term, pf, sf, prf), ts)
  }

  /* ---------- properties of the matching ---------- */

  lemma EmptyOccursEverywhere(s: string)
    ensures Includes(s, "")
  {
    assert OccursAt("", s, 0);
  }

  /** The `descripcion &&` guard changes nothing: an empty description could only match an empty
      term, and an empty term already matches the name. */
  lemma DescriptionGuardRedundant(name: string, description: string, term: string)
    ensures TextMatches(name, description, term) <==>
      Includes(Lower(name), Lower(term)) || Includes(Lower(description), Lower(term))
  {
    if |description| == 0 && Includes(Lower(description), Lower(term)) {
      var i :| OccursAt(Lower(term), Lower(description), i);
      assert Lower(term) == [];
      EmptyOccursEverywhere(Lower(name));
    }
  }

  /** The term's letter case does not matter. */
  lemma MatchIgnoresTermCase(name: string, description: string, term: string)
    ensures TextMatches(name, description, Lower(term)) == TextMatches(name, description, term)
  {
    LowerIdempotent(term);
  }

  /** A project is listed exactly when it is in the input and matches the term; the select-box
      filters take no part. */
  lemma ProjectResultsMeaning(ps: seq<Project>, term: string, p: Project)
    ensures p in ProjectResults(ps, term) <==> p in ps && TextMatches(p.name, p.description, term)
  {
  }

  /** A task is listed exactly when it is in the input, matches the term and passes every filter. */
  lemma TaskResultsMeaning(ts: seq<Task>, term: string, pf: Choice<int>, sf: Choice<TaskStatus>,
                           prf: Choice<Priority>, t: Task)
    ensures t in TaskResults(ts, term, pf, sf, prf) <==>
      && t in ts && TextMatches(t.name, t.description, term)
      && (pf.All? || t.project.id == Some(pf.value))
      && (sf.All? || t.status == sf.value)
      && (prf.All? || t.priority == prf.value)
  {
  }

  /** An empty term with every filter on 'all' lists everything. */
  lemma EmptySearchListsAll(ps: seq<Project>, ts: seq<Task>)
    ensures ProjectResults(ps, "") == ps
    ensures TaskResults(ts, "", All, All, All) == ts
  {
    forall i | 0 <= i < |ps| ensures ProjectMatches("")(ps[i]) {
      EmptyOccursEverywhere(Lower(ps[i].name));
    }
    forall i | 0 <= i < |ts| ensures TaskMatches("", All, All, All)(ts[i]) {
      EmptyOccursEverywhere(Lower(ts[i].name));
    }
    FilterKeepsAll(ProjectMatches(""), ps);
    FilterKeepsAll(TaskMatches("", All, All, All), ts);
  }

  /** Both result lists keep the input order, and searching the results again changes nothing. */
  lemma ResultsStable(ps: seq<Project>, ts: seq<Task>, term: string, pf: Choice<int>,
                      sf: Choice<TaskStatus>, prf: Choice<Priority>)
    ensures IsSubsequence(ProjectResults(ps, term), ps)
    ensures IsSubsequence(TaskResults(ts, term, pf, sf, prf), ts)
    ensures ProjectResults(ProjectResults(ps, term), term) == ProjectResults(ps, term)
    ensures TaskResults(TaskResults(ts, term, pf, sf, prf), term, pf, sf, prf) == TaskResults(ts, term, pf, sf, prf)
  {
    FilterIsSubsequence(ProjectMatches(term), ps);
    FilterIsSubsequence(TaskMatches(term, pf, sf, prf), ts);
    FilterIdempotent(ProjectMatches(term), ps);
    FilterIdempotent(TaskMatches(term, pf, sf, prf), ts);
  }

  /** `c` filters at least as strictly as `wider`: `wider` is 'all' or the same choice. */
  predicate Narrows<T(==)>(c: Choice<T>, wider: Choice<T>)
  {
    wider.All? || c == wider
  }

  /** Setting a filter (or leaving it) never lists a task that was not listed before. */
  lemma ExtraFilterNarrows(ts: seq<Task>, term: string,
                           pf: Choice<int>, sf: Choice<TaskStatus>, prf: Choice<Priority>,
                           pf0: Choice<int>, sf0: Choice<TaskStatus>, prf0: Choice<Priority>)
    requires Narrows(pf, pf0) && Narrows(sf, sf0) && Narrows(prf, prf0)
    ensures IsSubsequence(TaskResults(ts, term, pf, sf, prf), TaskResults(ts, term, pf0, sf0, prf0))
  {
    FilterMonotone(TaskMatches(term, pf0, sf0, prf0), TaskMatches(term, pf, sf, prf), ts);
  }

  /** The task half of `applyFilters`: the text match, then each filter not on 'all' in turn. */
  method NarrowTasks(all: seq<Task>, term: string, pf: Choice<int>, sf: Choice<TaskStatus>,
                     prf: Choice<Priority>) returns (filtered: seq<Task>)
    ensures filtered == TaskResults(all, term, pf, sf, prf)
  {
    filtered := Filter(TaskText(term), all);
    FilterExtensional(TaskText(term), TaskMatches(term, All, All, All), all);
    if pf.Only? {
      FilterFilter(TaskMatches(term, All, All, All), (t: Task) => ProjectAccepts(pf, t),
                   TaskMatches(term, pf, All, All), all);
      filtered := Filter((t: Task) => ProjectAccepts(pf, t), filtered);
    }
    if sf.Only? {
      FilterFilter(TaskMatches(term, pf, All, All), (t: Task) => Accepts(sf, t.status),
                   TaskMatches(term, pf, sf, All), all);
      filtered := Filter((t: Task) => Accepts(sf, t.status), filtered);
    }
    if prf.Only? {
      FilterFilter(TaskMatches(term, pf, sf, All), (t: Task) => Accepts(prf, t.priority),
                   TaskMatches(term, pf, sf, prf), all);
      filtered := Filter((t: Task) => Accepts(prf, t.priority), filtered);
    }
  }

  /* ---------- the page state ---------- */

  class SearchPage {
    var searchTerm: string
    var projectFilter: Choice<int>          // filterProyecto
    var statusFilter: Choice<TaskStatus>    // filterEstado
    var priorityFilter: Choice<Priority>    // filterPrioridad
    var allProjects: seq<Project>
    var allTasks: seq<Task>
    var projects: seq<Project>              // the listed projects
    var tasks: seq<Task>                    // the listed tasks

    /** The effect on the term, the filters and both data lists keeps the listed results in step
        with them. */
    predicate Valid()
      reads this
    {
      && projects == ProjectResults(allProjects, searchTerm)
      && tasks == TaskResults(allTasks, searchTerm, projectFilter, statusFilter, priorityFilter)
    }

    constructor ()
      ensures Valid()
      ensures searchTerm == "" && projectFilter == All && statusFilter == All && priorityFilter == All
      ensures allProjects == [] && allTasks == [] && projects == [] && tasks == []
    {
      searchTerm := "";
      projectFilter, statusFilter, priorityFilter := All, All, All;
      allProjects, allTasks, projects, tasks := [], [], [], [];
    }

    /** `applyFilters`: projects by the term alone; tasks as `NarrowTasks` computes them. */
    method ApplyFilters()
      modifies this`projects, this`tasks
      ensures Valid()
    {
      var filteredProjects := Filter(ProjectMatches(searchTerm), allProjects);
      var filteredTasks := NarrowTasks(allTasks, searchTerm, projectFilter, statusFilter, priorityFilter);
      projects := filteredProjects;
      tasks := filteredTasks;
    }

    /** `loadData`: on success both lists are replaced and the effect re-runs the search; a failure
        is only logged. */
    method LoadData(fetchOk: bool, fetchedProjects: seq<Project>, fetchedTasks: seq<Task>)
      requires Valid()
      modifies this`allProjects, this`allTasks, this`projects, this`tasks
      ensures Valid()
      ensures allProjects == if fetchOk then fetchedProjects else old(allProjects)
      ensures allTasks == if fetchOk then fetchedTasks else old(allTasks)
    {
      if fetchOk {
        allProjects := fetchedProjects;
        allTasks := fetchedTasks;
        ApplyFilters();
      }
    }

    /** Editing the term or a select box: the effect on those inputs re-runs `applyFilters`. */
    method ChangeInputs(term: string, pf: Choice<int>, sf: Choice<TaskStatus>, prf: Choice<Priority>)
      requires Valid()
      modifies this`searchTerm, this`projectFilter, this`statusFilter, this`priorityFilter,
               this`projects, this`tasks
      ensures Valid()
      ensures searchTerm == term && projectFilter == pf && statusFilter == sf && priorityFilter == prf
    {
      searchTerm, projectFilter, statusFilter, priorityFilter := term, pf, sf, prf;
      ApplyFilters();
    }

    /** `clearFilters`: the term back to empty and every filter back to 'all'; the effect then lists
        every project and every task. */
    method ClearFilters()
      requires Valid()
      modifies this`searchTerm, this`projectFilter, this`statusFilter, this`priorityFilter,
               this`projects, this`tasks
      ensures Valid()
      ensures searchTerm == "" && projectFilter == All && statusFilter == All && priorityFilter == All
      ensures projects == allProjects && tasks == allTasks
    {
      ChangeInputs("", All, All, All);
      EmptySearchListsAll(allProjects, allTasks);
    }

    /** `totalResultados`. */
    function TotalResults(): (n: nat)
      reads this
      ensures n == 0 <==> projects == [] && tasks == []
      ensures n >= |projects| && n >= |tasks|
    {
      |projects| + |tasks|
    }

    /** The "No se encontraron resultados" card: nothing listed for a non-empty term. With the
        results in step, that means no project and no task matches the term and the filters. */
    predicate ShowsNoResults(): (shown: bool)
      reads this
      ensures shown <==> projects == [] && tasks == [] && searchTerm != ""
    {
      TotalResults() == 0 && searchTerm != ""
    }
  }

  /** The "no results" card tells the truth: no loaded project matches the term, and no loaded task
      matches the term and every filter not on 'all'. */
  lemma NoResultsMeansNoMatch(page: SearchPage)
    requires page.Valid() && page.ShowsNoResults()
    ensures forall p :: p in page.allProjects ==> !TextMatches(p.name, p.description, page.searchTerm)
    ensures forall t :: t in page.allTasks ==>
      !TaskMatches(page.searchTerm, page.projectFilter, page.statusFilter, page.priorityFilter)(t)
  {
    forall p | p in page.allProjects
      ensures !TextMatches(p.name, p.description, page.searchTerm)
    {
      ProjectResultsMeaning(page.allProjects, page.searchTerm, p);
    }
    forall t | t in page.allTasks
      ensures !TaskMatches(page.searchTerm, page.projectFilter, page.statusFilter, page.priorityFilter)(t)
    {
      TaskResultsMeaning(page.allTasks, page.searchTerm, page.projectFilter, page.statusFilter,
                         page.priorityFilter, t);
    }
  }
}
