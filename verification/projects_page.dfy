/** The projects page: the loading screen and the case-insensitive search over the store's list. */
module ProjectsPage {
  import opened Wrappers
  import opened Seqs
  import opened Text
  import opened Domain

  /** The term occurs in the name or the description, ignoring case. */
  predicate Matches(p: Project, term: string) {
    ContainsIgnoreCase(p.name, term) || ContainsIgnoreCase(p.description, term)
  }

  /**
   * The list the page shows: nothing while the store loads, otherwise the projects that match,
   * in store order.
   */
  function ProjectsView(projects: seq<Project>, isLoading: bool, term: string): (r: Option<seq<Project>>)
    ensures r.None? <==> isLoading
    ensures r.Some? ==> forall i | 0 <= i < |r.value| :: Matches(r.value[i], term)
    ensures r.Some? ==> forall i | 0 <= i < |projects| :: Matches(projects[i], term) ==> projects[i] in r.value
    ensures r.Some? ==> forall p | p in r.value :: p in projects
    ensures r.Some? ==> IsSubsequence(r.value, projects)
    ensures r.Some? ==>
              forall p | p in projects :: multiset(r.value)[p] == if Matches(p, term) then multiset(projects)[p] else 0
  {
    FilterCounts(projects, (p: Project) => Matches(p, term));
    if isLoading then None
    else Some(Filter(projects, (p: Project) => Matches(p, term)))
  }

  /** An empty search shows every project. */
  lemma EmptyTermKeepsAll(projects: seq<Project>)
    ensures ProjectsView(projects, false, "") == Some(projects)
  {
    forall p: Project
      ensures Matches(p, "")
    {
      ContainsEmpty(ToLower(p.name));
    }
    FilterKeepsAll(projects, (p: Project) => Matches(p, ""));
  }

  /** Search ignores the case of ASCII letters in the term. */
  lemma SearchIgnoresTermCase(projects: seq<Project>, term: string)
    ensures ProjectsView(projects, false, term) == ProjectsView(projects, false, ToLower(term))
  {
    LowerIdempotent(term);
    FilterCongruent(projects, (p: Project) => Matches(p, term), (p: Project) => Matches(p, ToLower(term)));
  }

  /** Lower-casing twice is lower-casing once. */
  lemma LowerIdempotent(s: string)
    ensures ToLower(ToLower(s)) == ToLower(s)
  {
  }
}
