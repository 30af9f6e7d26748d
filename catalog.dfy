/** The public catalogue page: every published project of both detail tables, narrowed
    by a search box and a language selector. */
module Catalog {
  import opened Js
  import opened Types
  import opened Seqs

  const LoadError := "An unexpected error occurred."

  /** `data || []` for the rows a query returned. */
  function OrEmpty(rows: Option<seq<Project>>): seq<Project>
  {
    if rows.Some? then rows.value else []
  }

  /** `[...(githubProjects || []), ...(customProjects || [])]`. */
  function CombineSources(github: Option<seq<Project>>, custom: Option<seq<Project>>): (r: seq<Project>)
    ensures |r| == |OrEmpty(github)| + |OrEmpty(custom)|
    ensures r[..|OrEmpty(github)|] == OrEmpty(github)
    ensures r[|OrEmpty(github)|..] == OrEmpty(custom)
  {
    OrEmpty(github) + OrEmpty(custom)
  }

  /** The page state the catalogue load touches. */
  datatype CatalogState = CatalogState(
    projects: seq<Project>,
    filtered: seq<Project>,
    loading: bool,
    error: Option<string>)

  /** The load: both tables are read; on success the full list and the filtered list are
      both set to the combination; on either error the lists stay and the error is set.
      The loading flag is cleared either way. */
  function LoadCatalog(before: CatalogState, github: Query<seq<Project>>, custom: Query<seq<Project>>): (r: CatalogState)
    ensures !r.loading
    ensures github.QueryData? && custom.QueryData? ==>
      && r.projects == CombineSources(github.data, custom.data)
      && r.filtered == r.projects
      && r.error == before.error
    ensures github.QueryError? || custom.QueryError? ==>
      && r.projects == before.projects && r.filtered == before.filtered
      && r.error == Some(LoadError)
  {
    if github.QueryError? || custom.QueryError? then
      before.(loading := false, error := Some(LoadError))
    else
      var combined := CombineSources(github.data, custom.data);
      before.(projects := combined, filtered := combined, loading := false)
  }

  /** The search test: the lower-cased `repo_fullname` or `name` contains the lower-cased
      query. A column that is `undefined` or `null` does not match (`?.` yields
      `undefined`). */
  predicate MatchesQuery(p: Project, query: string)
  {
    || (p.repoFullname.Defined? && Includes(Lower(p.repoFullname.value), Lower(query)))
    || (p.name.Defined? && Includes(Lower(p.name.value), Lower(query)))
  }

  /** The language test: strict equality with the selection. */
  predicate MatchesLanguage(p: Project, language: string)
  {
    p.language == Defined(language)
  }

  /** Row `p` survives `filterProjects` for the given inputs. */
  predicate Kept(p: Project, query: string, language: string)
  {
    (query == "" || MatchesQuery(p, query)) && (language == "All" || MatchesLanguage(p, language))
  }

  /** `filterProjects`: the search filter when the query is non-empty, then the language
      filter when the selection is not "All". */
  function FilterProjects(projects: seq<Project>, query: string, language: string): (r: seq<Project>)
    ensures |r| <= |projects|
    ensures query == "" && language == "All" ==> r == projects
  {
    var byQuery := if query != "" then Filter(projects, p => MatchesQuery(p, query)) else projects;
    if language != "All" then Filter(byQuery, p => MatchesLanguage(p, language)) else byQuery
  }

  /** The two successive filters are one filter by `Kept`. */
  lemma FilterProjectsIsOneFilter(projects: seq<Project>, query: string, language: string)
    ensures FilterProjects(projects, query, language) == Filter(projects, p => Kept(p, query, language))
  {
    var kept := p => Kept(p, query, language);
    if query == "" && language == "All" {
      FilterKeepsAll(projects, kept);
    } else if query == "" {
      FilterCongruent(projects, p => MatchesLanguage(p, language), kept);
    } else if language == "All" {
      FilterCongruent(projects, p => MatchesQuery(p, query), kept);
    } else {
      FilterOfFilter(projects, p => MatchesQuery(p, query), p => MatchesLanguage(p, language), kept);
    }
  }

  /** The filtered list keeps exactly the rows that pass both tests, in their original
      order. */
  lemma FilterProjectsSpec(projects: seq<Project>, query: string, language: string)
    ensures var r := FilterProjects(projects, query, language);
      && IsSubsequence(r, projects)
      && (forall i :: 0 <= i < |r| ==> Kept(r[i], query, language))
      && (forall i :: 0 <= i < |projects| ==> (projects[i] in r <==> Kept(projects[i], query, language)))
  {
    FilterProjectsIsOneFilter(projects, query, language);
    FilterIsSubsequence(projects, p => Kept(p, query, language));
  }

  /** Filtering the filtered list again with the same inputs changes nothing. */
  lemma FilterProjectsIdempotent(projects: seq<Project>, query: string, language: string)
    ensures var r := FilterProjects(projects, query, language);
      FilterProjects(r, query, language) == r
  {
    var r := FilterProjects(projects, query, language);
    FilterProjectsIsOneFilter(projects, query, language);
    FilterProjectsIsOneFilter(r, query, language);
    FilterIdempotent(projects, p => Kept(p, query, language));
  }

  /** An empty query with "All" selected shows every row; right after a successful load
      the filtered list is that unfiltered view. */
  lemma UnfilteredViewAfterLoad(before: CatalogState, github: Query<seq<Project>>, custom: Query<seq<Project>>)
    requires github.QueryData? && custom.QueryData?
    ensures var r := LoadCatalog(before, github, custom);
      && r.filtered == FilterProjects(r.projects, "", "All")
      && r.filtered == OrEmpty(github.data) + OrEmpty(custom.data)
  {
  }

  /** The search ignores ASCII case in the query, in `repo_fullname` and in `name`, and
      a row with neither a `repo_fullname` nor a `name` never matches a query. */
  lemma QueryIsCaseInsensitive(p: Project, query: string)
    ensures MatchesQuery(p, Lower(query)) == MatchesQuery(p, query)
    ensures !p.repoFullname.Defined? && !p.name.Defined? ==> !MatchesQuery(p, query)
    ensures p.repoFullname.Defined? ==>
      MatchesQuery(p.(repoFullname := Defined(Lower(p.repoFullname.value))), query) == MatchesQuery(p, query)
    ensures p.name.Defined? ==>
      MatchesQuery(p.(name := Defined(Lower(p.name.value))), query) == MatchesQuery(p, query)
  {
    LowerIdempotent(query);
    if p.repoFullname.Defined? {
      LowerIdempotent(p.repoFullname.value);
    }
    if p.name.Defined? {
      LowerIdempotent(p.name.value);
    }
  }

  /** The search is a substring test: a query matches a row iff the lower-cased query
      occurs at some position of the lower-cased `repo_fullname` or of the lower-cased
      `name`, among those that are present. */
  lemma QueryMatchesSubstring(p: Project, query: string)
    ensures MatchesQuery(p, query) <==>
      || (p.repoFullname.Defined? && exists i :: OccursAt(Lower(p.repoFullname.value), Lower(query), i))
      || (p.name.Defined? && exists i :: OccursAt(Lower(p.name.value), Lower(query), i))
  {
    if p.repoFullname.Defined? {
      IncludesIffOccurs(Lower(p.repoFullname.value), Lower(query));
    }
    if p.name.Defined? {
      IncludesIffOccurs(Lower(p.name.value), Lower(query));
    }
    assert MatchesQuery(p, query) <==>
      || (p.repoFullname.Defined? && Includes(Lower(p.repoFullname.value), Lower(query)))
      || (p.name.Defined? && Includes(Lower(p.name.value), Lower(query)));
  }

  /** The language selection is compared case-sensitively: a row tagged "go" is dropped
      when "Go" is selected. */
  lemma LanguageFilterIsCaseSensitive(p: Project)
    requires p.language == Defined("go")
    ensures FilterProjects([p], "", "Go") == []
  {
    assert !MatchesLanguage(p, "Go");
  }
}
