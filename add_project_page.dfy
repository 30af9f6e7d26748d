/** The import picker: the signed-in owner's public repositories not yet imported, a
    choice between importing one of them and adding a project by hand. */
module AddProjectPage {
  import opened Js
  import opened Types
  import opened Seqs

  const FetchError := "An error occurred while fetching repositories."

  /** The per-language byte counts the GitHub API reports for a repository. */
  type LanguageStats = map<string, int>

  /** The parsed body of a repository's `/languages` request. The response status is not
      checked, so a response that is not ok contributes its error object instead of
      statistics. */
  datatype LanguagesBody = Stats(stats: LanguageStats) | ErrorObject(message: string)

  /** The `/languages` request of one repository: its parsed body, or a rejection when
      the request or the JSON parse throws. */
  datatype LanguagesFetch = Parsed(body: LanguagesBody) | LanguagesRejected

  /** A listed repository: the API record together with whatever `/languages` answered. */
  datatype ListedRepo = ListedRepo(repo: GithubRepo, languages: LanguagesBody)

  /** `existingProjects?.map(p => p.repo_fullname) || []`. */
  function ImportedNames(existing: Option<seq<Field<string>>>): seq<Field<string>>
  {
    if existing.Some? then existing.value else []
  }

  /** A repository is offered when its `full_name` is not among the imported names. */
  predicate NotImported(repo: GithubRepo, existing: Option<seq<Field<string>>>)
  {
    Defined(repo.fullName) !in ImportedNames(existing)
  }

  /** The exclusion filter over the listing. */
  function ExcludeImported(all: seq<GithubRepo>, existing: Option<seq<Field<string>>>): (r: seq<GithubRepo>)
    ensures IsSubsequence(r, all)
    ensures forall i :: 0 <= i < |r| ==> NotImported(r[i], existing) && r[i] in all
    ensures forall i :: 0 <= i < |all| ==> (all[i] in r <==> NotImported(all[i], existing))
  {
    FilterIsSubsequence(all, repo => NotImported(repo, existing));
    Filter(all, repo => NotImported(repo, existing))
  }

  /** When the existing-projects query yields no data nothing is excluded, and no offered
      repository shares a `full_name` with an imported row. */
  lemma ExclusionProperties(all: seq<GithubRepo>, existing: Option<seq<Field<string>>>)
    ensures existing.None? ==> ExcludeImported(all, existing) == all
    ensures existing.Some? ==> forall i, j :: 0 <= i < |ExcludeImported(all, existing)| && 0 <= j < |existing.value| ==>
      existing.value[j] != Defined(ExcludeImported(all, existing)[i].fullName)
  {
    if existing.None? {
      FilterKeepsAll(all, repo => NotImported(repo, existing));
    }
  }

  /** The language enrichment under `Promise.all`: one lookup per repository, results in
      listing order; a single rejected lookup rejects the whole enrichment. */
  function Enrich(repos: seq<GithubRepo>, languagesOf: string -> LanguagesFetch): (r: Option<seq<ListedRepo>>)
    ensures r.None? <==> exists i :: 0 <= i < |repos| && languagesOf(repos[i].fullName).LanguagesRejected?
    ensures r.Some? ==> |r.value| == |repos|
    ensures r.Some? ==> forall i :: 0 <= i < |repos| ==>
      r.value[i].repo == repos[i] && languagesOf(repos[i].fullName) == Parsed(r.value[i].languages)
  {
    if repos == [] then Some([])
    else
      var rest := Enrich(repos[1..], languagesOf);
      assert forall i :: 1 <= i < |repos| ==> repos[i] == repos[1..][i - 1];
      match languagesOf(repos[0].fullName)
      case LanguagesRejected => None
      case Parsed(body) =>
        if rest.None? then None
        else Some([ListedRepo(repos[0], body)] + rest.value)
  }

  /** `repos.find(repo => repo.full_name === value) || null`. */
  function FindByFullName(repos: seq<ListedRepo>, value: string): (r: Option<ListedRepo>)
    ensures r.Some? <==> exists i :: 0 <= i < |repos| && repos[i].repo.fullName == value
    ensures r.Some? ==> exists i :: 0 <= i < |repos| && repos[i] == r.value
                                 && r.value.repo.fullName == value
                                 && forall j :: 0 <= j < i ==> repos[j].repo.fullName != value
  {
    if repos == [] then None
    else if repos[0].repo.fullName == value then
      Some(repos[0])
    else
      var r := FindByFullName(repos[1..], value);
      assert forall i :: 1 <= i < |repos| ==> repos[i] == repos[1..][i - 1];
      r
  }

  class AddProjectPage {
    var repos: seq<ListedRepo>
    var selectedRepo: Option<ListedRepo>
    var isManual: bool
    var loading: bool
    var error: Option<string>
    var loggedOut: bool
    var redirectedTo: Option<string>

    /** The picker never has a repository selected while manual mode is on. */
    predicate Valid()
      reads this
    {
      !(selectedRepo.Some? && isManual)
    }

    /** The creation form is shown. */
    predicate FormShown()
      reads this
    {
      selectedRepo.Some? || isManual
    }

    constructor ()
      ensures Valid() && !FormShown()
      ensures repos == [] && loading && error == None && !loggedOut && redirectedTo == None
    {
      repos := [];
      selectedRepo := None;
      isManual := false;
      loading := true;
      error := None;
      loggedOut := false;
      redirectedTo := None;
    }

    /** `fetchRepos`, run when the page mounts. `listing` is `None` when the listing
        response is not ok or its body does not parse; `user` is the signed-in user of
        the auth context. */
    method FetchRepos(token: Option<string>, listing: Option<seq<GithubRepo>>, user: Option<User>,
                      existing: Option<seq<Field<string>>>, languagesOf: string -> LanguagesFetch)
      requires Valid()
      modifies this
      ensures Valid() && !loading
      ensures selectedRepo == old(selectedRepo) && isManual == old(isManual)
      ensures !TruthyOption(token) ==>
        loggedOut && redirectedTo == Some("/") && error == None && repos == old(repos)
      ensures TruthyOption(token) && (listing.None? || user.None?) ==>
        error == Some(FetchError) && repos == old(repos)
        && loggedOut == old(loggedOut) && redirectedTo == old(redirectedTo)
      ensures TruthyOption(token) && listing.Some? && user.Some? ==>
        var enriched := Enrich(ExcludeImported(listing.value, existing), languagesOf);
        && loggedOut == old(loggedOut) && redirectedTo == old(redirectedTo)
        && (enriched.Some? ==> error == None && repos == enriched.value)
        && (enriched.None? ==> error == Some(FetchError) && repos == old(repos))
    {
      loading := true;
      error := None;
      if !TruthyOption(token) {
        loggedOut := true;
        redirectedTo := Some("/");
        loading := false;
        return;
      }
      if listing.None? || user.None? {
        error := Some(FetchError);
        loading := false;
        return;
      }
      var filteredRepos := ExcludeImported(listing.value, existing);
      var reposWithLanguages := Enrich(filteredRepos, languagesOf);
      if reposWithLanguages.None? {
        error := Some(FetchError);
      } else {
        repos := reposWithLanguages.value;
      }
      loading := false;
    }

    /** `handleRepoSelect`: choose the first listed repository with that `full_name`
        (or none) and leave manual mode. */
    method HandleRepoSelect(value: string)
      modifies this
      ensures selectedRepo == FindByFullName(repos, value) && !isManual
      ensures Valid()
      ensures FormShown() <==> exists i :: 0 <= i < |repos| && repos[i].repo.fullName == value
      ensures repos == old(repos) && loading == old(loading) && error == old(error)
      ensures loggedOut == old(loggedOut) && redirectedTo == old(redirectedTo)
    {
      selectedRepo := FindByFullName(repos, value);
      isManual := false;
    }

    /** `handleManualAdd`: drop any selection and enter manual mode. */
    method HandleManualAdd()
      modifies this
      ensures selectedRepo == None && isManual
      ensures Valid() && FormShown()
      ensures repos == old(repos) && loading == old(loading) && error == old(error)
      ensures loggedOut == old(loggedOut) && redirectedTo == old(redirectedTo)
    {
      selectedRepo := None;
      isManual := true;
    }
  }
}
