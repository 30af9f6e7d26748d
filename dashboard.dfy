/** The owner's "My Projects" page: it loads the owner's rows from both detail tables,
    reconciles the GitHub rows against the GitHub API, and publishes one list. */
module Dashboard {
  import opened Js
  import opened Types
  import opened Seqs

  // ---------------------------------------------------------------------------
  // One row against its upstream repository
  // ---------------------------------------------------------------------------

  /** The five columns of a `github_projects_data` row that mirror the repository.
      `website_link` is not among them. */
  datatype Mirror = Mirror(
    repoDesc: Field<string>,
    starsCount: Field<int>,
    forksCount: Field<int>,
    openIssueCount: Field<int>,
    language: Field<string>)

  function RowMirror(p: Project): Mirror
  {
    Mirror(p.repoDesc, p.starsCount, p.forksCount, p.openIssueCount, p.language)
  }

  /** The values the repository supplies for the five columns. */
  function UpstreamMirror(g: GithubRepo): Mirror
  {
    Mirror(Nullable(g.description), Defined(g.stargazersCount), Defined(g.forksCount),
           Defined(g.openIssuesCount), Nullable(g.language))
  }

  /** The row with its five mirrored columns set to `m`. */
  function WithMirror(p: Project, m: Mirror): Project
  {
    p.(repoDesc := m.repoDesc, starsCount := m.starsCount, forksCount := m.forksCount,
       openIssueCount := m.openIssueCount, language := m.language)
  }

  /** The change test: one of the five pairs differs under `!==`. */
  predicate Differs(p: Project, g: GithubRepo)
  {
    || Nullable(g.description) != p.repoDesc
    || Defined(g.stargazersCount) != p.starsCount
    || Defined(g.forksCount) != p.forksCount
    || Defined(g.openIssuesCount) != p.openIssueCount
    || Nullable(g.language) != p.language
  }

  /** The merged record `{...project, repo_desc: ..., language: ...}`: the row takes
      the five upstream values and keeps every other column. */
  function Merge(p: Project, g: GithubRepo): Project
  {
    WithMirror(p, UpstreamMirror(g))
  }

  /** The merged row carries the five upstream values, and putting the row's own five
      values back gives the row again: no other column changes. */
  lemma MergeTakesUpstream(p: Project, g: GithubRepo)
    ensures RowMirror(Merge(p, g)) == UpstreamMirror(g)
    ensures WithMirror(Merge(p, g), RowMirror(p)) == p
  {
  }

  /** The change test looks at exactly the five mirrored columns. */
  lemma DiffersIffMirrorDiffers(p: Project, g: GithubRepo)
    ensures Differs(p, g) <==> RowMirror(p) != UpstreamMirror(g)
  {
  }

  /** A row is rewritten exactly when merging would change it, and a merged row
      passes the change test against the same repository. */
  lemma MergeChangesIffDiffers(p: Project, g: GithubRepo)
    ensures Merge(p, g) != p <==> Differs(p, g)
    ensures !Differs(Merge(p, g), g)
  {
    MergeTakesUpstream(p, g);
    if !Differs(p, g) {
      assert RowMirror(p) == UpstreamMirror(g);
      assert Merge(p, g) == WithMirror(p, RowMirror(p));
    }
  }

  /** The outcome of `fetch(".../repos/" + repo_fullname)` followed by `res.json()`:
      a response that is not ok, a request or body parse that throws, or the repository. */
  datatype Fetch = NotOk | Rejected | Ok(repo: GithubRepo)

  /** The upstream snapshot the pass sees: each row's fetch outcome, keyed by the row's
      `repo_fullname` (the request URL is built from it). */
  type Upstream = Field<string> -> Fetch

  /** The write `update({five columns}).eq("id", project.id)`. */
  datatype Update = Update(id: string, values: Mirror)

  /** The write the loop issues for row `p`, if any. */
  function Attempt(p: Project, upstream: Upstream): Option<Update>
  {
    match upstream(p.repoFullname)
    case Ok(g) => if Differs(p, g) then Some(Update(p.id, UpstreamMirror(g))) else None
    case _ => None
  }

  /** What the loop appends to `updatedProjects` for row `p`, if anything. */
  function Settle(p: Project, upstream: Upstream): Option<Project>
  {
    match upstream(p.repoFullname)
    case Ok(g) => if Differs(p, g) then Some(Merge(p, g)) else Some(p)
    case _ => None
  }

  /** Row `p` triggers a write that the store rejects. */
  predicate WriteFails(p: Project, upstream: Upstream, updateFails: string -> bool)
  {
    Attempt(p, upstream).Some? && updateFails(p.id)
  }

  /** Row `p` throws out of the loop into the error handler: its fetch is rejected, or
      its write is. */
  predicate Aborts(p: Project, upstream: Upstream, updateFails: string -> bool)
  {
    upstream(p.repoFullname).Rejected? || WriteFails(p, upstream, updateFails)
  }

  /** A write is issued for a row exactly when its fetch succeeds and the change test
      holds; the write is keyed by the row's id and carries all five upstream values;
      the row it settles to is the merged row. A fetch that is not ok or is rejected
      settles the row to nothing. */
  lemma AttemptIffDiffers(p: Project, upstream: Upstream)
    ensures Attempt(p, upstream).Some? <==> upstream(p.repoFullname).Ok? && Differs(p, upstream(p.repoFullname).repo)
    ensures Attempt(p, upstream).Some? ==>
      && Attempt(p, upstream).value == Update(p.id, UpstreamMirror(upstream(p.repoFullname).repo))
      && Settle(p, upstream) == Some(Merge(p, upstream(p.repoFullname).repo))
    ensures Settle(p, upstream).None? <==> !upstream(p.repoFullname).Ok?
  {
  }

  // ---------------------------------------------------------------------------
  // The whole pass
  // ---------------------------------------------------------------------------

  /** What row `p` appends to `updatedProjects`, as a sequence of at most one row. */
  function Settled(p: Project, upstream: Upstream): seq<Project>
  {
    match Settle(p, upstream) case None => [] case Some(q) => [q]
  }

  /** The writes row `p` issues, as a sequence of at most one write. */
  function Attempted(p: Project, upstream: Upstream): seq<Update>
  {
    match Attempt(p, upstream) case None => [] case Some(w) => [w]
  }

  /** `updatedProjects` after a pass over `rows` that no failed write interrupted. */
  function SettleAll(rows: seq<Project>, upstream: Upstream): (r: seq<Project>)
    ensures |r| <= |rows|
  {
    if rows == [] then [] else Settled(rows[0], upstream) + SettleAll(rows[1..], upstream)
  }

  /** The writes a pass over `rows` issues when none fails. */
  function AttemptAll(rows: seq<Project>, upstream: Upstream): (r: seq<Update>)
    ensures |r| <= |rows|
  {
    if rows == [] then [] else Attempted(rows[0], upstream) + AttemptAll(rows[1..], upstream)
  }

  /** The position of the first row at or after `i` that aborts the pass, or `|rows|`. */
  function FirstFailureFrom(rows: seq<Project>, upstream: Upstream, updateFails: string -> bool, i: nat): (k: nat)
    requires i <= |rows|
    ensures i <= k <= |rows|
    ensures k < |rows| ==> Aborts(rows[k], upstream, updateFails)
    decreases |rows| - i
  {
    if i == |rows| then i
    else if Aborts(rows[i], upstream, updateFails) then i
    else FirstFailureFrom(rows, upstream, updateFails, i + 1)
  }

  /** The position of the first row that aborts the pass, or `|rows|`. */
  function FirstFailure(rows: seq<Project>, upstream: Upstream, updateFails: string -> bool): nat
  {
    FirstFailureFrom(rows, upstream, updateFails, 0)
  }

  /** No row between `i` and the first failure from `i` aborts the pass. */
  lemma {:induction false} FirstFailureIsFirst(rows: seq<Project>, upstream: Upstream, updateFails: string -> bool, i: nat, j: nat)
    requires i <= j && i <= |rows| && j < FirstFailureFrom(rows, upstream, updateFails, i)
    ensures !Aborts(rows[j], upstream, updateFails)
    decreases j - i
  {
    if i < j {
      FirstFailureIsFirst(rows, upstream, updateFails, i + 1, j);
    }
  }

  lemma {:induction false} SettleAllAppend(rows: seq<Project>, p: Project, upstream: Upstream)
    ensures SettleAll(rows + [p], upstream) == SettleAll(rows, upstream) + Settled(p, upstream)
  {
    if rows == [] {
      assert [p][1..] == [];
    } else {
      assert (rows + [p])[0] == rows[0] && (rows + [p])[1..] == rows[1..] + [p];
      SettleAllAppend(rows[1..], p, upstream);
    }
  }

  lemma {:induction false} AttemptAllAppend(rows: seq<Project>, p: Project, upstream: Upstream)
    ensures AttemptAll(rows + [p], upstream) == AttemptAll(rows, upstream) + Attempted(p, upstream)
  {
    if rows == [] {
      assert [p][1..] == [];
    } else {
      assert (rows + [p])[0] == rows[0] && (rows + [p])[1..] == rows[1..] + [p];
      AttemptAllAppend(rows[1..], p, upstream);
    }
  }

  /** Extending the processed prefix by one row extends both sequences by its part. */
  lemma PrefixStep(rows: seq<Project>, i: nat, upstream: Upstream)
    requires i < |rows|
    ensures SettleAll(rows[..i + 1], upstream) == SettleAll(rows[..i], upstream) + Settled(rows[i], upstream)
    ensures AttemptAll(rows[..i + 1], upstream) == AttemptAll(rows[..i], upstream) + Attempted(rows[i], upstream)
  {
    assert rows[..i + 1] == rows[..i] + [rows[i]];
    SettleAllAppend(rows[..i], rows[i], upstream);
    AttemptAllAppend(rows[..i], rows[i], upstream);
  }

  /** A row whose fetch is not ok, or is rejected, contributes no row and no write. */
  lemma RowSkipped(p: Project, upstream: Upstream)
    requires !upstream(p.repoFullname).Ok?
    ensures Settled(p, upstream) == [] && Attempted(p, upstream) == []
  {
  }

  /** A row that fails the change test against repository `g` contributes the merged
      row and one write of the five upstream values. */
  lemma RowChanged(p: Project, upstream: Upstream, g: GithubRepo)
    requires upstream(p.repoFullname) == Ok(g) && Differs(p, g)
    ensures Settled(p, upstream) == [Merge(p, g)]
    ensures Attempted(p, upstream) == [Update(p.id, UpstreamMirror(g))]
  {
  }

  /** A row that passes the change test contributes itself and no write. */
  lemma RowUnchanged(p: Project, upstream: Upstream, g: GithubRepo)
    requires upstream(p.repoFullname) == Ok(g) && !Differs(p, g)
    ensures Settled(p, upstream) == [p] && Attempted(p, upstream) == []
  {
  }

  /** The loop of `fetchGitHubProjects`: for each cached row, in order, fetch its
      repository (a rejected fetch abandons the pass: `updated` is `None`); skip the row
      if the response is not ok; if the change test holds, write the five columns (a
      rejected write abandons the pass too) and append the merged row; otherwise append
      the row as it is. `writes` lists every write issued, the rejected one included. */
  method ReconcileRows(rows: seq<Project>, upstream: Upstream, updateFails: string -> bool)
    returns (updated: Option<seq<Project>>, writes: seq<Update>)
    ensures updated.Some? <==> FirstFailure(rows, upstream, updateFails) == |rows|
    ensures updated.Some? ==> updated.value == SettleAll(rows, upstream) && writes == AttemptAll(rows, upstream)
    ensures updated.None? ==> writes == AttemptAll(rows[..FirstFailure(rows, upstream, updateFails) + 1], upstream)
  {
    var updatedProjects: seq<Project> := [];
    writes := [];
    var i := 0;
    while i < |rows|
      invariant 0 <= i <= |rows|
      invariant updatedProjects == SettleAll(rows[..i], upstream)
      invariant writes == AttemptAll(rows[..i], upstream)
      invariant FirstFailureFrom(rows, upstream, updateFails, i) == FirstFailure(rows, upstream, updateFails)
    {
      var project := rows[i];
      PrefixStep(rows, i, upstream);
      var res := upstream(project.repoFullname);
      if res.Rejected? {
        RowSkipped(project, upstream);
        updated := None;
        return;
      }
      if res.NotOk? {
        RowSkipped(project, upstream);
        i := i + 1;
        continue;
      }
      var githubData := res.repo;
      if Differs(project, githubData) {
        RowChanged(project, upstream, githubData);
        writes := writes + [Update(project.id, UpstreamMirror(githubData))];
        if updateFails(project.id) {
          updated := None;
          return;
        }
        updatedProjects := updatedProjects + [Merge(project, githubData)];
      } else {
        RowUnchanged(project, upstream, githubData);
        updatedProjects := updatedProjects + [project];
      }
      i := i + 1;
    }
    assert rows[..i] == rows;
    updated := Some(updatedProjects);
  }

  // ---------------------------------------------------------------------------
  // Properties of a pass
  // ---------------------------------------------------------------------------

  function Ids(rows: seq<Project>): (r: seq<string>)
    ensures |r| == |rows|
    ensures forall i :: 0 <= i < |rows| ==> r[i] == rows[i].id
  {
    seq(|rows|, i requires 0 <= i < |rows| => rows[i].id)
  }

  /** A row contributes at most one row, with its own id, and contributes one exactly
      when its fetch is ok. */
  lemma SettledRow(p: Project, upstream: Upstream)
    ensures |Settled(p, upstream)| == if upstream(p.repoFullname).Ok? then 1 else 0
    ensures forall q :: q in Settled(p, upstream) ==> q.id == p.id
  {
  }

  /** The published rows are the fetched rows, in input order: their ids are a
      subsequence of the input's ids. */
  lemma {:induction false} SettleAllIsSubsequence(rows: seq<Project>, upstream: Upstream)
    ensures IsSubsequence(Ids(SettleAll(rows, upstream)), Ids(rows))
  {
    if rows != [] {
      SettleAllIsSubsequence(rows[1..], upstream);
      var head := Settled(rows[0], upstream);
      var rest := SettleAll(rows[1..], upstream);
      SettledRow(rows[0], upstream);
      assert SettleAll(rows, upstream) == head + rest;
      assert Ids(rows)[0] == rows[0].id && Ids(rows)[1..] == Ids(rows[1..]);
      if head == [] {
        assert head + rest == rest;
      } else {
        var r := head + rest;
        assert r[0] in head;
        assert Ids(r)[0] == rows[0].id && Ids(r)[1..] == Ids(rest);
      }
    }
  }

  /** When every fetch is ok, every row is published. */
  lemma {:induction false} SettleAllKeepsAll(rows: seq<Project>, upstream: Upstream)
    requires forall i :: 0 <= i < |rows| ==> upstream(rows[i].repoFullname).Ok?
    ensures |SettleAll(rows, upstream)| == |rows|
  {
    if rows != [] {
      assert forall i :: 0 <= i < |rows[1..]| ==> rows[1..][i] == rows[i + 1];
      SettleAllKeepsAll(rows[1..], upstream);
      SettledRow(rows[0], upstream);
    }
  }

  /** Every published row is in sync with its repository: a published row is
      fetched by the same name and passes the change test. */
  lemma {:induction false} SettledRowsAreInSync(rows: seq<Project>, upstream: Upstream)
    ensures forall k :: 0 <= k < |SettleAll(rows, upstream)| ==>
      Settle(SettleAll(rows, upstream)[k], upstream) == Some(SettleAll(rows, upstream)[k])
  {
    if rows != [] {
      SettledRowsAreInSync(rows[1..], upstream);
      var p := rows[0];
      match upstream(p.repoFullname)
      case NotOk =>
      case Rejected =>
      case Ok(g) =>
        var q := if Differs(p, g) then Merge(p, g) else p;
        MergeChangesIffDiffers(p, g);
        assert q.repoFullname == p.repoFullname;
        assert Settle(q, upstream) == Some(q);
        var r := SettleAll(rows, upstream);
        assert r == [q] + SettleAll(rows[1..], upstream);
        forall k | 0 <= k < |r| ensures Settle(r[k], upstream) == Some(r[k]) {
          if k > 0 {
            assert r[k] == SettleAll(rows[1..], upstream)[k - 1];
          }
        }
    }
  }

  /** A row that settles to itself contributes itself and no write. */
  lemma InSyncRow(p: Project, upstream: Upstream)
    requires Settle(p, upstream) == Some(p)
    ensures Settled(p, upstream) == [p] && Attempted(p, upstream) == []
  {
    MergeChangesIffDiffers(p, upstream(p.repoFullname).repo);
  }

  /** Rows already in sync are published unchanged, and no write is issued for them. */
  lemma {:induction false} InSyncPassIsIdentity(rows: seq<Project>, upstream: Upstream)
    requires forall k :: 0 <= k < |rows| ==> Settle(rows[k], upstream) == Some(rows[k])
    ensures SettleAll(rows, upstream) == rows
    ensures AttemptAll(rows, upstream) == []
  {
    if rows != [] {
      var rest := rows[1..];
      forall k | 0 <= k < |rest| ensures Settle(rest[k], upstream) == Some(rest[k]) {
        assert rest[k] == rows[k + 1];
      }
      InSyncPassIsIdentity(rest, upstream);
      InSyncRow(rows[0], upstream);
      assert rows == [rows[0]] + rest;
    }
  }

  /** The pass writes nothing exactly when no row triggers a write. */
  lemma {:induction false} NoWritesIffNoAttempts(rows: seq<Project>, upstream: Upstream)
    ensures AttemptAll(rows, upstream) == [] <==> forall k :: 0 <= k < |rows| ==> Attempt(rows[k], upstream).None?
  {
    if rows != [] {
      var rest := rows[1..];
      NoWritesIffNoAttempts(rest, upstream);
      assert forall k :: 0 <= k < |rest| ==> rest[k] == rows[k + 1];
    }
  }

  /** A pass whose fetches all answer and that issues no write runs to the end. */
  lemma FirstFailureIsNone(rows: seq<Project>, upstream: Upstream, updateFails: string -> bool)
    requires forall k :: 0 <= k < |rows| ==> !upstream(rows[k].repoFullname).Rejected?
    requires AttemptAll(rows, upstream) == []
    ensures FirstFailure(rows, upstream, updateFails) == |rows|
  {
    NoWritesIffNoAttempts(rows, upstream);
  }

  /** Idempotence: a second pass against the same upstream data over the rows the
      first pass published writes nothing and publishes the same rows. */
  lemma ReconcileIdempotent(rows: seq<Project>, upstream: Upstream, updateFails: string -> bool)
    ensures var once := SettleAll(rows, upstream);
      && SettleAll(once, upstream) == once
      && AttemptAll(once, upstream) == []
      && FirstFailure(once, upstream, updateFails) == |once|
  {
    var once := SettleAll(rows, upstream);
    SettledRowsAreInSync(rows, upstream);
    InSyncPassIsIdentity(once, upstream);
    assert forall k :: 0 <= k < |once| ==> upstream(once[k].repoFullname).Ok?;
    FirstFailureIsNone(once, upstream, updateFails);
  }

  /** The reconciliation scenario of a cached row whose star count is behind upstream:
      one write with the new star count, and the published row carries it. */
  lemma StarsBehindScenario()
    ensures var row := Project("1", "p1", Undefined, Defined("b"), Defined("a/b"), Undefined,
                               Null, Defined("https://github.com/a/b"), Undefined, Defined(""),
                               Defined("Go"), Defined(5), Defined(0), Defined(0),
                               Null, Defined(""), Defined(""));
            var repo := GithubRepo(7, "b", "a/b", "https://github.com/a/b", None, 9, 0, 0, Some("Go"), None);
            var upstream := (name: Field<string>) => if name == Defined("a/b") then Ok(repo) else NotOk;
      && AttemptAll([row], upstream) == [Update("1", Mirror(Null, Defined(9), Defined(0), Defined(0), Defined("Go")))]
      && SettleAll([row], upstream) == [row.(starsCount := Defined(9))]
  {
  }

  // ---------------------------------------------------------------------------
  // The page
  // ---------------------------------------------------------------------------

  /** The answer of `supabase.auth.getUser()`. */
  datatype Auth = AuthError | SignedOut | SignedIn(user: User)

  /** The answer of `supabase.auth.getSession()`: an error, or the session's provider
      token, which may be missing. */
  datatype Session = SessionError | SessionData(providerToken: Option<string>)

  const LoadError := "An error occurred while fetching projects."
  const TokenMissing := "GitHub token is missing."
  const SyncError := "Failed to fetch GitHub projects."

  /** The list the page publishes once both queries have answered: the GitHub rows as
      the store returned them, then the custom rows. */
  function ListedProjects(github: Option<seq<Project>>, custom: Option<seq<Project>>): (r: seq<Project>)
    ensures |r| == (if github.Some? then |github.value| else 0) + (if custom.Some? then |custom.value| else 0)
    ensures github.Some? ==> r[..|github.value|] == github.value
    ensures custom.Some? ==> r[|r| - |custom.value|..] == custom.value
  {
    if github.Some? && custom.Some? then github.value + custom.value
    else if github.Some? then github.value
    else if custom.Some? then custom.value
    else []
  }

  class MyProjectsPage {
    var projects: seq<Project>
    var loading: bool
    var error: Option<string>
    /** Where the router was sent, if anywhere. */
    var redirectedTo: Option<string>
    var loggedOut: bool
    /** The writes sent to `github_projects_data`. */
    var writes: seq<Update>

    constructor ()
      ensures projects == [] && loading && error == None
      ensures redirectedTo == None && !loggedOut && writes == []
    {
      projects := [];
      loading := true;
      error := None;
      redirectedTo := None;
      loggedOut := false;
      writes := [];
    }

    /** `fetchGitHubProjects`: the pass, then `setProjects(updatedProjects)`, or the
        error if a fetch or a write was rejected. */
    method FetchGitHubProjects(rows: seq<Project>, upstream: Upstream, updateFails: string -> bool)
      modifies this
      ensures FirstFailure(rows, upstream, updateFails) == |rows| ==>
        && writes == old(writes) + AttemptAll(rows, upstream)
        && projects == SettleAll(rows, upstream) && error == old(error)
      ensures FirstFailure(rows, upstream, updateFails) < |rows| ==>
        && writes == old(writes) + AttemptAll(rows[..FirstFailure(rows, upstream, updateFails) + 1], upstream)
        && projects == old(projects) && error == Some(SyncError)
      ensures loading == old(loading) && redirectedTo == old(redirectedTo) && loggedOut == old(loggedOut)
    {
      var updated, issued := ReconcileRows(rows, upstream, updateFails);
      writes := writes + issued;
      if updated.Some? {
        projects := updated.value;
      } else {
        error := Some(SyncError);
      }
    }

    /** `fetchProjects`, run once when the page mounts. */
    method FetchProjects(auth: Auth, githubQuery: Query<seq<Project>>, customQuery: Query<seq<Project>>,
                         session: Session, upstream: Upstream, updateFails: string -> bool)
      modifies this
      ensures !loading
      // getUser failed, or a detail query failed, or the session lookup failed
      ensures (|| auth.AuthError?
               || (auth.SignedIn? && (githubQuery.QueryError? || customQuery.QueryError?))
               || (auth.SignedIn? && githubQuery.QueryData? && customQuery.QueryData?
                   && githubQuery.data.Some? && |githubQuery.data.value| > 0 && session.SessionError?))
        ==> error == Some(LoadError) && projects == old(projects) && writes == old(writes)
            && redirectedTo == old(redirectedTo) && loggedOut == old(loggedOut)
      // nobody is signed in
      ensures auth.SignedOut? ==>
        && redirectedTo == Some("/") && loggedOut == old(loggedOut)
        && error == old(error) && projects == old(projects) && writes == old(writes)
      // there are GitHub rows but no provider token: `logout` signs out and itself
      // navigates to the home page
      ensures (auth.SignedIn? && githubQuery.QueryData? && customQuery.QueryData?
               && githubQuery.data.Some? && |githubQuery.data.value| > 0
               && session.SessionData? && !TruthyOption(session.providerToken))
        ==> loggedOut && redirectedTo == Some("/")
            && error == Some(TokenMissing) && projects == old(projects) && writes == old(writes)
      // the list is published
      ensures (auth.SignedIn? && githubQuery.QueryData? && customQuery.QueryData?
               && (githubQuery.data.Some? && |githubQuery.data.value| > 0
                   ==> session.SessionData? && TruthyOption(session.providerToken)))
        ==> var github := githubQuery.data;
            && projects == ListedProjects(github, customQuery.data)
            && redirectedTo == old(redirectedTo) && loggedOut == old(loggedOut)
            && if github.Some? && |github.value| > 0 then
                 var k := FirstFailure(github.value, upstream, updateFails);
                 && (k == |github.value| ==> writes == old(writes) + AttemptAll(github.value, upstream) && error == old(error))
                 && (k < |github.value| ==> writes == old(writes) + AttemptAll(github.value[..k + 1], upstream) && error == Some(SyncError))
               else
                 writes == old(writes) && error == old(error)
    {
      loading := true;
      match auth {
        case AuthError =>
          error := Some(LoadError);
        case SignedOut =>
          redirectedTo := Some("/");
        case SignedIn(user) =>
          if githubQuery.QueryError? || customQuery.QueryError? {
            error := Some(LoadError);
            loading := false;
            return;
          }
          var githubProjects := githubQuery.data;
          var customProjects := customQuery.data;
          if githubProjects.Some? && |githubProjects.value| > 0 {
            if session.SessionError? {
              error := Some(LoadError);
              loading := false;
              return;
            }
            if !TruthyOption(session.providerToken) {
              loggedOut := true;
              redirectedTo := Some("/");
              error := Some(TokenMissing);
              loading := false;
              return;
            }
            FetchGitHubProjects(githubProjects.value, upstream, updateFails);
          } else {
            projects := if customProjects.Some? then customProjects.value else [];
          }
          if githubProjects.Some? && customProjects.Some? {
            projects := githubProjects.value + customProjects.value;
          } else if githubProjects.Some? {
            projects := githubProjects.value;
          } else if customProjects.Some? {
            projects := customProjects.value;
          }
      }
      loading := false;
    }
  }
}
