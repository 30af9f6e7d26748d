/** The creation form: prefilled from a chosen repository, or blank for a hand-made
    project, and submitted as a `projects` row plus one detail row. */
module AddProjectForm {
  import opened Js
  import opened Types

  const Dashboard := "/dashboard"
  const AddedMessage := "Project added successfully!"
  const ErrorPrefix := "Error adding project: "

  /** All eight inputs empty. */
  const Blank := FormValues("", "", "", "", "", "", "", "")

  /** The prefill from a repository; the full description keeps whatever it held. */
  function Prefill(repo: GithubRepo, fullDesc: string): (v: FormValues)
    ensures v.name == repo.fullName && v.codeLink == repo.htmlUrl
    ensures v.shortDesc == OptionOrElse(repo.description, "") && v.language == OptionOrElse(repo.language, "")
    ensures v.websiteLink == OptionOrElse(repo.homepage, "")
    ensures v.fullDesc == fullDesc && v.instagramLink == "" && v.documentationLink == ""
  {
    FormValues(repo.fullName, OptionOrElse(repo.description, ""), fullDesc, OptionOrElse(repo.language, ""),
               repo.htmlUrl, OptionOrElse(repo.homepage, ""), "", "")
  }

  /** The inputs the user cannot change while `repo` is the form's repository: name and
      code link (`readOnly={!!repo}`), language (`disabled={!!repo}`), short
      description and website only when the repository supplies a truthy value. */
  predicate ReadOnly(repo: Option<GithubRepo>, field: FormField)
  {
    match field
    case Name => repo.Some?
    case CodeLink => repo.Some?
    case Language => repo.Some?
    case ShortDesc => repo.Some? && TruthyOption(repo.value.description)
    case Website => repo.Some? && TruthyOption(repo.value.homepage)
    case _ => false
  }

  /** The locked inputs hold the prefill of the repository. */
  predicate LockedAsPrefilled(repo: Option<GithubRepo>, v: FormValues)
  {
    repo.Some? ==> forall f :: ReadOnly(repo, f) ==> ValueOf(v, f) == ValueOf(Prefill(repo.value, v.fullDesc), f)
  }

  /** Typing into an input: refused when the input is locked. */
  function Typed(repo: Option<GithubRepo>, v: FormValues, field: FormField, value: string): (r: FormValues)
    ensures ReadOnly(repo, field) ==> r == v
    ensures !ReadOnly(repo, field) ==> ValueOf(r, field) == value
    ensures forall f :: f != field ==> ValueOf(r, f) == ValueOf(v, f)
  {
    if ReadOnly(repo, field) then v else WithInput(v, field, value)
  }

  /** Prefilled values satisfy the locks, and typing keeps them satisfied. */
  lemma LocksArePreserved(repo: Option<GithubRepo>, v: FormValues, field: FormField, value: string)
    ensures repo.Some? ==> LockedAsPrefilled(repo, Prefill(repo.value, v.fullDesc))
    ensures LockedAsPrefilled(repo, v) ==> LockedAsPrefilled(repo, Typed(repo, v, field, value))
  {
    if repo.Some? && LockedAsPrefilled(repo, v) {
      var r := Typed(repo, v, field, value);
      forall f | ReadOnly(repo, f)
        ensures ValueOf(r, f) == ValueOf(Prefill(repo.value, r.fullDesc), f)
      {
        assert f != FullDesc;
        assert ValueOf(v, f) == ValueOf(Prefill(repo.value, v.fullDesc), f);
        assert ValueOf(Prefill(repo.value, v.fullDesc), f) == ValueOf(Prefill(repo.value, r.fullDesc), f);
      }
    }
  }

  /** The `projects` row. */
  datatype ProjectRow = ProjectRow(userId: string, kind: string, userBy: string)

  /** A `github_projects_data` row. */
  datatype GithubDetailRow = GithubDetailRow(
    projectId: string, repoOwner: string, repoName: string, repoFullname: string, repoUrl: string,
    repoDesc: Option<string>, fullDesc: string, starsCount: int, forksCount: int, openIssueCount: int,
    language: Option<string>, websiteLink: Option<string>, instagramLink: string, documentationLink: string)

  /** A `custom_projects_data` row. */
  datatype CustomDetailRow = CustomDetailRow(
    projectId: string, name: string, fullDesc: string, shortDesc: string, codeUrl: string,
    language: string, websiteLink: string, instagramLink: string, documentationLink: string)

  /** The detail row an insert sends, to one table or the other. */
  datatype DetailRow = GithubDetail(github: GithubDetailRow) | CustomDetail(custom: CustomDetailRow)

  /** The answer of the `projects` insert: an error, or the new row's id (which may be
      missing). */
  datatype InsertResult = InsertError(message: string) | Inserted(id: Option<string>)

  /** The GitHub detail row: everything but three columns comes from the repository. */
  function GithubDetailFor(repo: GithubRepo, user: User, projectId: string, v: FormValues): DetailRow
  {
    GithubDetail(GithubDetailRow(projectId, user.userName, repo.name, repo.fullName, repo.htmlUrl, repo.description, v.fullDesc,
                 repo.stargazersCount, repo.forksCount, repo.openIssuesCount, repo.language, repo.homepage,
                 v.instagramLink, v.documentationLink))
  }

  /** The custom detail row: all eight columns come from the inputs. */
  function CustomDetailFor(projectId: string, v: FormValues): DetailRow
  {
    CustomDetail(CustomDetailRow(projectId, v.name, v.fullDesc, v.shortDesc, v.codeLink, v.language,
                                 v.websiteLink, v.instagramLink, v.documentationLink))
  }

  /** The GitHub detail row depends on the form only through the full description and
      the two extra links; the custom detail row determines every input. */
  lemma DetailSources(repo: GithubRepo, user: User, projectId: string, v: FormValues, w: FormValues)
    ensures GithubDetailFor(repo, user, projectId, v) == GithubDetailFor(repo, user, projectId, w)
        <==> v.fullDesc == w.fullDesc && v.instagramLink == w.instagramLink && v.documentationLink == w.documentationLink
    ensures CustomDetailFor(projectId, v) == CustomDetailFor(projectId, w) <==> v == w
  {
  }

  class AddProjectForm {
    /** The props. */
    var repo: Option<GithubRepo>
    var isManual: bool
    /** The eight input states. */
    var projectName: string
    var projectShortDesc: string
    var projectFullDesc: string
    var selectedLanguage: string
    var codeLink: string
    var websiteLink: string
    var instagramLink: string
    var documentationLink: string

    function Values(): FormValues
      reads this
    {
      FormValues(projectName, projectShortDesc, projectFullDesc, selectedLanguage, codeLink, websiteLink,
                 instagramLink, documentationLink)
    }

    predicate Valid()
      reads this
    {
      LockedAsPrefilled(repo, Values())
    }

    method SetValues(v: FormValues)
      modifies this
      ensures Values() == v && repo == old(repo) && isManual == old(isManual)
    {
      projectName := v.name;
      projectShortDesc := v.shortDesc;
      projectFullDesc := v.fullDesc;
      selectedLanguage := v.language;
      codeLink := v.codeLink;
      websiteLink := v.websiteLink;
      instagramLink := v.instagramLink;
      documentationLink := v.documentationLink;
    }

    /** The effect on `[repo]`: prefill from the repository, or clear all eight inputs. */
    method ApplyRepo()
      modifies this
      ensures Values() == if repo.Some? then Prefill(repo.value, old(projectFullDesc)) else Blank
      ensures Valid()
      ensures repo == old(repo) && isManual == old(isManual)
    {
      if repo.Some? {
        var r := repo.value;
        projectName := r.fullName;
        projectShortDesc := OptionOrElse(r.description, "");
        codeLink := r.htmlUrl;
        selectedLanguage := OptionOrElse(r.language, "");
        websiteLink := OptionOrElse(r.homepage, "");
        instagramLink := "";
        documentationLink := "";
        LocksArePreserved(repo, Values(), Name, "");
      } else {
        SetValues(Blank);
      }
    }

    /** Mounting: empty inputs, then the effect. */
    constructor (repo: Option<GithubRepo>, isManual: bool)
      ensures this.repo == repo && this.isManual == isManual
      ensures Values() == if repo.Some? then Prefill(repo.value, "") else Blank
      ensures Valid()
    {
      this.repo := repo;
      this.isManual := isManual;
      projectName, projectShortDesc, projectFullDesc, selectedLanguage := "", "", "", "";
      codeLink, websiteLink, instagramLink, documentationLink := "", "", "", "";
      new;
      ApplyRepo();
    }

    /** The parent passes new props; the effect runs again only when `repo` changed
        (its dependency list is `[repo]`), so a new `isManual` alone keeps the inputs. */
    method OnPropsChange(repo: Option<GithubRepo>, isManual: bool)
      requires Valid()
      modifies this
      ensures this.repo == repo && this.isManual == isManual
      ensures repo != old(this.repo) ==>
        Values() == if repo.Some? then Prefill(repo.value, old(projectFullDesc)) else Blank
      ensures repo == old(this.repo) ==> Values() == old(Values())
      ensures Valid()
    {
      var changed := repo != this.repo;
      this.repo := repo;
      this.isManual := isManual;
      if changed {
        ApplyRepo();
      }
    }

    /** The user types into (or selects in) one input. */
    method Input(field: FormField, value: string)
      requires Valid()
      modifies this
      ensures Values() == Typed(repo, old(Values()), field, value)
      ensures Valid()
      ensures repo == old(repo) && isManual == old(isManual)
    {
      LocksArePreserved(repo, Values(), field, value);
      SetValues(Typed(repo, Values(), field, value));
    }

    /** `handleSubmit`, given the answers of the store: the `projects` row and the detail
        row it inserts, in that order, and the outcome. */
    method HandleSubmit(user: Option<User>, projectsInsert: InsertResult, detailResult: WriteResult)
      returns (projectRow: Option<ProjectRow>, detail: Option<DetailRow>, outcome: Outcome)
      ensures user.None? ==> projectRow.None? && detail.None? && outcome == Outcome(None, None)
      ensures user.Some? ==> projectRow == Some(ProjectRow(user.value.id, if repo.Some? then "github" else "custom", user.value.userName))
      ensures detail.Some? <==>
        user.Some? && projectsInsert.Inserted? && TruthyOption(projectsInsert.id) && (repo.Some? || isManual)
      ensures detail.Some? && repo.Some? ==> detail.value == GithubDetailFor(repo.value, user.value, projectsInsert.id.value, Values())
      ensures detail.Some? && repo.None? ==> detail.value == CustomDetailFor(projectsInsert.id.value, Values())
      ensures user.Some? ==>
        if projectsInsert.InsertError? then
          outcome == Outcome(None, Some(Notice(Failure, ErrorPrefix + projectsInsert.message)))
        else if detail.Some? && detailResult.WriteError? then
          outcome == Outcome(None, Some(Notice(Failure, ErrorPrefix + detailResult.message)))
        else
          outcome == Outcome(Some(Dashboard), Some(Notice(Success, AddedMessage)))
    {
      detail := None;
      if user.None? {
        projectRow := None;
        outcome := Outcome(None, None);
        return;
      }
      var u := user.value;
      projectRow := Some(ProjectRow(u.id, if repo.Some? then "github" else "custom", u.userName));
      if projectsInsert.InsertError? {
        outcome := Outcome(None, Some(Notice(Failure, ErrorPrefix + projectsInsert.message)));
        return;
      }
      var projectId := projectsInsert.id;
      if repo.Some? && TruthyOption(projectId) {
        detail := Some(GithubDetailFor(repo.value, u, projectId.value, Values()));
      } else if isManual && TruthyOption(projectId) {
        detail := Some(CustomDetailFor(projectId.value, Values()));
      }
      if detail.Some? && detailResult.WriteError? {
        outcome := Outcome(None, Some(Notice(Failure, ErrorPrefix + detailResult.message)));
        return;
      }
      outcome := Outcome(Some(Dashboard), Some(Notice(Success, AddedMessage)));
    }
  }

  /** Submitting a form with neither a repository nor manual mode still inserts a
      `projects` row tagged "custom", inserts no detail row, and reports success. This is
      the component on its own: the import picker never mounts it in that state. */
  method SubmitWithoutSourceScenario() returns (detail: Option<DetailRow>, outcome: Outcome)
    ensures detail.None? && outcome == Outcome(Some(Dashboard), Some(Notice(Success, AddedMessage)))
  {
    var form := new AddProjectForm(None, false);
    var row;
    row, detail, outcome := form.HandleSubmit(Some(User("u1", "alice")), Inserted(Some("42")), WriteOk);
    assert row == Some(ProjectRow("u1", "custom", "alice"));
  }
}
