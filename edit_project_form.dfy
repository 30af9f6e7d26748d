/** The edit form: the owner's project, loaded from its detail table, edited and written
    back with a per-table update. */
module EditProjectForm {
  import opened Js
  import opened Types
  import HomeCard

  const Dashboard := "/dashboard"
  const EditedMessage := "Project informations successfully edited!"

  /** The form's prop: the detail row with the `projects` row's type tag. */
  datatype ProjectData = ProjectData(row: Project, kind: string)

  /** The `||` fallbacks the eight inputs start from. */
  function InitialValues(p: Project): FormValues
  {
    FormValues(
      OrElse(Or(p.name, p.repoFullname), ""),
      OrElse(Or(p.shortDesc, p.repoDesc), ""),
      OrElse(p.fullDesc, ""),
      OrElse(p.language, ""),
      OrElse(Or(p.codeUrl, p.repoUrl), ""),
      OrElse(p.websiteLink, ""),
      OrElse(p.instagramLink, ""),
      OrElse(p.documentationLink, ""))
  }

  /** Some column an input falls back to is truthy. */
  predicate SourceTruthy(p: Project, f: FormField)
  {
    match f
    case Name => Truthy(p.name) || Truthy(p.repoFullname)
    case ShortDesc => Truthy(p.shortDesc) || Truthy(p.repoDesc)
    case FullDesc => Truthy(p.fullDesc)
    case Language => Truthy(p.language)
    case CodeLink => Truthy(p.codeUrl) || Truthy(p.repoUrl)
    case Website => Truthy(p.websiteLink)
    case Instagram => Truthy(p.instagramLink)
    case Documentation => Truthy(p.documentationLink)
  }

  /** For a row of either table, each input starts from that table's column, and a
      `null` column starts empty. */
  lemma InitialValuesBySource(p: Project)
    ensures IsGithubRow(p) ==>
      && InitialValues(p).name == OrElse(p.repoFullname, "")
      && InitialValues(p).shortDesc == OrElse(p.repoDesc, "")
      && InitialValues(p).codeLink == OrElse(p.repoUrl, "")
    ensures IsCustomRow(p) ==>
      && InitialValues(p).name == OrElse(p.name, "")
      && InitialValues(p).shortDesc == OrElse(p.shortDesc, "")
      && InitialValues(p).codeLink == OrElse(p.codeUrl, "")
    ensures forall f :: ValueOf(InitialValues(p), f) == "" <==> !SourceTruthy(p, f)
  {
  }

  /** The name input starts from the title the project's cards show. The short
      description input prefers `short_desc` where the cards prefer `repo_desc`, so the
      two agree when exactly one of them is set; with both set they show different
      texts, and with neither the input is empty while the cards show their fallback. */
  lemma InitialValuesMatchCard(p: Project)
    ensures InitialValues(p).name == OrElse(HomeCard.Title(p), "")
    ensures Truthy(p.shortDesc) != Truthy(p.repoDesc) ==>
        InitialValues(p).shortDesc == HomeCard.Description(p)
    ensures Truthy(p.shortDesc) && Truthy(p.repoDesc) ==>
        InitialValues(p).shortDesc == p.shortDesc.value && HomeCard.Description(p) == p.repoDesc.value
    ensures !Truthy(p.shortDesc) && !Truthy(p.repoDesc) ==>
        InitialValues(p).shortDesc == "" && HomeCard.Description(p) == HomeCard.NoShortDescription
  {
  }

  /** The inputs locked for a GitHub project: everything the repository owns. */
  predicate ReadOnly(kind: string, field: FormField)
  {
    kind == "github" && (field.Name? || field.CodeLink? || field.ShortDesc? || field.Language? || field.Website?)
  }

  /** The update an edit sends, keyed by `project_id`. */
  datatype EditUpdate =
    | GithubEdit(projectId: string, fullDesc: string, websiteLink: string, instagramLink: string, documentationLink: string)
    | CustomEdit(projectId: string, values: FormValues)

  class EditProjectForm {
    var projectData: ProjectData
    var projectName: string
    var projectShortDesc: string
    var projectFullDesc: string
    var selectedLanguage: string
    var codeLink: string
    var websiteLink: string
    var instagramLink: string
    var documentationLink: string

    function Values(): FormValues
      reads this
    {
      FormValues(projectName, projectShortDesc, projectFullDesc, selectedLanguage, codeLink, websiteLink,
                 instagramLink, documentationLink)
    }

    /** The locked inputs still hold their initial values. */
    predicate Valid()
      reads this
    {
      forall f :: ReadOnly(projectData.kind, f) ==> ValueOf(Values(), f) == ValueOf(InitialValues(projectData.row), f)
    }

    method SetValues(v: FormValues)
      modifies this
      ensures Values() == v && projectData == old(projectData)
    {
      projectName := v.name;
      projectShortDesc := v.shortDesc;
      projectFullDesc := v.fullDesc;
      selectedLanguage := v.language;
      codeLink := v.codeLink;
      websiteLink := v.websiteLink;
      instagramLink := v.instagramLink;
      documentationLink := v.documentationLink;
    }

    constructor (projectData: ProjectData)
      ensures this.projectData == projectData && Values() == InitialValues(projectData.row)
      ensures Valid()
    {
      this.projectData := projectData;
      var v := InitialValues(projectData.row);
      projectName, projectShortDesc, projectFullDesc, selectedLanguage := v.name, v.shortDesc, v.fullDesc, v.language;
      codeLink, websiteLink, instagramLink, documentationLink := v.codeLink, v.websiteLink, v.instagramLink, v.documentationLink;
    }

    /** The effect on `[projectData]`: every input is reset from the new prop. */
    method OnProjectDataChange(projectData: ProjectData)
      modifies this
      ensures this.projectData == projectData && Values() == InitialValues(projectData.row)
      ensures Valid()
    {
      this.projectData := projectData;
      SetValues(InitialValues(projectData.row));
    }

    /** The user types into one input; a locked input keeps its value. */
    method Input(field: FormField, value: string)
      requires Valid()
      modifies this
      ensures Values() == if ReadOnly(projectData.kind, field) then old(Values()) else WithInput(old(Values()), field, value)
      ensures projectData == old(projectData)
      ensures Valid()
    {
      if !ReadOnly(projectData.kind, field) {
        var before := Values();
        SetValues(WithInput(before, field, value));
        forall f | ReadOnly(projectData.kind, f)
          ensures ValueOf(Values(), f) == ValueOf(InitialValues(projectData.row), f)
        {
          assert f != field;
          assert ValueOf(WithInput(before, field, value), f) == ValueOf(before, f);
        }
      }
    }

    /** `handleSubmit`, given the signed-in user and the answer of the update. */
    method HandleSubmit(user: Option<User>, result: WriteResult) returns (update: Option<EditUpdate>, outcome: Outcome)
      requires Valid()
      ensures user.None? ==> update.None? && outcome == Outcome(None, None)
      ensures user.Some? && projectData.kind == "github" ==>
        && update == Some(GithubEdit(projectData.row.projectId, projectFullDesc, websiteLink, instagramLink, documentationLink))
        && update.value.websiteLink == OrElse(projectData.row.websiteLink, "")
        && outcome == if result.WriteError? then Outcome(None, None)
                      else Outcome(Some(Dashboard), Some(Notice(Success, EditedMessage)))
      ensures user.Some? && projectData.kind != "github" ==>
        && update == Some(CustomEdit(projectData.row.projectId, Values()))
        && outcome == Outcome(Some(Dashboard), Some(Notice(Success, EditedMessage)))
    {
      if user.None? {
        update := None;
        outcome := Outcome(None, None);
        return;
      }
      if projectData.kind == "github" {
        assert ValueOf(Values(), Website) == ValueOf(InitialValues(projectData.row), Website);
        update := Some(GithubEdit(projectData.row.projectId, projectFullDesc, websiteLink, instagramLink, documentationLink));
        if result.WriteError? {
          outcome := Outcome(None, None);
          return;
        }
      } else {
        update := Some(CustomEdit(projectData.row.projectId, Values()));
      }
      outcome := Outcome(Some(Dashboard), Some(Notice(Success, EditedMessage)));
    }
  }

  /** A rejected update of a custom project is reported as a successful edit. */
  method FailedCustomEditScenario(p: Project) returns (outcome: Outcome)
    ensures outcome.notice == Some(Notice(Success, EditedMessage)) && outcome.navigatedTo == Some(Dashboard)
  {
    var form := new EditProjectForm(ProjectData(p, "custom"));
    var update;
    update, outcome := form.HandleSubmit(Some(User("u1", "alice")), WriteError("permission denied"));
  }
}
