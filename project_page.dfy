/** The public detail page of one project, addressed by its `projects` id. */
module ProjectPage {
  import opened Js
  import opened Types
  import opened Languages
  import opened LanguageBadge
  import HomeCard

  const NoDescription := "No description available."
  const UnknownDate := "Unknown date"
  const UnknownType := "Unknown project type."
  const NotFound := "Project not found."
  const FetchError := "An error occurred while fetching the project details."

  /** `formatDate`: a missing or empty date is "Unknown date"; any other date is handed
      to the locale formatter, which is a parameter here. */
  function FormatDate(date: Field<string>, toLocale: string -> string): (r: string)
    ensures !Truthy(date) ==> r == UnknownDate
    ensures Truthy(date) ==> r == toLocale(date.value)
  {
    if !Truthy(date) then UnknownDate else toLocale(date.value)
  }

  /** The `projects` row: its author's user name, its creation time and its type tag. */
  datatype ProjectsRow = ProjectsRow(userBy: string, createdAt: Field<string>, kind: string)

  /** A counter line is shown when the count is neither `undefined` nor `null`. */
  function ShownCount(count: Field<int>): (shown: Option<int>)
    ensures shown.Some? <==> count.Defined?
    ensures shown.Some? ==> shown.value == count.value
  {
    if count.Defined? then Some(count.value) else None
  }

  /** A link button is shown when the link is truthy. */
  function ShownLink(link: Field<string>): (shown: Option<string>)
    ensures shown.Some? <==> Truthy(link)
    ensures shown.Some? ==> Defined(shown.value) == link && shown.value != ""
  {
    if Truthy(link) then Some(link.value) else None
  }

  /** A `null` count hides the counter here while the cards still show its badge. */
  lemma NullCountShownOnlyOnCards()
    ensures ShownCount(Null).None? && HomeCard.CountBadge(Null).Some?
    ensures ShownCount(Undefined).None? && HomeCard.CountBadge(Undefined).None?
    ensures forall n :: ShownCount(Defined(n)) == Some(n) && HomeCard.CountBadge(Defined(n)) == Some(Defined(n))
  {
  }

  datatype DetailView = DetailView(
    title: Field<string>,
    color: string,
    language: Field<string>,
    repoLink: Option<Field<string>>,
    description: string,
    fullDesc: Field<string>,
    stars: Option<int>,
    forks: Option<int>,
    issues: Option<int>,
    website: Option<string>,
    documentation: Option<string>,
    instagram: Option<string>,
    userBy: string,
    createDate: string)

  /** What the page shows. `Crashed` is the exception the colour lookup throws. */
  datatype Screen = Crashed | LoadingText | ErrorText(message: string) | NotFoundText | Detail(view: DetailView)

  /** The detail view of a project with a given badge colour. */
  function DetailWith(p: Project, color: string, userBy: string, createDate: string): DetailView
  {
    DetailView(
      HomeCard.Title(p), color, p.language,
      if Truthy(p.repoFullname) then Some(p.repoUrl) else None,
      OrElse(Or(p.repoDesc, p.shortDesc), NoDescription), p.fullDesc,
      ShownCount(p.starsCount), ShownCount(p.forksCount), ShownCount(p.openIssueCount),
      ShownLink(p.websiteLink), ShownLink(p.documentationLink), ShownLink(p.instagramLink),
      userBy, createDate)
  }

  /** The three early returns, then the detail view; none of them throws. */
  function ScreenWith(loading: bool, error: Option<string>, project: Option<Project>,
                      userBy: string, createDate: string, color: string): (s: Screen)
    ensures !s.Crashed?
  {
    if loading then LoadingText
    else if TruthyOption(error) then ErrorText(error.value)
    else if project.None? then NotFoundText
    else Detail(DetailWith(project.value, color, userBy, createDate))
  }

  /** The render as written: the colour lookup runs before the early returns, so it
      throws once a project with a missing language is loaded, whatever else holds. */
  function RenderAsWritten(loading: bool, error: Option<string>, project: Option<Project>,
                           userBy: string, createDate: string): (s: Screen)
    ensures s.Crashed? <==> project.Some? && !project.value.language.Defined?
  {
    var color := DetailColorAsWritten(if project.Some? then Some(project.value.language) else None);
    if color.None? then Crashed else ScreenWith(loading, error, project, userBy, createDate, color.value)
  }

  /** The badge colour with the guarded lookup: the default while there is no project. */
  function DetailColor(project: Option<Project>): (color: string)
    ensures IsHexColor(color)
    ensures project.None? ==> color == DefaultColor
  {
    if project.None? then DefaultColor else LanguageColor(project.value.language)
  }

  /** The render with the guarded lookup. */
  function Render(loading: bool, error: Option<string>, project: Option<Project>,
                  userBy: string, createDate: string): (s: Screen)
    ensures !s.Crashed?
  {
    ScreenWith(loading, error, project, userBy, createDate, DetailColor(project))
  }

  /** Where the written render does not throw, it shows the guarded render. */
  lemma RenderAsWrittenCrashes(loading: bool, error: Option<string>, project: Option<Project>,
                               userBy: string, createDate: string)
    ensures !(project.Some? && !project.value.language.Defined?) ==>
        RenderAsWritten(loading, error, project, userBy, createDate) == Render(loading, error, project, userBy, createDate)
  {
    var language := if project.Some? then Some(project.value.language) else None;
    if project.Some? && !project.value.language.Defined? {
      assert DetailColorAsWritten(language).None?;
    } else {
      assert DetailColorAsWritten(language) == Some(DetailColor(project));
    }
  }

  /** A counter line shows `count` exactly: present iff the count is a number. */
  predicate CountLine(shown: Option<int>, count: Field<int>)
  {
    && (shown.Some? <==> count.Defined?)
    && (shown.Some? ==> count == Defined(shown.value))
  }

  /** A link button carries `link` exactly: present iff the link is truthy. */
  predicate LinkButton(shown: Option<string>, link: Field<string>)
  {
    && (shown.Some? <==> Truthy(link))
    && (shown.Some? ==> link == Defined(shown.value))
  }

  /** Which screen shows: loading first, then a non-empty error, then "not found",
      then the detail view: the title, the badge colour and language, the repository
      link, the description chain, the full description, the three counters, the three
      link buttons and the author line. */
  lemma ScreenRules(loading: bool, error: Option<string>, project: Option<Project>,
                    userBy: string, createDate: string)
    ensures var s := Render(loading, error, project, userBy, createDate);
      && (s == LoadingText <==> loading)
      && (s.ErrorText? <==> !loading && TruthyOption(error))
      && (s.ErrorText? ==> s.message == error.value)
      && (s == NotFoundText <==> !loading && !TruthyOption(error) && project.None?)
      && (s.Detail? <==> !loading && !TruthyOption(error) && project.Some?)
      && (s.Detail? ==>
            var p := project.value;
            var v := s.view;
            && v.title == HomeCard.Title(p)
            && v.color == LanguageColor(p.language) && IsHexColor(v.color)
            && v.language == p.language
            && (v.repoLink.Some? <==> Truthy(p.repoFullname))
            && (v.repoLink.Some? ==> v.repoLink.value == p.repoUrl)
            && v.description == (if Truthy(p.repoDesc) then p.repoDesc.value
                                 else if Truthy(p.shortDesc) then p.shortDesc.value
                                 else NoDescription)
            && v.description != ""
            && v.fullDesc == p.fullDesc
            && CountLine(v.stars, p.starsCount)
            && CountLine(v.forks, p.forksCount)
            && CountLine(v.issues, p.openIssueCount)
            && LinkButton(v.website, p.websiteLink)
            && LinkButton(v.documentation, p.documentationLink)
            && LinkButton(v.instagram, p.instagramLink)
            && v.userBy == userBy && v.createDate == createDate)
  {
  }

  class ProjectPage {
    /** The `id` search parameter. */
    const projectId: Option<string>
    var userBy: string
    var createDate: string
    var project: Option<Project>
    var loading: bool
    var error: Option<string>

    constructor (projectId: Option<string>)
      ensures this.projectId == projectId
      ensures userBy == "" && createDate == "" && project == None && loading && error == None
    {
      this.projectId := projectId;
      userBy := "";
      createDate := "";
      project := None;
      loading := true;
      error := None;
    }

    function Shown(): Screen
      reads this
    {
      RenderAsWritten(loading, error, project, userBy, createDate)
    }

    /** The effect on `[projectId]`: `fetchProject` runs only when there is an id. The
        `projects` row is read first; its type tag chooses the detail table. */
    method Load(projectsQuery: Query<ProjectsRow>, githubDetail: Query<Project>, customDetail: Query<Project>,
                toLocale: string -> string)
      modifies this
      ensures !TruthyOption(projectId) ==>
        && loading == old(loading) && error == old(error) && project == old(project)
        && userBy == old(userBy) && createDate == old(createDate)
      ensures TruthyOption(projectId) ==> !loading
      ensures TruthyOption(projectId) && projectsQuery.QueryError? ==>
        error == Some(FetchError) && project == old(project) && userBy == old(userBy) && createDate == old(createDate)
      ensures TruthyOption(projectId) && projectsQuery == QueryData(None) ==>
        error == Some(NotFound) && project == old(project) && userBy == old(userBy) && createDate == old(createDate)
      ensures TruthyOption(projectId) && projectsQuery.QueryData? && projectsQuery.data.Some? ==>
        var row := projectsQuery.data.value;
        var detail := if row.kind == "github" then githubDetail else customDetail;
        && userBy == row.userBy && createDate == FormatDate(row.createdAt, toLocale)
        && if row.kind != "github" && row.kind != "custom" then
             error == Some(UnknownType) && project == old(project)
           else if detail.QueryError? then
             error == Some(FetchError) && project == old(project)
           else
             error == old(error) && project == detail.data
    {
      if !TruthyOption(projectId) {
        return;
      }
      loading := true;
      if projectsQuery.QueryError? {
        error := Some(FetchError);
      } else if projectsQuery.data.None? {
        error := Some(NotFound);
      } else {
        var row := projectsQuery.data.value;
        userBy := row.userBy;
        createDate := FormatDate(row.createdAt, toLocale);
        if row.kind == "github" {
          if githubDetail.QueryError? {
            error := Some(FetchError);
          } else {
            project := githubDetail.data;
          }
        } else if row.kind == "custom" {
          if customDetail.QueryError? {
            error := Some(FetchError);
          } else {
            project := customDetail.data;
          }
        } else {
          error := Some(UnknownType);
        }
      }
      loading := false;
    }
  }

  /** Without an `id` parameter nothing is fetched and the page keeps showing
      "Loading...". */
  method NoIdScenario(projectsQuery: Query<ProjectsRow>, githubDetail: Query<Project>, customDetail: Query<Project>,
                      toLocale: string -> string) returns (shown: Screen)
    ensures shown == LoadingText
  {
    var page := new ProjectPage(None);
    page.Load(projectsQuery, githubDetail, customDetail, toLocale);
    shown := page.Shown();
  }
}
