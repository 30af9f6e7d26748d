/** The records the pages exchange with the store and with the GitHub API. */
module Types {
  import opened Js

  /** A row of `github_projects_data` or of `custom_projects_data` as the pages receive
      it: one record shape for both tables, where the columns the row's table does not
      have are `Undefined`, and the columns it has may be `Null`. */
  datatype Project = Project(
    id: string,
    projectId: string,
    name: Field<string>,
    repoName: Field<string>,
    repoFullname: Field<string>,
    shortDesc: Field<string>,
    repoDesc: Field<string>,
    repoUrl: Field<string>,
    codeUrl: Field<string>,
    fullDesc: Field<string>,
    language: Field<string>,
    starsCount: Field<int>,
    forksCount: Field<int>,
    openIssueCount: Field<int>,
    websiteLink: Field<string>,
    instagramLink: Field<string>,
    documentationLink: Field<string>)

  /** A row read from `github_projects_data`: the custom-only columns are absent. */
  predicate IsGithubRow(p: Project)
  {
    p.name.Undefined? && p.shortDesc.Undefined? && p.codeUrl.Undefined?
    && !p.repoFullname.Undefined? && !p.repoDesc.Undefined?
    && !p.starsCount.Undefined? && !p.forksCount.Undefined? && !p.openIssueCount.Undefined?
  }

  /** A row read from `custom_projects_data`: the repository columns are absent. */
  predicate IsCustomRow(p: Project)
  {
    p.repoName.Undefined? && p.repoFullname.Undefined? && p.repoDesc.Undefined? && p.repoUrl.Undefined?
    && p.starsCount.Undefined? && p.forksCount.Undefined? && p.openIssueCount.Undefined?
    && !p.name.Undefined? && !p.shortDesc.Undefined? && !p.codeUrl.Undefined?
  }

  /** A repository as the GitHub REST API returns it; `description`, `language` and
      `homepage` may be `null`. */
  datatype GithubRepo = GithubRepo(
    id: int,
    name: string,
    fullName: string,
    htmlUrl: string,
    description: Option<string>,
    stargazersCount: int,
    forksCount: int,
    openIssuesCount: int,
    language: Option<string>,
    homepage: Option<string>)

  /** The signed-in user: its id and the `user_name` of its metadata. */
  datatype User = User(id: string, userName: string)

  /** The answer of a store query: an error, or data that may be `null`. */
  datatype Query<T> = QueryError | QueryData(data: Option<T>)

  /** The answer of a store write. */
  datatype WriteResult = WriteOk | WriteError(message: string)

  datatype NoticeKind = Success | Failure

  /** The app-wide notification banner. */
  datatype Notice = Notice(kind: NoticeKind, message: string)

  /** What a submit handler leaves behind: where the router was sent, if anywhere, and
      the notification it raised, if any. */
  datatype Outcome = Outcome(navigatedTo: Option<string>, notice: Option<Notice>)

  /** The eight inputs of the create and edit forms. */
  datatype FormField = Name | ShortDesc | FullDesc | Language | CodeLink | Website | Instagram | Documentation

  /** The values of the eight inputs of a form. */
  datatype FormValues = FormValues(
    name: string,
    shortDesc: string,
    fullDesc: string,
    language: string,
    codeLink: string,
    websiteLink: string,
    instagramLink: string,
    documentationLink: string)

  /** The values after the user typed `value` into `field`. */
  function WithInput(v: FormValues, field: FormField, value: string): (r: FormValues)
  {
    match field
    case Name => v.(name := value)
    case ShortDesc => v.(shortDesc := value)
    case FullDesc => v.(fullDesc := value)
    case Language => v.(language := value)
    case CodeLink => v.(codeLink := value)
    case Website => v.(websiteLink := value)
    case Instagram => v.(instagramLink := value)
    case Documentation => v.(documentationLink := value)
  }

  /** The value of one input. */
  function ValueOf(v: FormValues, field: FormField): string
  {
    match field
    case Name => v.name
    case ShortDesc => v.shortDesc
    case FullDesc => v.fullDesc
    case Language => v.language
    case CodeLink => v.codeLink
    case Website => v.websiteLink
    case Instagram => v.instagramLink
    case Documentation => v.documentationLink
  }
}
