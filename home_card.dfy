/** The catalogue card of one project: badge, title, description, counters and link. */
module HomeCard {
  import opened Js
  import opened Types
  import opened Languages
  import opened LanguageBadge

  const NoShortDescription := "No short description provided"
  const DetailPath := "/project/?id="

  /** `name || repo_fullname`. */
  function Title(p: Project): (t: Field<string>)
    ensures t == p.name || t == p.repoFullname
    ensures Truthy(t) <==> Truthy(p.name) || Truthy(p.repoFullname)
  {
    Or(p.name, p.repoFullname)
  }

  /** `repo_desc || short_desc || "No short description provided"`. */
  function Description(p: Project): (d: string)
    ensures d != ""
    ensures d == NoShortDescription || Defined(d) == p.repoDesc || Defined(d) == p.shortDesc
  {
    OrElse(Or(p.repoDesc, p.shortDesc), NoShortDescription)
  }

  /** A counter badge is rendered when the value is not `undefined`; a `null` count
      still renders a badge, with no number. */
  function CountBadge(count: Field<int>): (badge: Option<Field<int>>)
    ensures badge.Some? <==> !count.Undefined?
    ensures badge.Some? ==> badge.value == count
  {
    if count.Undefined? then None else Some(count)
  }

  /** `/project/?id=<project_id>`. */
  function Href(p: Project): string
  {
    DetailPath + p.projectId
  }

  /** Two cards link to the same page exactly when they show the same project. */
  lemma HrefIdentifiesProject(p: Project, q: Project)
    ensures Href(p) == Href(q) <==> p.projectId == q.projectId
  {
    if Href(p) == Href(q) {
      assert p.projectId == Href(p)[|DetailPath|..];
      assert q.projectId == Href(q)[|DetailPath|..];
    }
  }

  datatype CardView = CardView(
    href: string,
    showsGithubIcon: bool,
    title: Field<string>,
    color: string,
    language: Field<string>,
    description: string,
    stars: Option<Field<int>>,
    forks: Option<Field<int>>)

  /** The rendered card. */
  function Card(p: Project): CardView
  {
    CardView(Href(p), !p.repoFullname.Undefined?, Title(p), LanguageColor(p.language), p.language,
             Description(p), CountBadge(p.starsCount), CountBadge(p.forksCount))
  }

  /** A card of a GitHub row shows the GitHub icon, the repository's full name as title,
      and both counters; a card of a custom row shows neither icon nor counters and is
      titled by its name when that is non-empty. */
  lemma CardByTable(p: Project)
    ensures IsGithubRow(p) ==>
      && Card(p).showsGithubIcon && Card(p).title == p.repoFullname
      && Card(p).stars.Some? && Card(p).forks.Some?
    ensures IsCustomRow(p) ==>
      && !Card(p).showsGithubIcon && Card(p).stars.None? && Card(p).forks.None?
      && (Truthy(p.name) ==> Card(p).title == p.name)
      && Card(p).description == OrElse(p.shortDesc, NoShortDescription)
  {
  }

  /** The badge colour is always a `#rrggbb` colour, whose byte split is its three
      digit pairs. */
  lemma CardColorIsHex(p: Project)
    ensures IsHexColor(Card(p).color)
    ensures SplitHex(Card(p).color) == Channels(Card(p).color)
  {
    BadgeColorSplits(p.language);
  }
}
