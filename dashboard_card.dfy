/** The owner's card of one project on the dashboard: badge, title, description,
    counters, an edit link and a confirmed delete. */
module DashboardCard {
  import opened Js
  import opened Types
  import opened Languages
  import opened LanguageBadge
  import HomeCard

  const EditPath := "/dashboard/edit-project?id="
  const DeleteFailed := "Failed to delete the project."
  const Deleted := "Project deleted successfully."

  /** `/dashboard/edit-project?id=<project_id>`. */
  function EditHref(p: Project): string
  {
    EditPath + p.projectId
  }

  /** Two edit links are equal exactly when they edit the same project, and never
      coincide with a catalogue link. */
  lemma EditHrefIdentifiesProject(p: Project, q: Project)
    ensures EditHref(p) == EditHref(q) <==> p.projectId == q.projectId
    ensures EditHref(p) != HomeCard.Href(q)
  {
    if EditHref(p) == EditHref(q) {
      assert p.projectId == EditHref(p)[|EditPath|..];
      assert q.projectId == EditHref(q)[|EditPath|..];
    }
    assert EditHref(p)[1] == 'd' && HomeCard.Href(q)[1] == 'p';
  }

  datatype CardView = CardView(
    title: Field<string>,
    color: string,
    language: Field<string>,
    description: string,
    stars: Option<Field<int>>,
    forks: Option<Field<int>>,
    editHref: string)

  /** The card with a badge colour. */
  function CardWith(p: Project, color: string): CardView
  {
    CardView(HomeCard.Title(p), color, p.language, HomeCard.Description(p),
             HomeCard.CountBadge(p.starsCount), HomeCard.CountBadge(p.forksCount), EditHref(p))
  }

  /** The card as the component renders it: `None` is the exception the unguarded
      `language.toLowerCase()` throws for a `null` or missing language. */
  function CardAsWritten(p: Project): (view: Option<CardView>)
    ensures view.None? <==> !p.language.Defined?
  {
    match DashboardColorAsWritten(p.language)
    case None => None
    case Some(color) => Some(CardWith(p, color))
  }

  /** The card with the guarded lookup: it always renders, with the default colour for
      a missing language. */
  function Card(p: Project): (view: CardView)
    ensures IsHexColor(view.color)
    ensures !p.language.Defined? ==> view.color == DefaultColor
  {
    CardWith(p, LanguageColor(p.language))
  }

  /** Where the component renders at all, it renders the guarded card; it fails exactly
      on the rows whose language is missing, and a GitHub row takes a `null` language
      from a repository GitHub reports no language for. */
  lemma CardAsWrittenFailsOnMissingLanguage(p: Project)
    ensures p.language.Defined? ==> CardAsWritten(p) == Some(Card(p))
    ensures p.language.Null? ==> CardAsWritten(p).None? && Card(p).color == DefaultColor
  {
  }

  /** Title, description and counters are those of the catalogue card. */
  lemma SameFacesAsHomeCard(p: Project)
    ensures var c := Card(p); var h := HomeCard.Card(p);
      c.title == h.title && c.color == h.color && c.description == h.description
      && c.stars == h.stars && c.forks == h.forks
  {
  }

  /** The delete: `projects` rows whose `id` equals the card's `project_id`. */
  datatype DeleteRequest = DeleteRequest(table: string, column: string, value: string)

  class DashboardCard {
    const projectId: string
    var isModalOpen: bool
    var notice: Option<Notice>
    var refreshes: nat
    /** The deletes sent to the store. */
    var deletes: seq<DeleteRequest>

    constructor (projectId: string)
      ensures this.projectId == projectId
      ensures !isModalOpen && notice == None && refreshes == 0 && deletes == []
    {
      this.projectId := projectId;
      isModalOpen := false;
      notice := None;
      refreshes := 0;
      deletes := [];
    }

    /** The Delete button opens the confirmation dialog. */
    method AskDelete()
      modifies this
      ensures isModalOpen
      ensures notice == old(notice) && refreshes == old(refreshes) && deletes == old(deletes)
    {
      isModalOpen := true;
    }

    /** `handleDelete`, run when the dialog is confirmed: one delete, the dialog closes,
        the notification reports the outcome, and the page refreshes either way. */
    method HandleDelete(result: WriteResult)
      modifies this
      ensures deletes == old(deletes) + [DeleteRequest("projects", "id", projectId)]
      ensures !isModalOpen
      ensures notice == Some(if result.WriteError? then Notice(Failure, DeleteFailed) else Notice(Success, Deleted))
      ensures refreshes == old(refreshes) + 1
    {
      deletes := deletes + [DeleteRequest("projects", "id", projectId)];
      isModalOpen := false;
      if result.WriteError? {
        notice := Some(Notice(Failure, DeleteFailed));
      } else {
        notice := Some(Notice(Success, Deleted));
      }
      refreshes := refreshes + 1;
    }
  }
}
