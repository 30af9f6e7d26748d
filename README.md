# Opensource Hub — a Dafny model of its page logic

Opensource Hub is a Next.js front end over a hosted database and the GitHub REST API.
Owners import their GitHub repositories or add projects by hand, and everyone browses the
catalogue. This project models the decisions that sit inside that plumbing and proves
properties of them:

- **Reconciliation** of cached GitHub rows against upstream repositories on the owner's
  dashboard, and the dashboard list assembly (`Dashboard`).
- The **public catalogue**: the list combined from both detail tables and its search and
  language filter (`Catalog`).
- The **import picker**: already-imported repositories excluded, and the choice between
  import and manual mode (`AddProjectPage`).
- The **create** and **edit** forms: prefill and initial values, read-only inputs, the
  insert and update payloads, and which outcomes navigate or notify (`AddProjectForm`,
  `EditProjectForm`).
- The **language registry** and the language badge: the case-insensitive colour lookup and
  the integer byte split of a `#rrggbb` colour (`Languages`, `LanguageBadge`).
- The **catalogue card**, the **dashboard card** (with its delete) and the **detail page**
  (`HomeCard`, `DashboardCard`, `ProjectPage`).

Every answer of the store or of the GitHub API is an input:
- a `Query`, an `InsertResult` or a `WriteResult`;
- a function from a repository name to a `Fetch`: `NotOk` (a response that is not ok),
  `Rejected` (the request or its JSON body throws) or `Ok(repo)`;
- a function from a row id to "this write is rejected".

Writes are outputs: a write log, an insert payload or an update payload. JavaScript values
are modelled in `Js`:
- a property is `Undefined`, `Null` or `Defined(v)`, so strict `!==` is datatype inequality;
- `||` is `Or`/`OrElse` over truthiness;
- `toLowerCase` is ASCII lower-casing;
- `includes` is a substring test, proved equal to "occurs at some position".

The model follows the code where it departs from the documented design:
- A repository fetch that is not ok drops the row from the reconciled list. It is not kept
  as it was.
- `homepage`/`website_link` is neither compared nor written by reconciliation.
- A rejected reconciliation write, or a rejected repository fetch, abandons the rest of the
  pass. Rows are not independent.
- The rows are fetched one after another, not concurrently.
- The dashboard publishes the rows as the store returned them (GitHub rows, then custom
  rows), which overwrites the reconciled list.
- The catalogue's language filter is case-sensitive.
- The GitHub edit payload includes the read-only `website_link`, with its initial value.
- Creation is not atomic: a rejected detail insert leaves the new `projects` row behind,
  with the failure reported (`AddProjectForm.HandleSubmit`: `projectRow` is present and
  the outcome is a failure).
- The create form can insert a `projects` row with no detail row and still report success
  when the new id is missing. With neither a repository nor manual mode it does the same,
  but that is a property of the form component alone: the import picker mounts the form
  only when `AddProjectPage.FormShown` holds, so the page never reaches that state.

## Model

| member | source | states |
|---|---|---|
| Dashboard.MergeTakesUpstream | app/dashboard/page.tsx:105-112 | the merged row carries the five upstream values and putting the old five back gives the original row, so every other column (`id`, `project_id`, `full_desc`, links) is kept |
| Dashboard.DiffersIffMirrorDiffers | app/dashboard/page.tsx:91 | the change test holds exactly when the row's five mirrored columns differ from the upstream values; `website_link` plays no part |
| Dashboard.MergeChangesIffDiffers | app/dashboard/page.tsx:91-114 | merging changes the row iff the change test holds, and a merged row passes the change test against the same repository |
| Dashboard.AttemptIffDiffers | app/dashboard/page.tsx:88-101 | a write is issued iff the fetch is ok and the test holds; it is keyed by the row's `id` and carries exactly the five upstream values; a fetch that is not ok or is rejected settles the row to nothing |
| Dashboard.FirstFailureFrom | app/dashboard/page.tsx:81-103 | the position at which a pass resumed at row `i` stops: between `i` and the end, and the row there (if any) has a rejected fetch or a rejected write |
| Dashboard.FirstFailureIsFirst | app/dashboard/page.tsx:81-103 | no row between `i` and that position has a rejected fetch or write, so the pass stops at the first one |
| Dashboard.RowSkipped | app/dashboard/page.tsx:81-89 | a row whose fetch is not ok or is rejected contributes no row and no write |
| Dashboard.RowChanged | app/dashboard/page.tsx:91-112 | a row that fails the change test contributes the merged row and one write of the five upstream values keyed by its `id` |
| Dashboard.RowUnchanged | app/dashboard/page.tsx:113-114 | a row that passes the change test contributes itself and no write |
| Dashboard.ReconcileRows | app/dashboard/page.tsx:80-118 | the loop publishes the declarative pass `SettleAll` with the writes `AttemptAll` iff no fetch and no write is rejected; otherwise nothing is published and its write log is the writes of the rows up to and including the first row whose fetch or write is rejected |
| Dashboard.SettledRow | app/dashboard/page.tsx:88-114 | a row contributes one row with its own id when its fetch is ok and nothing otherwise |
| Dashboard.SettleAllIsSubsequence | app/dashboard/page.tsx:81-118 | the ids of the published rows are an order-preserving subsequence of the input ids |
| Dashboard.SettleAllKeepsAll | app/dashboard/page.tsx:81-118 | when every fetch is ok, every row is published |
| Dashboard.SettledRowsAreInSync | app/dashboard/page.tsx:91-114 | every published row, fetched again from the same upstream data, settles to itself |
| Dashboard.InSyncRow | app/dashboard/page.tsx:91-114 | a row that settles to itself is appended as it is and issues no write |
| Dashboard.InSyncPassIsIdentity | app/dashboard/page.tsx:113-114 | rows that all settle to themselves are published unchanged and no write is issued for them |
| Dashboard.NoWritesIffNoAttempts | app/dashboard/page.tsx:91-101 | the pass writes nothing iff no row triggers a write |
| Dashboard.FirstFailureIsNone | app/dashboard/page.tsx:81-103 | a pass whose fetches all answer and that issues no write runs to the end |
| Dashboard.ReconcileIdempotent | app/dashboard/page.tsx:91-112 | a second pass over the published rows with the same upstream data writes nothing, cannot fail and publishes the same rows |
| Dashboard.StarsBehindScenario | app/dashboard/page.tsx:91-112 | a row with 5 stars against a repository with 9 yields one write of the five values with 9 stars and a published row that differs only in its star count |
| Dashboard.ListedProjects | app/dashboard/page.tsx:63-69 | the published list is the GitHub rows then the custom rows, its length the sum of both |
| Dashboard.MyProjectsPage.FetchGitHubProjects | app/dashboard/page.tsx:78-123 | on success the page's list is the reconciled pass; on a rejected fetch or write the list is kept and the sync error is set; the write log grows by the loop's writes |
| Dashboard.MyProjectsPage.FetchProjects | app/dashboard/page.tsx:25-76 | the error paths (auth, queries, session), the redirect without a log-out when signed out, log-out with the home-page redirect and no list when the token is missing, and otherwise a published list equal to the raw rows with reconciliation only when GitHub rows exist |
| Catalog.CombineSources | app/page.tsx:45-51 | the combined list is the GitHub rows (or none) followed by the custom rows (or none) |
| Catalog.LoadCatalog | app/page.tsx:42-58 | a successful load sets both the full and the filtered list to the combination; a failed one keeps them and sets the error; loading is cleared either way |
| Catalog.FilterProjects | app/page.tsx:69-79 | the filtered list is never longer than the list; an empty query with "All" selected returns the list itself |
| Catalog.FilterProjectsIsOneFilter | app/page.tsx:69-79 | the two successive filters are one filter by "query test and language test" |
| Catalog.FilterProjectsSpec | app/page.tsx:69-79 | the result is an order-preserving subsequence of the rows, and a row is in it iff it passes both tests |
| Catalog.FilterProjectsIdempotent | app/page.tsx:69-79 | filtering the result again with the same inputs returns it unchanged |
| Catalog.UnfilteredViewAfterLoad | app/page.tsx:51-53 | after a successful load the filtered list is the unfiltered view (empty query, "All") of the combination |
| Catalog.QueryIsCaseInsensitive | app/page.tsx:72-74 | the search ignores ASCII case in the query, in the row's `repo_fullname` and in its `name`, and a row with neither `repo_fullname` nor `name` never matches |
| Catalog.QueryMatchesSubstring | app/page.tsx:72-74 | a query matches a row iff the lower-cased query occurs at some position of the lower-cased `repo_fullname` or of the lower-cased `name`, whichever are present |
| Catalog.LanguageFilterIsCaseSensitive | app/page.tsx:75-77 | a row tagged "go" is dropped when "Go" is selected |
| Js.IncludesIffOccurs | app/page.tsx:73 | `includes` holds exactly when the substring occurs at some position |
| Seqs.FilterOfFilter | app/page.tsx:72-77 | two successive `filter` calls are one filter by the conjunction |
| AddProjectPage.ExcludeImported | app/dashboard/add-project/page.tsx:46-48 | the offered repositories are an order-preserving subsequence of the listing, and a listed repository is offered iff its `full_name` is not an imported `repo_fullname` |
| AddProjectPage.ExclusionProperties | app/dashboard/add-project/page.tsx:46-48 | no data from the existing-projects query excludes nothing; no offered repository shares a name with an imported row |
| AddProjectPage.Enrich | app/dashboard/add-project/page.tsx:50-63 | enrichment fails iff some repository's `/languages` request or body parse is rejected; otherwise it keeps the length and order and attaches each repository's own parsed `/languages` body, an error object included since the status is not checked |
| AddProjectPage.FindByFullName | app/dashboard/add-project/page.tsx:76 | the first listed repository with that `full_name`, and none iff there is no such repository |
| AddProjectPage.AddProjectPage.FetchRepos | app/dashboard/add-project/page.tsx:22-70 | no token: log out and redirect, no listing; listing not ok or unparsable, or no user: the error and no new repos; a rejected `/languages` lookup: the error and no new repos; otherwise the enriched, filtered listing; loading cleared; selection untouched |
| AddProjectPage.AddProjectPage.HandleRepoSelect | app/dashboard/add-project/page.tsx:75-79 | the selection is the found repository, manual mode is off, and the form is shown iff the name is listed |
| AddProjectPage.AddProjectPage.HandleManualAdd | app/dashboard/add-project/page.tsx:81-84 | no selection, manual mode on, the form shown, the invariant kept |
| AddProjectPage.AddProjectPage.constructor | app/dashboard/add-project/page.tsx:12-16 | the picker starts with no selection, not in manual mode, form hidden, loading |
| AddProjectForm.Prefill | components/forms/AddProjectForm.tsx:30-37 | name and code link from the repository, short description, language and website from the repository or "", the two extra links empty, the full description left as it was |
| AddProjectForm.Typed | components/forms/AddProjectForm.tsx:147-263 | typing into a read-only input changes nothing; otherwise that input takes the value and no other input changes |
| AddProjectForm.LocksArePreserved | components/forms/AddProjectForm.tsx:149-243 | the prefill satisfies the read-only locks and typing keeps them satisfied |
| AddProjectForm.DetailSources | components/forms/AddProjectForm.tsx:73-108 | the GitHub detail row depends on the form only through full description, Instagram and documentation; the custom detail row determines all eight inputs |
| AddProjectForm.AddProjectForm.ApplyRepo | components/forms/AddProjectForm.tsx:29-48 | with a repository the inputs become its prefill, without one all eight inputs become ""; the locks hold |
| AddProjectForm.AddProjectForm.constructor | components/forms/AddProjectForm.tsx:15-48 | a mounted form holds the prefill of its repository or blank inputs |
| AddProjectForm.AddProjectForm.OnPropsChange | components/forms/AddProjectForm.tsx:29-48 | a changed repository prop re-runs the prefill or the reset; an unchanged one (a new `isManual` alone) keeps every input; the locks stay consistent either way |
| AddProjectForm.AddProjectForm.Input | components/forms/AddProjectForm.tsx:147-263 | an input change is applied unless the input is read-only or disabled, and the locks hold afterwards |
| AddProjectForm.AddProjectForm.HandleSubmit | components/forms/AddProjectForm.tsx:54-127 | no user: nothing; the `projects` row is tagged "github" iff there is a repository; a detail row is sent iff the insert gave a truthy id and there is a repository or manual mode, from the repository or from the inputs; any error notifies without navigating, otherwise navigate to /dashboard with the success notice |
| AddProjectForm.SubmitWithoutSourceScenario | components/forms/AddProjectForm.tsx:61-120 | the form component on its own, with neither repository nor manual mode (a state the import picker never mounts it in), sends no detail row and reports success |
| EditProjectForm.InitialValuesBySource | components/forms/EditProjectForm.tsx:13-20 | for a GitHub row the name, short description and code link start from `repo_fullname`, `repo_desc`, `repo_url`; for a custom row from `name`, `short_desc`, `code_url`; an input starts empty iff none of its source columns is truthy |
| EditProjectForm.InitialValuesMatchCard | components/forms/EditProjectForm.tsx:13-14 | the name input starts from the cards' title; the short description agrees with the card description when exactly one of `short_desc` and `repo_desc` is set; with both the form shows `short_desc` and the card `repo_desc`; with neither the form is empty and the card shows "No short description provided" |
| EditProjectForm.EditProjectForm.constructor | components/forms/EditProjectForm.tsx:12-20 | the form starts from the initial values |
| EditProjectForm.EditProjectForm.OnProjectDataChange | components/forms/EditProjectForm.tsx:26-35 | a new `projectData` resets all eight inputs to its initial values |
| EditProjectForm.EditProjectForm.Input | components/forms/EditProjectForm.tsx:101-199 | for a GitHub project name, code link, short description, language and website stay as initialised; other inputs take the typed value |
| EditProjectForm.EditProjectForm.HandleSubmit | components/forms/EditProjectForm.tsx:41-87 | no user: nothing sent; GitHub: full description and the three links keyed by `project_id`, the website equal to its initial value, an error returning with no navigation and no notice; any other type: all eight inputs keyed by `project_id`, then navigation and the success notice whatever the result |
| EditProjectForm.FailedCustomEditScenario | components/forms/EditProjectForm.tsx:77-86 | a rejected custom update still navigates to /dashboard with the success notice |
| Languages.TableSize | utils/languages.ts:6-36 | the registry has 29 entries |
| Languages.TableColorsAreHex | utils/languages.ts:7-35 | every colour is `#` and six hex digits |
| Languages.TableNamesDistinctIgnoringCase | utils/languages.ts:7-35 | no two names are equal after lower-casing |
| Languages.AllIsNotALanguage | utils/languages.ts:7-35 | "All" is not a language name |
| LanguageBadge.FindByLowerNameIsFirst | components/projects/HomeCard.tsx:17 | `find` returns the first entry whose lower-cased name equals the key, and nothing iff no entry does |
| LanguageBadge.LanguageColor | components/projects/HomeCard.tsx:17 | the badge colour is always a `#rrggbb` colour, the default when the language is `undefined` or `null` |
| LanguageBadge.ColorInIsHex | components/projects/HomeCard.tsx:17 | in a table of `#rrggbb` colours every lookup, found or not, yields a `#rrggbb` colour |
| LanguageBadge.ColorInDefault | components/projects/HomeCard.tsx:17 | a language naming no entry of the table gets `#cccccc` |
| LanguageBadge.FindNamedEntry | components/projects/HomeCard.tsx:17 | in a table with names distinct ignoring case, `find` returns the entry the key names |
| LanguageBadge.LanguageColorOfEntry | components/projects/HomeCard.tsx:17 | a language naming a registry entry in any ASCII case gets that entry's colour |
| LanguageBadge.LanguageColorDefaultAndCase | components/projects/HomeCard.tsx:17 | a language naming no entry gets `#cccccc`; case does not change the colour |
| LanguageBadge.DashboardColorAsWritten | components/projects/DashboardCard.tsx:28 | the unguarded lookup throws iff the language is not a string, and otherwise agrees with the guarded one |
| LanguageBadge.DetailColorAsWritten | app/project/page.tsx:86 | the default while there is no project, otherwise the unguarded lookup of the project's language |
| LanguageBadge.NullLanguageThrows | components/projects/DashboardCard.tsx:28 | a `null` language makes both unguarded lookups throw where the guarded one gives the default |
| LanguageBadge.ParseHex | components/projects/HomeCard.tsx:8 | `parseInt(_, 16)` is `NaN` exactly when the string does not start with a hex digit |
| LanguageBadge.SplitHex | components/projects/HomeCard.tsx:8-11 | each of r, g, b is in 0..255 |
| LanguageBadge.SplitOfHexColor | components/projects/HomeCard.tsx:8-11 | for `#rrggbb` the three bytes are the values of the three digit pairs |
| LanguageBadge.BadgeColorSplits | components/projects/HomeCard.tsx:8-18 | every badge colour splits into its three digit pairs |
| HomeCard.Title | components/projects/HomeCard.tsx:25 | the title is `name` or `repo_fullname`, and truthy iff one of them is |
| HomeCard.Description | components/projects/HomeCard.tsx:32 | the description is never empty: `repo_desc`, `short_desc` or the fallback text |
| HomeCard.CountBadge | components/projects/HomeCard.tsx:34-43 | a counter badge is shown iff the count is not `undefined`, a `null` count included |
| HomeCard.HrefIdentifiesProject | components/projects/HomeCard.tsx:21 | two cards link to the same page iff they show the same `project_id` |
| HomeCard.CardByTable | components/projects/HomeCard.tsx:16-45 | a GitHub row's card shows the icon, the full name as title and both counters; a custom row's card shows neither icon nor counters |
| HomeCard.CardColorIsHex | components/projects/HomeCard.tsx:17-18 | the card colour is a `#rrggbb` colour that splits into its digit pairs |
| DashboardCard.EditHrefIdentifiesProject | components/projects/DashboardCard.tsx:70 | edit links are equal iff the `project_id`s are, and never equal a catalogue link |
| DashboardCard.CardAsWritten | components/projects/DashboardCard.tsx:28-66 | the card renders iff the language is a string |
| DashboardCard.Card | components/projects/DashboardCard.tsx:28-66 | the card with the guarded lookup always renders, with a `#rrggbb` colour and the default for a missing language |
| DashboardCard.CardAsWrittenFailsOnMissingLanguage | components/projects/DashboardCard.tsx:28 | where the written card renders it equals the guarded card, and a `null` language makes it throw |
| DashboardCard.SameFacesAsHomeCard | components/projects/DashboardCard.tsx:47-63 | title, colour, description and counters are those of the catalogue card |
| DashboardCard.DashboardCard.HandleDelete | components/projects/DashboardCard.tsx:31-40 | one delete of the `projects` row whose `id` is the card's `project_id`, the dialog closed, an error notice iff the delete failed, one refresh either way |
| DashboardCard.DashboardCard.AskDelete | components/projects/DashboardCard.tsx:73 | the Delete button opens the dialog and changes nothing else |
| ProjectPage.FormatDate | app/project/page.tsx:23-35 | a missing or empty date is "Unknown date"; any other goes to the locale formatter |
| ProjectPage.ShownCount | app/project/page.tsx:118-135 | a counter is shown iff its value is neither `undefined` nor `null` |
| ProjectPage.ShownLink | app/project/page.tsx:140-157 | a link button is shown iff its link is truthy |
| ProjectPage.NullCountShownOnlyOnCards | app/project/page.tsx:118 | a `null` count is hidden here but badged on the cards |
| ProjectPage.DetailColor | app/project/page.tsx:86 | the guarded colour: `#rrggbb`, the default while there is no project |
| ProjectPage.Render | app/project/page.tsx:86-163 | the guarded render never throws |
| ProjectPage.RenderAsWritten | app/project/page.tsx:86-91 | the render as written throws iff a project with a missing language is loaded, whatever the loading flag and the error |
| ProjectPage.RenderAsWrittenCrashes | app/project/page.tsx:86-91 | where the written render does not throw it equals the guarded render |
| ProjectPage.ScreenRules | app/project/page.tsx:86-160 | "Loading..." iff loading; then the error text iff it is non-empty; then "not found" iff there is no project; otherwise the detail view: the title, the `#rrggbb` badge colour of the language, the repository link iff `repo_fullname` is truthy, the description `repo_desc`, else `short_desc`, else the fallback, the full description, each of stars, forks and open issues shown with its value iff it is a number, each of the website, documentation and Instagram links shown with its value iff it is truthy, and the author line |
| ProjectPage.ProjectPage.Load | app/project/page.tsx:46-84 | no id: nothing changes; else loading cleared, a projects-query error or a missing row sets its message, the type tag picks the detail table, an unknown tag sets "Unknown project type." |
| ProjectPage.NoIdScenario | app/project/page.tsx:83-89 | without an `id` the page keeps showing "Loading..." |

## Left out

- HTTP, authentication, sessions, row-level security and the database are not modelled. Their answers are parameters (`Query`, `InsertResult`, `WriteResult`, fetch and write-failure functions) and their requests are outputs.
- The concurrent language fan-out (`Promise.all`) is modelled as an order-preserving map that rejects when any lookup rejects. Which lookup rejects first, and the requests still in flight, are not modelled.
- A `/languages` error object is modelled by its `message` only; the rest of GitHub's error body is not modelled.
- React effect scheduling, state batching, re-rendering, and the router's own behaviour are not modelled. State setters are sequential assignments, and navigation is a recorded path.
- The `isColorLight` brightness threshold uses floating point and is not modelled. Only the integer byte split is.
- `formatDate`'s locale formatting is a parameter. Only the missing-date case is modelled.
- `toLowerCase` lower-cases ASCII letters only, not the full Unicode case mapping.
- `parseInt` is modelled for its leading hex digits only. It leaves out leading whitespace, a sign, a `0x` prefix, and the precision loss of numbers above 2^53. Colours are always `#` and six hex digits, so none of these arise.
- JavaScript numbers are unbounded integers here, which does not matter for counts.
- The catalogue's project-count request and loading skeleton are not modelled. They fetch a count that only sizes placeholders.
- The edit-project page, the auth and notification contexts, the notification timer, the confirmation dialog, header, footer, layout and styling configuration are not modelled. They contain no decision logic of the modelled pages.
- The browser's own form validation is not modelled: `maxLength` limits, `required` inputs and `type="url"` inputs can stop a submission before `onSubmit` runs. `AddProjectForm.HandleSubmit` and `EditProjectForm.HandleSubmit` model every submission, including ones the browser would block.
- React compares effect dependencies by object identity. `AddProjectForm.OnPropsChange` compares the repository prop by value, so a fresh but equal repository object does not re-run the prefill here.

## Findings

| source | as written | input that shows it | evidently intended | confidence | as-written member | corrected member |
|---|---|---|---|---|---|---|
| components/projects/DashboardCard.tsx:28 | `language.toLowerCase()` with no optional chaining: the card throws while rendering | a project row whose `language` is `null`. Importing or reconciling a GitHub repository for which GitHub reports no language stores `null` | the default badge colour, as the catalogue card's `language?.toLowerCase()` gives | high (not executed) | DashboardCard.CardAsWritten | DashboardCard.Card |
| app/project/page.tsx:86 | `project?.language.toLowerCase()` guards the project but not its language: the detail page throws once such a project is loaded | the same row, opened on the detail page | the default badge colour | high (not executed) | ProjectPage.RenderAsWritten | ProjectPage.Render |
