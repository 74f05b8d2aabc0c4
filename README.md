# Inventory management UI — a verified model of its client-side core

The repository is a Vue/TypeScript admin front end for a REST inventory API,
plus two scripts that turn the Git history into Markdown. This project models
in Dafny the parts of it that are deterministic once network, clock and
filesystem results are treated as inputs, and proves what they promise:

- **The Pinia stores.** These are language, context, project, country,
  partner, item, glossary, glossary spelling, glossary translation, auth,
  error display, loading overlay, and the two confirmation dialogs. Each store
  is a `class` whose fields are the store's `ref`s, with `seq` fields for its
  lists. Each action is a `method` whose API reply arrives as a parameter: a
  `Call<T>`, either `Returned(value)` or `Threw(message)`. A paged index is a
  function from page number to reply. Every method states the store's whole
  new state: the list after append, replace-first-match, filter-by-id or
  single-default rewrite; `current…`, `loading` and `error`; and the value
  returned or rethrown.
  - Country, item, glossary, glossary-spelling and glossary-translation are
    the same store over different records. `Catalog.CatalogStore` models all
    five, and each module only supplies its record type, sort key and
    messages. For the glossary-spelling and glossary-translation stores its
    update is the corrected one: as written, those two write the answer into
    a separate `glossary` array (see Findings and "Left out").
  - Language and context records share `Reference.ReferenceFields`.
- **The utilities.** This covers error classification and the global error
  state of `errorHandler.ts`, the dropdown class and label rules, the
  `usePagination` composable, and the router's route table and
  authentication guard.
- **The two view-logic classes in the test suite.** `ProjectsLogic` covers
  source selection, search, the sort (with a missing name sorted last, as
  corrected under Findings), and the sort toggle. `ProjectDetailLogic` covers the view/edit/create mode machine,
  unsaved-change detection, the form-to-payload mapping, the status cards
  and the status toggles.
- **`docs/generate-commit-docs.py`.** This covers:
  - filename sanitizing;
  - parsing of the `git log` output;
  - the `--name-status` bullets;
  - page file names and front matter;
  - re-reading the front matter with the script's own regular expressions
    (`^commit_hash:\s*(.+)$`, `^title:\s*"(.+)"$` and `^date:\s*(.+)$` under
    `re.MULTILINE`, matched exactly, backtracking included);
  - the index of the 20 newest pages.
- **`scripts/generate-blog-posts.js`.** This covers:
  - splitting log lines;
  - grouping commits by day;
  - the descending order of days;
  - the conventional-commit emoji;
  - the post template;
  - the rule that skips a day whose post already records its commit count.

Shared pieces are kept in their own modules:

- `Strings`: Python and JavaScript whitespace, `strip`, `split`,
  `split(sep, n)`, `join`, `includes`, prefixes, and decimal rendering.
- `Lists`: `findIndex`, `find`, replace-first, filter-by-id and upsert.
- `Sorting`: an insertion sort with its permutation, ordering and stability proofs.
- `LineRegex`: the multi-line regex search.

## Model

| member | source | states |
|---|---|---|
| `Lists.IndexOf` | src/stores/language.ts:311 | `findIndex` by id is -1 exactly when no entry has the id, and otherwise is the first entry that has it |
| `Lists.Find` | src/stores/country.ts:199-201 | `find` by id is empty exactly when no entry has the id; a found entry has that id and belongs to the list |
| `Lists.FindAfterReplace` | src/stores/context.ts:133-136 | after `list[findIndex(id)] = x` a lookup of `id` yields `x` when the id was present and nothing when it was absent |
| `Lists.ReplaceKeepsOthers` | src/stores/context.ts:133-136 | replacing the entry with one id leaves the lookup of every other id unchanged |
| `Lists.ReplaceOnlyFirst` | src/stores/project.ts:154-158 | the only position the replace can change is the first one carrying the id |
| `Lists.RemoveIdSpec` | src/stores/context.ts:163-164 | `filter(x => x.id !== id)` keeps exactly the entries with another id, in their order, and no entry with the id remains |
| `Lists.RemoveKeepsOthers` | src/stores/context.ts:163-164 | deleting one id leaves the lookup of every other id unchanged |
| `Lists.FindAppended` | src/stores/context.ts:110-111 | after appending an entry whose id was absent, looking that id up finds the new entry |
| `Lists.UpsertFinds` | src/stores/context.ts:220-227 | after the replace-or-append of `getDefaultContext` the entry is found, and the list grows by one exactly when its id was absent |
| `Lists.Filter` | src/stores/project.ts:58-59 | `filter` keeps exactly the entries satisfying the predicate, as a subsequence of the list |
| `Lists.FirstIndex` | src/stores/language.ts:75 | the first position whose entry satisfies the predicate, or -1 exactly when none does |
| `Lists.First` | src/stores/language.ts:75 | `find` with a predicate is empty exactly when no entry satisfies it; a result satisfies it and belongs to the list |
| `Lists.ByNameStrict` | src/stores/language.ts:322 | comparing resources by `localeCompare` of one name field is irreflexive and transitive, and entries of equal name tie |
| `Lists.SortByNameSpec` | src/stores/language.ts:321-323 | `[...list].sort` by name is a permutation of the list, no entry's name sorts before an earlier one's, and entries of equal name keep their order |
| `Sorting.SortPermutes` | src/stores/language.ts:322 | the sort used by every sorted copy returns a permutation of its input |
| `Sorting.SortSorts` | src/stores/language.ts:322 | for any strict order the sort's result never has a later element strictly before an earlier one |
| `Sorting.SortStable` | src/stores/language.ts:322 | for a comparator whose ties are an equivalence, the sort lists the elements of every tie class in their input order, as `Array.prototype.sort` and `sorted` do |
| `Strings.LessIrreflexive` | src/stores/language.ts:322 | the string order standing for `localeCompare` never puts a name before itself |
| `Strings.LessTransitive` | src/stores/language.ts:322 | the string order standing for `localeCompare` is transitive |
| `Strings.LessTotal` | src/stores/language.ts:322 | of two different names one sorts before the other |
| `Strings.TrimBlank` | docs/generate-commit-docs.py:114 | `line.strip()` is empty exactly when every character of the line is whitespace |
| `Strings.ContainsIff` | scripts/generate-blog-posts.js:44 | `includes` holds exactly when the text has the substring at some position |
| `Strings.SplitJoin` | scripts/generate-blog-posts.js:18 | joining the parts of `split(sep)` with the separator gives back the text |
| `Strings.SplitOfJoin` | scripts/generate-blog-posts.js:18 | splitting the join of separator-free parts gives back the parts |
| `Strings.SplitMaxField` | docs/generate-commit-docs.py:115 | `split('\|', n + 1)` of `field\|rest` is `field` followed by `split('\|', n)` of the rest, for a field without a bar |
| `Strings.Take` | docs/generate-commit-docs.py:180 | `hash[:7]` is a prefix of the hash, exactly 7 characters long when the hash has at least 7 |
| `Strings.NatToStringValue` | scripts/generate-blog-posts.js:55 | the decimal rendering of a count reads back as that count |
| `Reference.MarkDefaultSpec` | src/stores/language.ts:266-269 | after `setDefault(id, b)` the entry `id` has `is_default = b`, every other entry has `false`, and ids, order and other fields are unchanged |
| `Reference.MarkDefaultSingle` | src/stores/context.ts:189-193 | with distinct ids at most one entry is default afterwards, and the default getter then yields the updated entry when `b` holds and the id is present, and nothing otherwise |
| `Languages.FetchedSinglePage` | src/stores/language.ts:111-116 | when page 1 reports at most one page the load is page 1's data, whatever the server would answer for later pages |
| `Languages.PagesAllOrNothing` | src/stores/language.ts:121-123 | if any requested page fails, the combined page list fails (`Promise.all`) |
| `Languages.FetchedAllOrNothing` | src/stores/language.ts:119-131 | a failure of any page from 2 to `last_page` fails the whole load |
| `Languages.CacheWithSpec` | src/stores/language.ts:310-318 | `updateInCache` replaces a present id in place, keeping the length and every other lookup; it appends and re-sorts an absent id only when loaded, the result being a permutation of the old cache plus the entry; otherwise it changes nothing |
| `Languages.CreatedCacheSorted` | src/stores/language.ts:187 | the cache after `createLanguage` is sorted by name and is a permutation of the old cache plus the new language |
| `Languages.LanguageStore.constructor` | src/stores/language.ts:32-44 | the store starts empty, not loaded, not loading, with no current language and no error |
| `Languages.LanguageStore.DefaultLanguage` | src/stores/language.ts:75 | the first cached language marked default, and none exactly when no language is marked |
| `Languages.LanguageStore.DefaultLanguages` | src/stores/language.ts:76 | exactly the cached languages marked default, in cache order |
| `Languages.LanguageStore.EnsureLoaded` | src/stores/language.ts:79-100 | a loaded (or loading) store returns its cache untouched without fetching; otherwise it loads all pages, leaving the sorted result and `isLoaded` on success, or the old cache, the error and a rethrow on failure |
| `Languages.LanguageStore.LoadAll` | src/stores/language.ts:103-142 | on success the cache is the sorted concatenation of all pages, `isLoaded` is set and the call resolves to nothing; on failure the cache and `isLoaded` are unchanged, the error is set and the call throws; `loading` ends false either way |
| `Languages.LanguageStore.Refresh` | src/stores/language.ts:145-149 | as `LoadAll`, except that a failure leaves `isLoaded` false and success returns the reloaded cache |
| `Languages.LanguageStore.UpdateInCache` | src/stores/language.ts:310-318 | the cache becomes the `updateInCache` of the old cache, and nothing else changes |
| `Languages.LanguageStore.FetchLanguage` | src/stores/language.ts:152-175 | success makes the reply current and merges it into the cache; failure keeps both and sets the error |
| `Languages.LanguageStore.CreateLanguage` | src/stores/language.ts:177-198 | success leaves the cache as the sorted old cache plus the new language; failure leaves it unchanged and sets the error |
| `Languages.LanguageStore.UpdateLanguage` | src/stores/language.ts:200-229 | success merges the reply into the cache and replaces the current language only when its id matches; failure changes nothing but the error |
| `Languages.LanguageStore.DeleteLanguage` | src/stores/language.ts:231-254 | success removes every entry with the id and clears the current language exactly when its id matched; failure changes nothing but the error |
| `Languages.LanguageStore.SetDefaultLanguage` | src/stores/language.ts:256-285 | success applies the single-default rewrite to the cache and refreshes a matching current language; failure changes nothing but the error |
| `Languages.LanguageStore.GetDefaultLanguage` | src/stores/language.ts:287-307 | success merges the returned default into the cache; failure sets the error and keeps the cache |
| `Languages.LanguageStore.ClearError` | src/stores/language.ts:325-327 | only the error is cleared |
| `Languages.LanguageStore.ClearCurrentLanguage` | src/stores/language.ts:329-331 | only the current language is cleared |
| `Contexts.ContextStore.constructor` | src/stores/context.ts:24-27 | the store starts with no contexts, no current context, not loading and no error |
| `Contexts.ContextStore.DefaultContext` | src/stores/context.ts:61 | the first context marked default, and none exactly when no context is marked |
| `Contexts.ContextStore.FetchContexts` | src/stores/context.ts:64-80 | success replaces the list with the payload (or `[]`) and resolves to nothing; failure keeps the list, sets the fixed message and rethrows; `loading` ends false |
| `Contexts.ContextStore.FetchContext` | src/stores/context.ts:82-99 | success makes the reply current; failure keeps the current context and sets the error; the list is untouched |
| `Contexts.ContextStore.CreateContext` | src/stores/context.ts:101-122 | success appends the returned context after the unchanged earlier entries; failure changes nothing but the error |
| `Contexts.ContextStore.UpdateContext` | src/stores/context.ts:124-153 | success replaces only the first entry with the id and the current context only on id match; failure changes nothing but the error |
| `Contexts.ContextStore.DeleteContext` | src/stores/context.ts:155-178 | success removes all entries with the id, keeping the rest in order, and clears a matching current context |
| `Contexts.ContextStore.SetDefaultContext` | src/stores/context.ts:180-209 | success applies the single-default rewrite (length and order kept) and refreshes a matching current context |
| `Contexts.ContextStore.GetDefaultContext` | src/stores/context.ts:211-237 | success replaces the entry with the returned id, or appends it when absent |
| `Contexts.ContextStore.ClearError` | src/stores/context.ts:239-241 | only the error is cleared |
| `Contexts.ContextStore.ClearCurrentContext` | src/stores/context.ts:243-245 | only the current context is cleared |
| `Projects.ProjectStore.constructor` | src/stores/project.ts:20-24 | the store starts with empty lists, no current project, not loading and no error |
| `Projects.ProjectStore.EnabledProjects` | src/stores/project.ts:58 | exactly the enabled projects, in list order |
| `Projects.ProjectStore.LaunchedProjects` | src/stores/project.ts:59 | exactly the launched projects, in list order |
| `Projects.ProjectStore.GetProjectById` | src/stores/project.ts:60-62 | the first project with the id, and none exactly when no project has it |
| `Projects.ProjectStore.FetchProjects` | src/stores/project.ts:65-81 | success replaces `projects` with the payload (or `[]`); failure keeps it, sets the error and rethrows; `loading` ends false |
| `Projects.ProjectStore.FetchEnabledProjects` | src/stores/project.ts:83-99 | the same for `visibleProjects`, leaving `projects` alone |
| `Projects.ProjectStore.FetchProject` | src/stores/project.ts:101-118 | success makes the reply current; failure keeps the current project and sets the error |
| `Projects.ProjectStore.CreateProject` | src/stores/project.ts:120-142 | success appends the new project and makes it current; failure changes nothing but the error |
| `Projects.ProjectStore.Replace` | src/stores/project.ts:154-161 | the shared in-place update: first id match replaced, current project replaced only on id match, nothing else touched |
| `Projects.ProjectStore.UpdateProject` | src/stores/project.ts:144-172 | success replaces the first id match and a matching current project; failure changes nothing but the error |
| `Projects.ProjectStore.DeleteProject` | src/stores/project.ts:174-196 | success removes every project with the id and clears a matching current project |
| `Projects.ProjectStore.SetProjectEnabled` | src/stores/project.ts:198-227 | as `UpdateProject`, but `loading` is never touched |
| `Projects.ProjectStore.SetProjectLaunched` | src/stores/project.ts:229-260 | as `UpdateProject`, but `loading` is never touched |
| `Projects.ProjectStore.EnableProject` | src/stores/project.ts:279-281 | `setProjectEnabled`/`setProjectLaunched` with a fixed flag: the server's answer replaces the first id match and a matching current project, `loading` is left alone, and a failure changes nothing but the error |
| `Projects.ProjectStore.DisableProject` | src/stores/project.ts:283-285 | `setProjectEnabled`/`setProjectLaunched` with a fixed flag: the server's answer replaces the first id match and a matching current project, `loading` is left alone, and a failure changes nothing but the error |
| `Projects.ProjectStore.LaunchProject` | src/stores/project.ts:287-289 | `setProjectEnabled`/`setProjectLaunched` with a fixed flag: the server's answer replaces the first id match and a matching current project, `loading` is left alone, and a failure changes nothing but the error |
| `Projects.ProjectStore.UnlaunchProject` | src/stores/project.ts:291-293 | `setProjectEnabled`/`setProjectLaunched` with a fixed flag: the server's answer replaces the first id match and a matching current project, `loading` is left alone, and a failure changes nothing but the error |
| `Projects.ProjectStore.ClearCurrentProject` | src/stores/project.ts:262-265 | only the current project is cleared |
| `Projects.ProjectStore.ClearProjects` | src/stores/project.ts:267-272 | both lists become empty and the current project null; `loading` and `error` are kept |
| `Projects.ProjectStore.ClearError` | src/stores/project.ts:274-277 | only the error is cleared |
| `Catalog.CatalogStore.constructor` | src/stores/country.ts:19-22 | a catalog store (country, item, glossary, spelling, translation) starts empty, with no current entry, not loading and no error |
| `Catalog.CatalogStore.SortedEntries` | src/stores/country.ts:57-59 | the sorted getter is a permutation of the list, ordered by the store's sort key, entries of equal key in list order |
| `Catalog.CatalogStore.Count` | src/stores/country.ts:61 | the count equals the list's length and the sorted copy's |
| `Catalog.CatalogStore.FindById` | src/stores/country.ts:199-201 | the first entry with the id, and none exactly when no entry has it |
| `Catalog.CatalogStore.FetchAll` | src/stores/country.ts:64-84 | success replaces the list with the payload or `[]`; failure empties the list and sets the error without throwing; `loading` ends false |
| `Catalog.CatalogStore.FetchOne` | src/stores/country.ts:86-107 | the current entry is the returned one, and stays null on failure (or missing data) with an error that embeds the id |
| `Catalog.CatalogStore.Create` | src/stores/country.ts:109-133 | success appends and returns the new entry; failure returns null with the list unchanged |
| `Catalog.CatalogStore.Update` | src/stores/country.ts:135-171 | success replaces only the first id match and a matching current entry and returns the entry; failure returns null and changes nothing but the error |
| `Catalog.CatalogStore.Delete` | src/stores/country.ts:173-197 | returns true after removing every id match and clearing a matching current entry, or false with list and current entry unchanged |
| `Catalog.CatalogStore.ClearCurrent` | src/stores/country.ts:203-205 | only the current entry is cleared |
| `Catalog.CatalogStore.ClearError` | src/stores/country.ts:207-209 | only the error is cleared |
| `Countries.NewCountryStore` | src/stores/country.ts:17-22 | a fresh empty country store with the country messages, sorted by `internal_name` |
| `Items.NewItemStore` | src/stores/item.ts:17-22 | a fresh empty item store with the item messages, sorted by `internal_name` |
| `Glossary.NewGlossaryStore` | src/stores/glossary.ts:17-22 | a fresh empty glossary store with the glossary messages, sorted by `internal_name` |
| `GlossarySpellings.NewSpellingStore` | src/stores/glossarySpelling.ts:19-23 | a fresh empty spelling store over `glossarySpellings`, sorted by `spelling` |
| `GlossaryTranslations.NewTranslationStore` | src/stores/glossaryTranslation.ts:19-23 | a fresh empty translation store over `glossaryTranslations` |
| `GlossarySpellings.StoreAt` | src/stores/glossarySpelling.ts:153 | a JavaScript array write at an index sets that slot, keeps every other slot, and past the end extends the array with holes |
| `GlossarySpellings.UpdateAsWritten` | src/stores/glossarySpelling.ts:151-154 | as written, the update never changes the searched list; the answer is stored in `glossary` at the list position of the id, growing it when needed, and nothing is stored when the id is absent |
| `GlossarySpellings.UpdateAsWrittenLeavesListStale` | src/stores/glossarySpelling.ts:151-154 | the update as written leaves `glossarySpellings` as it was, so a lookup still returns the old entry, while the answer lands in `glossary` |
| `GlossarySpellings.UpdateAsWrittenExample` | src/stores/glossarySpelling.ts:151-154 | with one spelling in the list and an empty `glossary`, the as-written update leaves the list unchanged and creates `glossary[0]` |
| `GlossarySpellings.UpdateFindsAnswer` | src/stores/glossarySpelling.ts:151-154 | the intended update, writing into the list it searched, makes a lookup return the server's answer |
| `Partners.CollectBoundIndependent` | src/stores/partner.ts:111-123 | the pages accumulated do not depend on which page bound witnesses that the server stops |
| `Partners.CollectAllOrNothing` | src/stores/partner.ts:141-144 | a failure at any page the loop reaches fails the whole accumulation |
| `Partners.StepLabelsAreSteps` | src/stores/partner.ts:133-137 | the placeholder `pagination.previous` and `pagination.next` links count as step links for the paginator |
| `Partners.PageNumberLabelIsNumbered` | src/stores/partner.ts:135 | the placeholder `1` link is a page-number link |
| `Partners.SinglePageMetaShowsOneButton` | src/stores/partner.ts:129-138 | after `fetchAllPartners` the paginator shows exactly one page button |
| `Partners.PartnerStore.constructor` | src/stores/partner.ts:20-26 | the store starts with empty lists, no current partner, no links or meta, not loading and no error |
| `Partners.PartnerStore.SortedPartners` | src/stores/partner.ts:61-63 | a permutation of `partners` sorted by `internal_name`, partners of equal name in list order |
| `Partners.PartnerStore.PartnersCount` | src/stores/partner.ts:65 | the length of `partners` |
| `Partners.PartnerStore.FindPartnerById` | src/stores/partner.ts:263-265 | the first partner with the id, and none exactly when no partner has it |
| `Partners.PartnerStore.FetchPartners` | src/stores/partner.ts:68-97 | success stores the page data (or `[]`) with its links and meta; failure empties `partners`, sets the error and rethrows |
| `Partners.PartnerStore.FetchAllPartners` | src/stores/partner.ts:100-148 | the loop asks pages 1, 2, … while `current_page < last_page`; success stores and returns the concatenation sorted by name and sets the one-page meta; failure returns `[]` without throwing and keeps `allPartners` |
| `Partners.PartnerStore.FetchPartner` | src/stores/partner.ts:150-171 | the reply becomes current, or the current partner stays null with an error that embeds the id |
| `Partners.PartnerStore.CreatePartner` | src/stores/partner.ts:173-197 | success appends and returns the new partner; failure returns null and keeps the list |
| `Partners.PartnerStore.UpdatePartner` | src/stores/partner.ts:199-235 | success replaces the first id match and a matching current partner; failure returns null and changes nothing but the error |
| `Partners.PartnerStore.DeletePartner` | src/stores/partner.ts:237-261 | returns true after filtering out the id and clearing a matching current partner, or false with nothing changed but the error |
| `Partners.PartnerStore.ClearCurrentPartner` | src/stores/partner.ts:267-269 | only the current partner is cleared |
| `Partners.PartnerStore.ClearError` | src/stores/partner.ts:271-273 | only the error is cleared |
| `Auth.TokenFromResponse` | src/stores/auth.ts:67-77 | a response without `;` is the token itself |
| `Auth.TokenRoundTrip` | src/stores/auth.ts:70-73 | a `count;token` response yields the token |
| `Auth.TokenBetweenSeparators` | src/stores/auth.ts:70-73 | with more `;` the token is the text between the first and the second |
| `Auth.LoginError` | src/stores/auth.ts:82-85 | the login error is the server message when it is non-empty, otherwise `Login failed`; it is never empty |
| `Auth.LoginAuthenticates` | src/stores/auth.ts:19 | after a login with a `count;token` answer the store is authenticated exactly when the token is non-empty |
| `Auth.AuthStore.constructor` | src/stores/auth.ts:15-17 | the token starts as whatever storage holds under `auth_token` |
| `Auth.AuthStore.Login` | src/stores/auth.ts:51-90 | success stores the parsed token in the store and in storage; failure sets the error, keeps the token and rethrows; `loading` ends false |
| `Auth.AuthStore.Logout` | src/stores/auth.ts:92-105 | whatever the server answers, the token and the stored token end null and the store is no longer authenticated |
| `Auth.AuthStore.ClearError` | src/stores/auth.ts:107-109 | only the error is cleared |
| `ErrorDisplay.RemoveFirstWithId` | src/stores/errorDisplay.ts:45-50 | an absent id changes nothing; a present id removes exactly one message |
| `ErrorDisplay.RemoveFirstWithIdKeepsOthers` | src/stores/errorDisplay.ts:45-50 | the message removed is the first with the id, and the others keep their order |
| `ErrorDisplay.AddThenRemove` | src/stores/errorDisplay.ts:36-40 | the auto-dismiss of a freshly added message restores the queue as it was |
| `ErrorDisplay.ErrorDisplayStore.constructor` | src/stores/errorDisplay.ts:13 | the queue starts empty |
| `ErrorDisplay.ErrorDisplayStore.AddMessage` | src/stores/errorDisplay.ts:15-43 | exactly one message with the given type and text is appended and its id returned; only info and warning messages are scheduled for removal after 5000 ms |
| `ErrorDisplay.ErrorDisplayStore.RemoveMessage` | src/stores/errorDisplay.ts:45-50 | the queue loses its first message with the id, if any |
| `ErrorDisplay.ErrorDisplayStore.ClearAll` | src/stores/errorDisplay.ts:52-54 | the queue is empty |
| `LoadingOverlay.LoadingOverlayStore.constructor` | src/stores/loadingOverlay.ts:5-6 | the overlay starts hidden and enabled, satisfying `disabled ⇒ ¬visible` |
| `LoadingOverlay.LoadingOverlayStore.Show` | src/stores/loadingOverlay.ts:8-12 | the overlay becomes visible only when not disabled; the invariant is kept |
| `LoadingOverlay.LoadingOverlayStore.Hide` | src/stores/loadingOverlay.ts:14-16 | the overlay is hidden and `disabled` is kept |
| `LoadingOverlay.LoadingOverlayStore.Disable` | src/stores/loadingOverlay.ts:18-21 | the overlay is disabled and hidden |
| `LoadingOverlay.LoadingOverlayStore.Enable` | src/stores/loadingOverlay.ts:23-25 | the overlay is enabled without being shown |
| `DeleteConfirmation.DeleteConfirmationStore.constructor` | src/stores/deleteConfirmation.ts:5-8 | the dialog starts hidden, empty and unanswered |
| `DeleteConfirmation.DeleteConfirmationStore.Trigger` | src/stores/deleteConfirmation.ts:10-16 | the dialog shows the given texts, and any earlier answer is discarded |
| `DeleteConfirmation.DeleteConfirmationStore.Resolve` | src/stores/deleteConfirmation.ts:30-32 | the answer is recorded, overwriting an earlier one |
| `DeleteConfirmation.DeleteConfirmationStore.CancelDelete` | src/stores/deleteConfirmation.ts:34-36 | the answer becomes `cancel` |
| `DeleteConfirmation.DeleteConfirmationStore.ConfirmDelete` | src/stores/deleteConfirmation.ts:38-40 | the answer becomes `delete` |
| `DeleteConfirmation.DeleteConfirmationStore.Poll` | src/stores/deleteConfirmation.ts:18-26 | one poll yields the answer and hides the dialog once there is one, and leaves the dialog as it is otherwise |
| `CancelChangesConfirmation.CancelChangesConfirmationStore.constructor` | src/stores/cancelChangesConfirmation.ts:5-9 | the dialog starts hidden, unanswered, with no pending changes |
| `CancelChangesConfirmation.CancelChangesConfirmationStore.Trigger` | src/stores/cancelChangesConfirmation.ts:11-17 | the dialog shows the given texts with no answer; pending changes are kept |
| `CancelChangesConfirmation.CancelChangesConfirmationStore.Resolve` | src/stores/cancelChangesConfirmation.ts:31-33 | the answer is recorded, nothing else changes |
| `CancelChangesConfirmation.CancelChangesConfirmationStore.StayOnPage` | src/stores/cancelChangesConfirmation.ts:35-37 | the answer becomes `stay` |
| `CancelChangesConfirmation.CancelChangesConfirmationStore.LeavePage` | src/stores/cancelChangesConfirmation.ts:39-41 | the answer becomes `leave` |
| `CancelChangesConfirmation.CancelChangesConfirmationStore.AddChange` | src/stores/cancelChangesConfirmation.ts:43-45 | pending changes become true and nothing else changes |
| `CancelChangesConfirmation.CancelChangesConfirmationStore.ResetChanges` | src/stores/cancelChangesConfirmation.ts:47-49 | pending changes become false and nothing else changes |
| `CancelChangesConfirmation.CancelChangesConfirmationStore.Poll` | src/stores/cancelChangesConfirmation.ts:19-27 | one poll yields the answer and hides the dialog once there is one; pending changes are untouched |
| `ErrorHandler.Lookup` | src/utils/errorHandler.ts:191-193 | a property lookup finds a value exactly when the object has the key, and the value is one of the object's |
| `ErrorHandler.ExtractErrorMessage` | src/utils/errorHandler.ts:186-196 | falsy data gives no message; a string is its own message; otherwise the first truthy of `message`, `error` and `detail`, and no message when none of the three is truthy; any result is truthy |
| `ErrorHandler.Classify` | src/utils/errorHandler.ts:92-156 | a status never classifies as a network or unknown error |
| `ErrorHandler.ParseAxiosError` | src/utils/errorHandler.ts:87-157 | the code is the classification of the status (0 when there is no response) and the status is carried along |
| `ErrorHandler.ClassifyNamedStatuses` | src/utils/errorHandler.ts:92-156 | 400, 401, 403, 404, 422, 429 and 500 map to their named codes, and every other status to `HTTP_ERROR` |
| `ErrorHandler.ServerMessageWins` | src/utils/errorHandler.ts:93-131 | for 400 and 422 the server's message is used when there is one, and a fixed text otherwise |
| `ErrorHandler.ParseError` | src/utils/errorHandler.ts:63-85 | axios-like errors go through `parseAxiosError`; otherwise a `NETWORK_ERROR` code or an offline browser gives a network error with status 0, and anything else an unknown error without status |
| `ErrorHandler.FieldErrors` | src/utils/errorHandler.ts:171-174 | one validation error per message of the field, each carrying the field |
| `ErrorHandler.Flatten` | src/utils/errorHandler.ts:169-176 | the flattened errors are exactly the (field, message) pairs of the `errors` object |
| `ErrorHandler.ParseValidationError` | src/utils/errorHandler.ts:159-184 | a missing response or a status other than 422 gives no errors; a 422 without data throws (modelled as no result) |
| `ErrorHandler.LaravelAnswer` | src/utils/errorHandler.ts:159-184 | a 422 with two messages for a field and a top-level message flattens to both field errors and then a `general` one |
| `ErrorHandler.FieldError` | src/utils/errorHandler.ts:257-260 | `getFieldError` is the message of the first error for the field, and none exactly when no error names the field |
| `ErrorHandler.SpliceOne` | src/utils/errorHandler.ts:228 | `splice(index, 1)` removes the element at an in-range index; past the end it removes nothing, and before the start it removes the first element |
| `ErrorHandler.SpliceNegative` | src/utils/errorHandler.ts:228 | a negative index counts from the end |
| `ErrorHandler.ErrorState.constructor` | src/utils/errorHandler.ts:25-30 | the global error state starts empty and hidden |
| `ErrorHandler.ErrorState.AddError` | src/utils/errorHandler.ts:198-206 | the error is appended and the error display shown |
| `ErrorHandler.ErrorState.HandleError` | src/utils/errorHandler.ts:35-45 | the parsed error is appended and shown, and an auto-hide is scheduled unless the status is 401 or 403 |
| `ErrorHandler.ErrorState.AutoHide` | src/utils/errorHandler.ts:243-245 | the timer hides the display and keeps the errors |
| `ErrorHandler.ErrorState.HandleValidationError` | src/utils/errorHandler.ts:47-61 | the parsed field errors replace the validation errors, and a summary error is added only when there is at least one |
| `ErrorHandler.ErrorState.ClearErrors` | src/utils/errorHandler.ts:216-225 | everything is cleared, hidden and the timer cancelled |
| `ErrorHandler.ErrorState.ClearError` | src/utils/errorHandler.ts:227-232 | one error is spliced out and the display hides when none remain |
| `ErrorHandler.ErrorState.ClearValidationErrors` | src/utils/errorHandler.ts:234-236 | only the validation errors are cleared |
| `ErrorHandler.ErrorState.GetFieldError` | src/utils/errorHandler.ts:253-260 | `getFieldError` returns a message exactly when `hasFieldError` holds |
| `DropdownStyles.OptionStyles` | src/utils/dropdownStyles.ts:39-57 | the current style appears exactly for the current option, the no-default style exactly for a non-current no-default option, the system-default style exactly for a non-current default; each at most once, system default last |
| `DropdownStyles.ClassList` | src/utils/dropdownStyles.ts:44-56 | each chosen style contributes its class string, in order |
| `DropdownStyles.PlainOptionHasNoClasses` | src/utils/dropdownStyles.ts:39-57 | an ordinary option gets no classes |
| `DropdownStyles.CurrentOptionClasses` | src/utils/dropdownStyles.ts:46-54 | a current option shows only the current classes, whatever else holds |
| `DropdownStyles.SingleStyleClasses` | src/utils/dropdownStyles.ts:48-53 | a lone system default or no-default option gets exactly its own classes |
| `DropdownStyles.NoDefaultThenSystemDefault` | src/utils/dropdownStyles.ts:48-54 | a non-current option that is both gets the no-default classes before the system-default ones |
| `DropdownStyles.OptionLabelParts` | src/utils/dropdownStyles.ts:65-77 | the label suffix is ` (Current)` when current, followed by ` (System Default)` when default |
| `DropdownStyles.CreateDropdownOptionProps` | src/utils/dropdownStyles.ts:95-109 | an option is current exactly when its id is the value (or it is the selected no-default option), is a system default exactly when flagged, and its classes and label follow those two facts |
| `DropdownStyles.SelectedDefaultOption` | src/utils/dropdownStyles.ts:95-109 | the selected default option is styled as current and labelled both current and system default |
| `Pagination.FilteredLinks` | src/composables/usePagination.ts:30-35 | exactly the links whose lower-cased label mentions neither `previous` nor `next`, in order |
| `Pagination.GoTo` | src/composables/usePagination.ts:37-39 | a `change-page` event is emitted exactly for a non-empty URL, carrying it |
| `Pagination.DigitRun` | src/composables/usePagination.ts:42 | the digits `parseInt` reads are the longest run of radix digits at the start of the text |
| `Pagination.GoToPage` | src/composables/usePagination.ts:41-46 | a `change-page-number` event is emitted exactly when `parseInt` of the label is a number, carrying it |
| `Pagination.ParseRenderedPage` | src/composables/usePagination.ts:41-46 | a page-number label rendered from `n` emits page `n` |
| `Pagination.DecimalParses` | src/composables/usePagination.ts:42 | `parseInt` of a string of decimal digits is its value |
| `Pagination.NoDigitNoPage` | src/composables/usePagination.ts:41-46 | a label starting with anything but whitespace, a sign or a digit emits nothing |
| `Pagination.EllipsisEmitsNothing` | src/composables/usePagination.ts:41-46 | the `...` and `…` labels emit nothing |
| `Pagination.PerPageSelector.constructor` | src/composables/usePagination.ts:22 | the local page size starts as the prop |
| `Pagination.PerPageSelector.PropChanged` | src/composables/usePagination.ts:25-27 | a new prop value replaces the local page size |
| `Pagination.PerPageSelector.Select` | src/composables/usePagination.ts:22 | the user's choice becomes the local page size |
| `Pagination.PerPageSelector.OnPerPageChange` | src/composables/usePagination.ts:48-51 | the two events `update:perPage` and `per-page-change` are emitted, both with the local page size |
| `Router.Guard` | src/router/index.ts:309-324 | a protected route without authentication redirects to `/login`; an authenticated visit to `login` redirects to `/`; every other navigation proceeds |
| `Router.RedirectTargetsDeclared` | src/router/index.ts:17-306 | both redirect targets are declared routes |
| `Router.EarlyRoutesOnlyLogin` | src/router/index.ts:17-143 | among the first 20 routes no route but `login` is public |
| `Router.LaterRoutesOnlyLogin` | src/router/index.ts:144-306 | among the other 26 routes no route but `login` is public |
| `Router.LoginIsTheOnlyPublicRoute` | src/router/index.ts:17-306 | of all declared routes only `login` has `requiresAuth: false` |
| `Router.ProtectedRoutesRedirect` | src/router/index.ts:317-318 | an unauthenticated visit to any declared route but `login` is sent to `/login` |
| `Router.NoRedirectLoop` | src/router/index.ts:317-322 | each redirect target is itself let through, so the guard never redirects twice in a row |
| `ProjectsLogic.ValueLessStrict` | src/views/__tests__/ProjectsLogic.test.ts:156-161 | the comparison of sort values is irreflexive and transitive |
| `ProjectsLogic.ProjectBeforeStrict` | src/views/__tests__/ProjectsLogic.test.ts:143-162 | the comparator, with missing values last, is a strict order in both directions, and projects it answers 0 for form an equivalence |
| `ProjectsLogic.SortProjectsSpec` | src/views/__tests__/ProjectsLogic.test.ts:143-162 | the sort returns a permutation of the list, ordered by the key in the chosen direction, with every project lacking the key after those having it and tied projects in list order |
| `ProjectsLogic.FieldValueAsWritten` | src/views/__tests__/ProjectsLogic.test.ts:148-153 | as written, the column value differs from the corrected one exactly for a null `internal_name`, which reads as a present `''` |
| `ProjectsLogic.SortProjectsAsWritten` | src/views/__tests__/ProjectsLogic.test.ts:143-162 | as written, the sort is a permutation of the list ordered by the as-written column values |
| `ProjectsLogic.NullNameFirstAsWritten` | src/views/__tests__/ProjectsLogic.test.ts:148-150 | as written, `internal_name ?? ''` sorts a project without a name before `Active Project`; the corrected sort puts it last |
| `ProjectsLogic.Search` | src/views/__tests__/ProjectsLogic.test.ts:133-140 | a blank query keeps the list; otherwise exactly the projects whose lower-cased name or backward-compatibility code contains the trimmed, lower-cased query, in order |
| `ProjectsLogic.NextSort` | src/views/__tests__/ProjectsLogic.test.ts:165-172 | clicking the current key flips the direction; clicking another key selects it ascending |
| `ProjectsLogic.NextSortTwice` | src/views/__tests__/ProjectsLogic.test.ts:165-172 | clicking the same key twice restores the sort |
| `ProjectsLogic.ProjectsView.constructor` | src/views/__tests__/ProjectsLogic.test.ts:86-97 | the view starts on all projects, no query, by name ascending |
| `ProjectsLogic.ProjectsView.SourceList` | src/views/__tests__/ProjectsLogic.test.ts:118-130 | each filter mode reads its own store list |
| `ProjectsLogic.ProjectsView.FilteredProjects` | src/views/__tests__/ProjectsLogic.test.ts:115-163 | the displayed list is a permutation of the searched source list, sorted by the current key and direction with missing values last, tied projects in source order |
| `ProjectsLogic.ProjectsView.HandleSort` | src/views/__tests__/ProjectsLogic.test.ts:165-172 | the sort becomes the next sort for the clicked key; filter and query are kept |
| `ProjectDetailLogic.FormsDifferIffAFieldDiffers` | src/views/__tests__/ProjectDetailLogic.test.ts:170-188 | two forms differ exactly when one of the five compared fields differs |
| `ProjectDetailLogic.DateInputValue` | src/views/__tests__/ProjectDetailLogic.test.ts:224-227 | the date input never contains a `T` |
| `ProjectDetailLogic.DateInputValueOfTimestamp` | src/views/__tests__/ProjectDetailLogic.test.ts:224-227 | a timestamp `dayTtime` shows as `day`, and a plain day as itself |
| `ProjectDetailLogic.FormFromProject` | src/views/__tests__/ProjectDetailLogic.test.ts:220-236 | missing optional values show as empty fields, context and language come from the embedded relations (empty when not embedded), and the date input holds no time |
| `ProjectDetailLogic.NullIfEmpty` | src/views/__tests__/ProjectDetailLogic.test.ts:260-263 | `x \|\| null` is null exactly for the empty string |
| `ProjectDetailLogic.PayloadRoundTrip` | src/views/__tests__/ProjectDetailLogic.test.ts:258-264 | the save payload determines the form it came from, keeps the name, and never sends an empty optional value |
| `ProjectDetailLogic.StatusCards` | src/views/__tests__/ProjectDetailLogic.test.ts:191-208 | no project gives no cards; a project gives the enabled card and the launched card, the latter disabled exactly when the project is disabled |
| `ProjectDetailLogic.ToggleRequest` | src/views/__tests__/ProjectDetailLogic.test.ts:291-330 | card 0 asks to flip `is_enabled` and card 1 to flip `is_launched`; other indexes, or no project, ask nothing |
| `ProjectDetailLogic.ToggleTwiceRestores` | src/views/__tests__/ProjectDetailLogic.test.ts:301-330 | a toggle flips only its own flag, and toggling twice restores the project |
| `ProjectDetailLogic.ProjectDetail.constructor` | src/views/__tests__/ProjectDetailLogic.test.ts:125-143 | the view starts in view mode with an empty form |
| `ProjectDetailLogic.ProjectDetail.Baseline` | src/views/__tests__/ProjectDetailLogic.test.ts:165-181 | there is a baseline form exactly in create mode, or in edit mode while a project is loaded |
| `ProjectDetailLogic.ProjectDetail.HasUnsavedChanges` | src/views/__tests__/ProjectDetailLogic.test.ts:165-189 | there are unsaved changes exactly when a baseline exists and a field differs from it; never in view mode |
| `ProjectDetailLogic.ProjectDetail.StatusCardsConfig` | src/views/__tests__/ProjectDetailLogic.test.ts:191-208 | the cards of the current project, none or two |
| `ProjectDetailLogic.ProjectDetail.EnterCreateMode` | src/views/__tests__/ProjectDetailLogic.test.ts:238-241 | create mode with the default form, and no unsaved changes |
| `ProjectDetailLogic.ProjectDetail.EnterEditMode` | src/views/__tests__/ProjectDetailLogic.test.ts:243-247 | with a project, edit mode with its form and no unsaved changes; without one, nothing changes |
| `ProjectDetailLogic.ProjectDetail.EnterViewMode` | src/views/__tests__/ProjectDetailLogic.test.ts:249-252 | view mode with the default form, and no unsaved changes |
| `ProjectDetailLogic.ProjectDetail.SaveProject` | src/views/__tests__/ProjectDetailLogic.test.ts:254-289 | create mode sends a create request and edit mode (with a project) an update of that id, both with the form's payload; in any other state nothing is sent and `success` is false; a success returns the id, posts its info message and returns to view mode; a failure keeps mode and form, rethrows and posts the save error last — after the created message when only the reload of a created project fails |
| `ProjectDetailLogic.ProjectDetail.HandleStatusToggle` | src/views/__tests__/ProjectDetailLogic.test.ts:291-340 | the request is the toggle of the clicked card; success notifies with the new state; failure posts that card's error text and rethrows |
| `CommitDocs.ReplaceUnsafe` | docs/generate-commit-docs.py:41 | the length and every character of `[A-Za-z0-9._-]` are kept, and no other character remains |
| `CommitDocs.Collapse` | docs/generate-commit-docs.py:42 | the result has no `__`, keeps the first and last character, adds no new character, and leaves a text without `__` unchanged |
| `CommitDocs.CollapsedSafe` | docs/generate-commit-docs.py:41-42 | after the two substitutions only safe characters remain and no two `_` are adjacent |
| `CommitDocs.SanitizeIsClean` | docs/generate-commit-docs.py:39-43 | a sanitized name has only `[A-Za-z0-9._-]`, no `__`, and does not begin or end with `_` |
| `CommitDocs.CleanIsFixed` | docs/generate-commit-docs.py:39-43 | a name that is already clean comes back unchanged |
| `CommitDocs.SanitizeIdempotent` | docs/generate-commit-docs.py:39-43 | sanitizing twice is sanitizing once |
| `CommitDocs.DigitsOnly` | docs/generate-commit-docs.py:176 | `re.sub(r'[^0-9]', '', s)` keeps exactly the digits, in order |
| `CommitDocs.FileDate` | docs/generate-commit-docs.py:172-176 | when the date does not parse, the date part is at most 14 digits |
| `CommitDocs.FileNameParts` | docs/generate-commit-docs.py:172-181 | the file name is `<date>-<first 7 of hash>-<clean title>.md` |
| `CommitDocs.CommitsOf` | docs/generate-commit-docs.py:113-124 | at most one commit per line |
| `CommitDocs.GetCommits` | docs/generate-commit-docs.py:108-124 | the loop keeps, in log order, every non-blank line that `split('\|', 3)` cuts into four fields; no output gives `[]` |
| `CommitDocs.LogLineRoundTrip` | docs/generate-commit-docs.py:113-122 | for a commit whose hash, date and title hold no bar, the line `--pretty=format:%H\|%ci\|%s\|%an` writes parses back to that commit, whatever the author contains |
| `CommitDocs.TitleWithBarAsWritten` | docs/generate-commit-docs.py:115-122 | as written, a title `t1\|t2` (hash, date and `t1` free of bars) comes back as `t1`, with `t2\|` put in front of the author |
| `CommitDocs.CommitsOfLogLines` | docs/generate-commit-docs.py:113-124 | for commits whose hash, date and title hold no bar and none of whose fields holds a newline, the log of their lines parses back to those commits, in order |
| `CommitDocs.GitLogRoundTrip` | docs/generate-commit-docs.py:108-124 | for a non-empty list of such commits, `get_commits` of the whole log output returns exactly those commits |
| `CommitDocs.ChangeOf` | docs/generate-commit-docs.py:151-162 | `A`, `M` and `D` are Added, Modified and Deleted; a code starting with `R` or `C` is Renamed or Copied; anything else is Changed |
| `CommitDocs.Bullet` | docs/generate-commit-docs.py:152-162 | every bullet is a list item ending with the path in backticks |
| `CommitDocs.GetFilesChanged` | docs/generate-commit-docs.py:131-164 | the loop emits one bullet per non-blank line holding a tab, in order, or the placeholder text when there are none or the command failed |
| `CommitDocs.NameStatusLine` | docs/generate-commit-docs.py:140-162 | a `status<TAB>path` line gives exactly the bullet of that status and path |
| `LineRegex.PlainCapture` | docs/generate-commit-docs.py:91 | `\s*(.+)$` after the key captures a non-empty, single-line value, and fails exactly when nothing but newlines follows the key |
| `LineRegex.PlainCaptureSpec` | docs/generate-commit-docs.py:91 | the capture starts after leading whitespace and runs to the end of its line |
| `LineRegex.QuotedCapture` | docs/generate-commit-docs.py:245 | `\s*"(.+)"$` captures a non-empty, single-line value |
| `LineRegex.QuotedCaptureSpec` | docs/generate-commit-docs.py:245 | the capture sits between a quote after the whitespace and a quote that ends its line |
| `LineRegex.SearchSkipsLines` | docs/generate-commit-docs.py:91 | lines that do not start with the key are passed over by the `MULTILINE` search |
| `LineRegex.PlainCaptureOf` | docs/generate-commit-docs.py:189 | a line written as `key: value` reads back as `value` |
| `LineRegex.QuotedCaptureOf` | docs/generate-commit-docs.py:186 | a line written as `key: "value"` reads back as `value` |
| `LineRegex.SearchFindsLine` | docs/generate-commit-docs.py:91 | the search returns the capture at the first line starting with the key |
| `LineRegex.FirstWord` | docs/generate-commit-docs.py:250 | `split()[0]` is a non-empty word without whitespace |
| `LineRegex.FirstWordOf` | docs/generate-commit-docs.py:250 | the first word of `word rest` is `word` |
| `CommitIndex.Newest` | docs/generate-commit-docs.py:86 | `max(key=mtime)` is the first of the files with the largest mtime |
| `CommitIndex.Pages` | docs/generate-commit-docs.py:238 | exactly the files other than `index.md` |
| `CommitIndex.LatestDocumented` | docs/generate-commit-docs.py:76-80 | a missing docs directory gives no hash |
| `CommitIndex.FrontMatterHash` | docs/generate-commit-docs.py:189 | the front matter of a page, with anything below it, reads back the commit's hash |
| `CommitIndex.PageHashRoundTrip` | docs/generate-commit-docs.py:184-217 | the whole page written for a commit reads back the commit's hash |
| `CommitIndex.FrontMatterTitle` | docs/generate-commit-docs.py:186 | the quoted `title:` line of a page reads back the title |
| `CommitIndex.FrontMatterDate` | docs/generate-commit-docs.py:187 | the `date:` line of a page reads back the date |
| `CommitIndex.FrontMatterEntry` | docs/generate-commit-docs.py:245-252 | a file whose title and date read back gives the entry `- [title](stem/) - day` |
| `CommitIndex.PageEntry` | docs/generate-commit-docs.py:184-252 | a page the script wrote gets the index entry with its title, its stem and the day of its date |
| `CommitIndex.ByAgeSpec` | docs/generate-commit-docs.py:238-239 | the pages sorted newest first: a permutation of the non-index files in descending mtime, equally new pages in directory order |
| `CommitIndex.RecentSpec` | docs/generate-commit-docs.py:238-241 | the index lists at most 20 pages, never `index.md`, newest first, and no page left out is newer than one listed |
| `CommitIndex.IndexBody` | docs/generate-commit-docs.py:241-254 | the loop writes one line per page that has a title and a date, in order |
| `CommitIndex.GenerateIndex` | docs/generate-commit-docs.py:221-259 | the index is the header, the entries of the 20 newest pages, and the footer with the generation time |
| `CommitIndex.IndexHasNoHash` | docs/generate-commit-docs.py:221-259 | the index file never has a `commit_hash:` line |
| `CommitIndex.LatestDocumentedAsWritten` | docs/generate-commit-docs.py:76-97 | as written, the lookup reads the newest `*.md` file; with no index in the directory it agrees with the corrected lookup |
| `CommitIndex.AsWrittenReadsTheIndex` | docs/generate-commit-docs.py:76-97 | as written, for any pages listed anywhere around an index written after all of them, the latest documented commit is none |
| `CommitIndex.CorrectedReadsThePage` | docs/generate-commit-docs.py:76-97 | reading only commit pages, for any non-empty set of pages listed anywhere around the index, the lookup is the hash of the newest page, whatever the index holds |
| `CommitIndex.CorrectedFindsThePage` | docs/generate-commit-docs.py:76-97 | reading only commit pages, when the newest page is a page the script wrote for a commit, the lookup is that commit's hash, for any other pages and any index |
| `BlogPosts.ParseLineAsWritten` | scripts/generate-blog-posts.js:22 | as written, no field holds a bar, and a line of exactly four bar-separated parts is the log line of the fields it gives |
| `BlogPosts.SubjectWithBarAsWritten` | scripts/generate-blog-posts.js:22 | as written, a subject `s1\|s2` is cut to `s1` and `s2` is reported as the author |
| `BlogPosts.SubjectWithBarExample` | scripts/generate-blog-posts.js:22 | the as-written parse of `abc1234\|2024-01-15\|fix: a\|b\|Alice` names `b` as the author |
| `BlogPosts.ParseLineRoundTrip` | scripts/generate-blog-posts.js:11 | the corrected parse gives back hash, date, subject and author of any line the log format writes, bars in the subject included |
| `BlogPosts.GroupAllSpec` | scripts/generate-blog-posts.js:21-27 | every commit lands in the bucket of its date and only there, each bucket keeps log order and is non-empty, and every date is listed once |
| `BlogPosts.GroupByDate` | scripts/generate-blog-posts.js:18-27 | the `forEach` builds exactly those buckets |
| `BlogPosts.DateOrderSpec` | scripts/generate-blog-posts.js:36 | `sort().reverse()` lists each date once, in strictly descending order |
| `BlogPosts.CommitType` | scripts/generate-blog-posts.js:62 | the detected type is one of the seven whose `type:` starts the subject, and none exactly when no type does |
| `BlogPosts.EmojiOfTyped` | scripts/generate-blog-posts.js:62-71 | a subject `type: …` of a known type gets that type's emoji, never the memo |
| `BlogPosts.EmojiOfUntyped` | scripts/generate-blog-posts.js:62-71 | any other subject gets 📝 |
| `BlogPosts.PostCarriesMarker` | scripts/generate-blog-posts.js:49-83 | every post records `<!-- commits-count: n -->` with its number of commits |
| `BlogPosts.FileNameInjective` | scripts/generate-blog-posts.js:38 | two days share a file name exactly when they are the same day |
| `BlogPosts.Step` | scripts/generate-blog-posts.js:41-85 | one day either is skipped, writes its post, or (when building the post throws) ends the run |
| `BlogPosts.RunWritesItsDays` | scripts/generate-blog-posts.js:36-87 | every file written is the post file of one of the days |
| `BlogPosts.RunStaysFailed` | scripts/generate-blog-posts.js:89-91 | once a day throws, the later days are not processed |
| `BlogPosts.WritePosts` | scripts/generate-blog-posts.js:36-87 | the loop leaves the directory with the run's posts written in day order, and reports whether it stopped early |
| `BlogPosts.RunLeavesMarkers` | scripts/generate-blog-posts.js:41-85 | after a run that did not stop, every day's post file records that day's commit count |
| `BlogPosts.AllSkippedWritesNothing` | scripts/generate-blog-posts.js:41-46 | when every day's post already records its count, nothing is written |
| `BlogPosts.Generate` | scripts/generate-blog-posts.js:10-91 | the script on a `git log` output leaves the directory as the run over its days describes, and reports whether a day stopped it |
| `BlogPosts.SecondRunWritesNothing` | scripts/generate-blog-posts.js:41-46 | running the script again on the same log over the directory it left writes nothing |

## Left out

- HTTP clients (`createApiClient`, base URLs, access tokens) are left out. Each API call is a reply parameter of the method that makes it.
- `ErrorHandler.handleError` calls from inside the stores, and all console logging, are not modelled. They change no store state.
- Timers are not modelled:
  - the error display's 5-second auto-dismiss is returned as a delay, and its effect is `RemoveMessage`;
  - the error handler's auto-hide is the `AutoHide` method;
  - the dialogs' 100 ms polling is the `Poll` step;
  - the language store's 50 ms wait is described below.
- Languages.LanguageStore.EnsureLoaded: while another load is in flight, the source polls until it ends and then returns the cache. The model returns the cache as it stands, because interleaving of concurrent calls is not modelled.
- Concurrency between in-flight actions is not modelled. Every method runs to completion.
- The 401 redirect and the `localStorage` clearing in `handleAuthenticationError` are not modelled: they are browser navigation and storage side effects. `Auth.AuthStore` keeps the stored token as a field.
- Auth.TokenFromResponse: a response that is not a string is not modelled. Responses are strings.
- The loading-overlay calls from the view logic are not modelled. Neither are its optional message texts (`show('Saving...')`), which the store ignores.
- `ProjectDetailLogic` `deleteProject`, `fetchProject` and `initializeComponent` are not modelled, nor is `ProjectsLogic`'s `updateProjectStatus`, `handleDeleteProject` and `fetchProjects`. They only sequence store calls, dialogs and notices that are modelled on their own.
- ProjectDetailLogic.ProjectDetail.SaveProject returns the store request it would make. The store's own update of its lists is `Projects.ProjectStore.CreateProject` / `UpdateProject`.
- ProjectDetailLogic.ProjectDetail.HandleStatusToggle returns the store request in the same way.
- ProjectDetailLogic.FormFromProject: a null `internal_name` (the type says it is a string) shows as an empty field.
- GlossarySpellings.NewSpellingStore: the store's update is the corrected `Catalog.CatalogStore.Update`, which replaces the entry in `glossarySpellings`. As written, the answer goes into the separate exported `glossary` array and the list stays stale; that write is `GlossarySpellings.UpdateAsWritten`, and `glossary` is not a field of the store model.
- GlossaryTranslations.NewTranslationStore: the same holds for `glossaryTranslations`: the corrected update stands in for the write into `glossary` (the same `GlossarySpellings.UpdateAsWritten`), and `glossary` is not a field.
- CommitDocs.LogLineRoundTrip: a commit subject holding `|` is not read back. `split('|', 3)` ends the title at its first bar and puts the rest of the subject, then a bar, in front of the author (`CommitDocs.TitleWithBarAsWritten`); the model parses as the script does and states its round trips only for bar-free titles.
- ProjectsLogic.ProjectsView.FilteredProjects: the view sorts with the corrected comparator, which puts a project without a name last; the comparator as written (`internal_name ?? ''`) is `ProjectsLogic.SortProjectsAsWritten`, see Findings.
- BlogPosts.GroupByDate: the buckets are built from the corrected line parse, which ends the subject at the last bar; the `line.split('|')` as written is `BlogPosts.ParseLineAsWritten`, see Findings.
- BlogPosts.Generate: the run uses the corrected line parse in the same way, so a subject holding a bar is kept whole.
- ErrorHandler.EntriesOf: the field errors are taken in insertion order. `Object.entries` lists integer-like keys first, in ascending order; such field names are not modelled.
- The translation store has no sorted getter. `Catalog.CatalogStore.SortedEntries` exists for the other four catalog stores.
- `localeCompare` is modelled as lexicographic order on code points, and `toLowerCase` on ASCII letters only. No locale collation or Unicode case mapping.
- JavaScript sorts compare UTF-16 code units, which differ from code-point order only for characters outside the Basic Multilingual Plane.
- `toLocaleDateString` is a parameter of the blog generator (`titleOf`, `headingOf`): locale data is outside the model.
- Python's `datetime.fromisoformat` is a parameter of the file name (`parsed`): calendar validation is outside the model.
- `datetime.now()` is a parameter of the index footer.
- Partners.PartnerStore.FetchAllPartners takes a ghost page bound at which the server says it is on the last page. A server that never stops (the source would loop forever) is outside the model.
- Vue Router's path matching and parameters are not modelled. The guard receives the matched route record.
- JSON: duplicate keys, numbers and booleans as messages, and floating-point statuses are not modelled.
- The commit-docs script's `run()` orchestration is not modelled, including:
  - repository validation;
  - `git fetch`;
  - `run_git_command`'s own `strip()` of the output (the output is a parameter);
  - file writes;
  - read exceptions (a file is read as its content).
- The blog script's `execSync` and `--since` date computation are not modelled (the log output is a parameter), nor are `mkdirSync`, console output and `process.exit`.
- JavaScript `Object` prototype keys (a date equal to `constructor`) are not modelled: dates are plain map keys.
- CommitIndex.FrontMatterHash and CommitIndex.PageEntry are stated for any lines after the front matter. This is stronger than the page template alone.

## Findings

| source | as written | input that shows it | evidently intended | confidence | as-written member | corrected member |
|---|---|---|---|---|---|---|
| docs/generate-commit-docs.py:76-97 | the newest `*.md` file, `index.md` included, is read for `commit_hash:`; `run()` writes `index.md` last | any run that documented at least one commit: the next run finds the index newest, reads no hash and re-documents the whole history | look only at commit pages, so the last documented commit is found | high (not executed) | `CommitIndex.AsWrittenReadsTheIndex` | `CommitIndex.CorrectedFindsThePage` |
| src/stores/glossarySpelling.ts:151-154 | the index is found in `glossarySpellings` but the answer is written to `glossary[index]` | spellings `[s1 "colour"]`, update of `s1` to `"color"`: `glossarySpellings` still holds `"colour"` | replace the entry in `glossarySpellings` (the same holds for src/stores/glossaryTranslation.ts:146-151) | high (not executed) | `GlossarySpellings.UpdateAsWrittenExample` | `Catalog.CatalogStore.Update` |
| src/views/__tests__/ProjectsLogic.test.ts:148-150 | `internal_name ?? ''` turns a missing name into `''`, so the later null check never fires and the project sorts first | `[{internal_name: 'Active Project'}, {internal_name: null}]` sorted ascending by name | projects without a value sort last, as for every other key | medium (not executed) | `ProjectsLogic.NullNameFirstAsWritten` | `ProjectsLogic.SortProjectsSpec` |
| scripts/generate-blog-posts.js:22 | `line.split('\|')` cuts at every bar, so a subject with a bar is truncated and its tail is taken as the author | `abc1234\|2024-01-15\|fix: a\|b\|Alice` gives subject `fix: a` and author `b` | hash and date end at the first two bars, the author starts after the last one | high (not executed) | `BlogPosts.SubjectWithBarExample` | `BlogPosts.ParseLineRoundTrip` |
