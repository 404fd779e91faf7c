# jobseker in Dafny

A model of the job-search application *jobseker*, with proofs about it. The application is a React front end with a small search service. The model covers:

- **The search engine** (`jobApi.ts`):
  - the rate limiter, one counter per source;
  - the fan-out over the three sources;
  - the client-side filter and the stable sort;
  - the facet count tables;
  - the response cache, keyed by `JSON.stringify(filters)`.
- **The search controller hook** (`useJobSearch.ts`) and the search page that drives it (`JobSearchInterface.tsx`).
- **The auth store** (`authStore.ts`): its four `set` actions, written as functions on a state record.
- **The profile screens**:
  - the page's list handlers (`Profile.tsx`);
  - the two drag-reorderable managers (`WorkExperienceManager.tsx`, `EducationManager.tsx`);
  - the profile dialog with its validation (`EditProfileDialog.tsx`);
  - the skills form (`SkillsForm.tsx`).
- **The search boxes**:
  - the keyboard-driven list (`SearchBar.tsx`);
  - the recent-search list (`EnhancedSearchBar.tsx`);
  - the suggestion card with its two effects (`EnhancedJobSearch.tsx`).
- **The remaining components**:
  - the onboarding wizard (`WelcomeDialog.tsx`);
  - the job card's text (`JobCard.tsx`);
  - the two résumé uploaders (`ResumeSearch.tsx`, `SearchBarWithResume.tsx`).

How the model is built:

- Pure logic is written as functions with lemmas.
- Component state is written as a `class`: one field per `useState`, one method per handler.
- Each method's `ensures` states its whole new state in terms of the functions the lemmas are about.
- An `async` handler is split at its `await`:
  - a `Begin…` method runs up to the await;
  - an `End…` method runs the rest;
  - the awaited call's outcome is a parameter of `End…`.
- A filter is an *ordered* JavaScript object, `seq<Prop>` (module `FilterObject`). Spread and update keep the keys' first-creation order, and `undefined` properties are kept. Both matter because the cache key is the filter's JSON text.
- Modules follow the source files:

| module | source |
|---|---|
| `Jobs`, `FilterObject` | `jobs.ts` |
| `Text` | string helpers shared by the modules |
| `StableSort`, `JobMatching`, `FacetTables`, `CacheKey`, `JobApi` | `jobApi.ts` |
| `JobSearchHook` | `useJobSearch.ts` |
| `JobSearchPanel` | `JobSearchInterface.tsx` |
| `AuthStore` | `authStore.ts` |
| `ProfileTypes` | `profile.ts` |
| `ProfileLists`, `Reorder` | list helpers shared by the profile screens |

Each remaining component has a module of its own name.

Behaviours of the code a reader might not expect:
- **The cache key depends on the order of the filter's fields.** Two filters with the same criteria in a different order miss each other's cache entry (`CacheKey.CacheKeyDependsOnOrder`).
- **`total` and the facets count every fetched job, not the filtered ones** (`JobApi.BuildResponseSpec`).
- **A fetch replaces the shown jobs; it does not append to them.**
- **Fetches carry no generation tag.** The model has no last-write-wins logic.
- **"Load More Jobs" needs more than a short page.** It is offered only when nothing is loading, there is no error, at least one job is shown and fewer jobs are shown than the total (`JobSearchPanel.ShowLoadMore`). Since `total` counts every fetched job, after a search this means some fetched job passed the filter and some failed it (`JobSearchPanel.LoadMoreAfterSearch`).
- **A salary filter starts one-sided.** The first number typed into either salary box creates a salary object with that key alone. The other comparison is then with `undefined`, so every job is rejected until both boxes hold a number (`JobMatching.OneSidedSalaryRejectsAll`). The salary object keeps its keys in typing order, so the same two bounds typed in the other order give a different cache key (`CacheKey.SalaryKeyDependsOnTypingOrder`).

## Model

| member | source | states |
|---|---|---|
| FilterObject.Get | jobs.ts:23-39 | reading a key the object lacks gives `undefined` |
| FilterObject.GetAt | jobs.ts:23-39 | on an object with distinct keys, reading a present key gives the value of its one property |
| FilterObject.PutShape | jobs.ts:23-39 | `{...f, [k]: v}` keeps the length when `k` exists, appends `k` at the end otherwise, and keeps every key in place |
| FilterObject.PutLength | jobs.ts:23-39 | overwriting an existing key keeps the length; a missing key is appended as the last property |
| FilterObject.PutFieldsInPlace | jobs.ts:23-39 | every key of the object is still at its position after the update |
| FilterObject.GetPut | useJobSearch.ts:60-63 | after the update, `k` reads `v` and every other key reads as before |
| FilterObject.PutKeys | useJobSearch.ts:60-63 | the update keeps keys distinct and adds exactly `k` to the key set |
| FilterObject.GetSpread | useJobSearch.ts:52-56 | after `{...f, ...g}`, a key of `g` reads as in `g` and any other key as in `f` |
| FilterObject.SpreadKeys | useJobSearch.ts:52-56 | spreading keeps keys distinct; the result's keys are those of `f` and `g` |
| FilterObject.SpreadKeepsOrder | useJobSearch.ts:52-56 | the keys `f` already had stay, in order, as a prefix of the result |
| FilterObject.WithBoundSpec | JobSearchInterface.tsx:161-175 | `{...salary, [b]: n}` sets bound `b` to `n`, keeps the other bound (or its absence), keeps the keys distinct, keeps an existing first key first, and on `undefined` creates an object with `b` alone |
| FilterObject.PutElements | JobSearchInterface.tsx:46-52 | on an object with distinct keys, the update rewrites only property `k` and leaves every other property where it is |
| Text.TrimStartEmptyIffAllSpace | EditProfileDialog.tsx:79 | trimming the start gives "" exactly when the string is all white space |
| Text.TrimEmptyIffAllSpace | EditProfileDialog.tsx:79-82 | `!s.trim()` holds exactly when every character is white space |
| Text.IsBlank | SearchBar.tsx:77 | `!s.trim()` as a test: true exactly when every character is white space |
| Text.Lower | jobApi.ts:111 | `toLowerCase` keeps the length and lower-cases each ASCII capital |
| Text.LowerIdempotent | jobApi.ts:111-116 | lower-casing twice is lower-casing once |
| Text.Contains | jobApi.ts:111 | `hay.includes(needle)` holds exactly when `needle` occurs at some position of `hay` |
| Text.ContainsEmpty | jobApi.ts:110-112 | the empty string is contained in every string |
| Text.NatToString | JobCard.tsx:21-23 | a non-empty run of decimal digits without a leading zero |
| Text.IntToString | JobCard.tsx:21-23 | the decimal text, with a leading minus exactly for negatives |
| StableSort.Insert | jobApi.ts:106 | insertion adds exactly one element: length and multiset |
| StableSort.Sort | jobApi.ts:106 | the sort is a permutation of its input |
| StableSort.InsertNonIncreasing | jobApi.ts:106 | inserting into a key-ordered list keeps it ordered, and puts the new element first among its equal keys |
| StableSort.SortNonIncreasing | jobApi.ts:106 | the sort is ordered by key, largest first, and keeps the input order among equal keys (stability) |
| StableSort.SortUnique | jobApi.ts:106 | two key-ordered lists that agree on the order of each group of equal keys are equal |
| StableSort.SortIsTheStableSort | jobApi.ts:106 | any stable, key-ordered arrangement of the input equals `Sort`, so the result does not depend on the algorithm |
| JobMatching.ApplyFiltersMeaning | jobApi.ts:109-131 | a job passes exactly when all five clauses (keyword, location or remote, salary overlap with both bounds present, experience, type) hold |
| JobMatching.OneSidedSalaryRejectsAll | jobApi.ts:118-121 | a salary object with only one key rejects every job, since the comparison with the missing key is false |
| JobMatching.OneSidedSalaryExample | jobApi.ts:118-121 | a job paying 80000 to 120000 fails a filter with only "Min" set to 50000, but passes the corrected clause |
| JobMatching.MatchesSalaryIntended | jobApi.ts:118-121 | the corrected salary clause: a job with both salary numbers passes when it meets every bound that is set |
| JobMatching.SalaryIntendedAgrees | jobApi.ts:118-121 | with both bounds set, or no salary filter, the corrected clause and the written one agree |
| JobMatching.SalaryIntendedOneBound | jobApi.ts:118-121 | with only a minimum set, the corrected clause keeps exactly the jobs with both salary numbers whose maximum reaches it; only a maximum, those whose minimum does not exceed it |
| JobMatching.SalaryIntendedNarrows | jobApi.ts:118-121 | under the corrected clause, filling an empty salary box only narrows the jobs kept |
| JobMatching.FilterJobs | jobApi.ts:105 | every job kept satisfies the filter |
| JobMatching.FilterJobsCount | jobApi.ts:105 | each matching job is kept as often as it was fetched, and no other job is kept |
| JobMatching.FilterJobsConcat | jobApi.ts:105 | filtering works piecewise on a concatenation, so it keeps order |
| JobMatching.FilterJobsSize | jobApi.ts:105 | filtering never lengthens the list; it shortens it exactly when some job fails, and empties it exactly when every job fails |
| JobMatching.ProcessResultsSize | jobApi.ts:103-107 | sorting keeps the number of jobs the filter kept |
| JobMatching.ProcessResults | jobApi.ts:103-143 | the result is the matching jobs with their multiplicity, ordered by the `sortBy` key largest first, ties in fetched order |
| FacetTables.FirstIndex | jobApi.ts:171-173 | the first position holding `v` |
| FacetTables.IncrementSpec | jobApi.ts:171-173 | `incrementMapCount` adds one to the entry of `v` where it stands, or appends `(v, 1)`, and keeps values distinct |
| FacetTables.TallyOfValues | jobApi.ts:154-160 | the count table holds each seen value exactly once and no unseen value |
| FacetTables.TallyOfCounts | jobApi.ts:154-160 | each count is the number of occurrences of its value, and the counts sum to the number of jobs |
| FacetTables.TallyOfOrder | jobApi.ts:154-160 | entries stand in the order their values were first seen (`Map` insertion order) |
| FacetTables.DistinctValuesPermutation | jobApi.ts:175-179 | rearranging a table keeps its values distinct |
| FacetTables.SumCountsPermutation | jobApi.ts:175-179 | rearranging a table keeps the sum of its counts |
| FacetTables.FacetTableSpec | jobApi.ts:171-179 | a facet table has: each value once; its occurrence count; counts summing to the job count; largest count first; ties in first-seen order |
| FacetTables.ValuesOf | jobApi.ts:155-159 | the field's value in each job, in job order |
| FacetTables.TallyStep | jobApi.ts:154-160 | one more job bumps the table of the shorter prefix |
| FacetTables.FacetsOfSpec | jobApi.ts:145-169 | each of the five published tables is a facet table of its own field |
| FacetTables.TalliesField | jobApi.ts:154-160 | the `forEach` pass builds, for each field, that field's count table |
| FacetTables.SortedTalliesAreFacets | jobApi.ts:162-168 | sorting the five count tables gives the five facet tables |
| FacetTables.GenerateFacets | jobApi.ts:145-169 | the loop's result equals the specified facets, and each table is a facet table of its field |
| CacheKey.FieldNamed | jobs.ts:23-39 | a recognised property name names a field that prints back as that name |
| CacheKey.FieldNamedInverse | jobs.ts:23-39 | every field's name is recognised as that field |
| CacheKey.Defined | jobApi.ts:37-39 | the properties `JSON.stringify` writes: none holding `undefined` |
| CacheKey.ParseCharsEscape | jobApi.ts:37-39 | an escaped JSON string literal reads back as the string |
| CacheKey.ParseIntText | jobApi.ts:37-39 | a printed number reads back as the number |
| CacheKey.ParseBoundText | jobApi.ts:37-39 | a printed `"min":n` or `"max":n` reads back as that bound |
| CacheKey.ParseRangeText | jobApi.ts:37-39 | a printed salary object, with one key or two in their order, reads back as itself |
| CacheKey.ParseValueText | jobApi.ts:37-39 | every printed property value (string, number, boolean, salary object) reads back as itself |
| CacheKey.ParseMemberText | jobApi.ts:37-39 | a printed `"key":value` member reads back as the property |
| CacheKey.ParseMembersText | jobApi.ts:37-39 | a printed member list reads back as the properties |
| CacheKey.ParseGetCacheKey | jobApi.ts:37-39 | the key reads back as exactly the filter's defined properties, in order |
| CacheKey.CacheKeyInjective | jobApi.ts:37-39 | two filters share a key exactly when their defined properties are equal and in the same order |
| CacheKey.CacheKeyDependsOnOrder | jobApi.ts:37-39 | the same two criteria in the other order give a different key |
| CacheKey.DefinedPutDiffers | jobApi.ts:37-39 | writing two different defined values to one key gives two different written objects |
| CacheKey.SalaryKeyDependsOnTypingOrder | jobApi.ts:37-39 | typing Min then Max, or Max then Min, gives the same two bounds but two different cache keys |
| JobApi.AdmitSpec | jobApi.ts:21-35 | a check counts one more request for its source only below the cap of 100, touches no other source, and keeps every count at most 100 |
| JobApi.ReleasedSpec | jobApi.ts:30-32 | the timer gives back one slot of its source, never below zero, and touches nothing else |
| JobApi.JobApi.constructor | jobApi.ts:4-12 | empty cache and rate limiter |
| JobApi.JobApi.CheckRateLimit | jobApi.ts:21-35 | allowed exactly when the count is below 100; the counters become `Admit` of the old ones; the cap stays respected |
| JobApi.JobApi.Release | jobApi.ts:30-32 | the counters become `Released` of the old ones: one less, not below zero |
| JobApi.JobApi.FetchFromSource | jobApi.ts:41-63 | a refused source settles rejected with the rate-limit error; an admitted one settles as its delivery |
| JobApi.JobApi.FetchAll | jobApi.ts:74-77 | the sources are asked in list order; the results and the new counters are those of `FanOut` |
| JobApi.Respond | jobApi.ts:79-89 | the response is `BuildResponse` of the fulfilled jobs |
| JobApi.JobApi.SearchJobs | jobApi.ts:65-101 | a fresh entry is returned with nothing changed; otherwise the three sources are asked in order, and the response is built from the fulfilled results and stored under the key |
| JobApi.FulfilledJobsConcat | jobApi.ts:79-83 | collecting the fulfilled results works piecewise |
| JobApi.FanOutAgainstOldCounts | jobApi.ts:74-77 | within one search the three sources are distinct, so each is judged against the counts from before the search |
| JobApi.FetchedJobsInSourceOrder | jobApi.ts:74-83 | the fetched jobs are indeed's, then linkedin's, then glassdoor's; a source contributes only if it was under the cap and its call resolved |
| JobApi.FanOutCounts | jobApi.ts:74-77 | each source's count goes up by one if it was under the cap; no other count changes |
| JobApi.BuildResponseSpec | jobApi.ts:85-89 | `total` is the number of fetched jobs and at least the number returned; each facet table counts the fetched jobs |
| JobApi.LookupAfterStore | jobApi.ts:66-94 | after a store, filters with the same defined properties in the same order get the stored response until the 5-minute window closes; all others get what they got before |
| JobSearchHook.SearchFiltersSpec | useJobSearch.ts:51-57 | `search(p)`: every field of `p` overrides, every other field is kept, and the page is 1 even when `p` carries a page |
| JobSearchHook.SearchFiltersKeepsOrder | useJobSearch.ts:51-57 | the fields already set keep their places, and new ones come after them |
| JobSearchHook.LoadMoreSpec | useJobSearch.ts:59-64 | `loadMore` moves a numbered page on by one, starts an unset page at 2, and changes no other field |
| JobSearchHook.JobSearch.constructor | useJobSearch.ts:16-28 | the initial filters, no jobs, empty facets, total 0, not loading, no error |
| JobSearchHook.JobSearch.BeginFetch | useJobSearch.ts:33-36 | loading on, error cleared, results untouched |
| JobSearchHook.JobSearch.EndFetch | useJobSearch.ts:36-44 | on success the response's jobs, facets and total; on failure the error (a thrown non-`Error` becomes "Failed to fetch jobs") with the old results kept; loading off either way |
| JobSearchHook.JobSearch.Search | useJobSearch.ts:51-57 | the filters become `SearchFilters(old, new)`; nothing else changes |
| JobSearchHook.JobSearch.LoadMore | useJobSearch.ts:59-64 | the filters become `LoadMoreFilters(old)`; nothing else changes |
| JobSearchHook.Fetch | useJobSearch.ts:32-45 | a whole fetch always ends with loading off; a success shows the response's jobs, total and facets with no error; a failure sets the error and leaves the shown results alone; the filters stay as they were |
| JobSearchPanel.ActiveChips | JobSearchInterface.tsx:238-239 | a chip is shown exactly for a truthy property other than page, limit and sortBy |
| JobSearchPanel.InitialFiltersHaveNoChips | JobSearchInterface.tsx:7-13 | the page starts with no chips, and the initial filter has distinct keys |
| JobSearchPanel.ClearFilterChips | JobSearchInterface.tsx:50-52 | clearing a filter hides its chip and keeps every other chip |
| JobSearchPanel.ShowLoadMore | JobSearchInterface.tsx:272-296 | "Load More Jobs" is offered only when nothing is loading, there is no error, at least one job is shown and fewer jobs are shown than the total |
| JobSearchPanel.LoadMoreAfterSearch | JobSearchInterface.tsx:272-296 | for a response built from the fetched jobs, the button is offered exactly when some fetched job passes the filter and some fails it |
| JobSearchPanel.FetchThenOfferLoadMore | JobSearchInterface.tsx:272-296 | after a successful fetch the button is offered exactly when the response holds some jobs but fewer than its total; after a failure it is not offered; the hook ends as `JobSearchHook.Fetch` leaves it |
| JobSearchPanel.SearchPanel.constructor | JobSearchInterface.tsx:16-17 | panel closed, the initial filters selected |
| JobSearchPanel.SearchPanel.HandleFilterChange | JobSearchInterface.tsx:46-48 | the selected filters become `{...prev, [key]: value}` |
| JobSearchPanel.SearchPanel.SalaryChange | JobSearchInterface.tsx:161-175 | typing into a salary box sets that bound, keeps the other bound as it was (or unset), keeps the bounds distinct, and changes no other property |
| JobSearchPanel.SearchPanel.ClearFilter | JobSearchInterface.tsx:50-52 | the key is set to `undefined` in place |
| JobSearchPanel.SearchPanel.ClearAll | JobSearchInterface.tsx:216-219 | back to the initial filters, panel closed |
| JobSearchPanel.SearchPanel.ToggleFilters | JobSearchInterface.tsx:84 | the panel flips, the filters are unchanged |
| JobSearchPanel.SearchPanel.ApplyAndSearch | JobSearchInterface.tsx:41-44 | the panel closes and the hook's filters become `SearchFilters(old, selected)`; the hook's jobs, total, facets, loading flag and error stay as they were |
| AuthStore.SetUser | authStore.ts:58 | the user is stored, and signed in exactly when there is one |
| AuthStore.UpdateProfile | authStore.ts:59-61 | the signed-in flag is unchanged; a user stays a user and none stays none; consistency is kept |
| AuthStore.MergePrivacy | authStore.ts:65-68 | `hideJobSearch` is set; the two visibilities are kept from the current settings, or absent when there were none |
| AuthStore.UpdatePrivacySettings | authStore.ts:62-70 | the signed-in flag is unchanged; a user stays a user and none stays none; consistency is kept |
| AuthStore.SignOut | authStore.ts:71 | signed out with no user |
| AuthStore.ConsistentAlways | authStore.ts:55-72 | the store starts consistent, and every action keeps "signed in iff there is a user" |
| AuthStore.UpdateNothing | authStore.ts:59-61 | an update with no fields changes nothing |
| AuthStore.UpdateProfileTwice | authStore.ts:59-61 | two updates in a row are the one combined update, the later winning |
| AuthStore.PrivacyIsProfileUpdate | authStore.ts:62-70 | for a signed-in user, a privacy update is a profile update of `privacySettings` alone |
| ProfileLists.Without | Profile.tsx:64-66 | `filter` keeps only entries it does not drop, and never grows the list |
| ProfileLists.WithoutCount | Profile.tsx:64-66 | each kept entry keeps its multiplicity; no dropped entry remains |
| ProfileLists.WithoutConcat | Profile.tsx:64-66 | deleting works piecewise on a concatenation, so the kept order is the original order |
| ProfileLists.WithoutNothing | Profile.tsx:64-66 | a list with nothing to drop is returned as it is |
| ProfileLists.UpdateWhere | Profile.tsx:88-95 | `map` rewrites exactly the selected entries, position by position |
| ProfileLists.FindIndex | WorkExperienceManager.tsx:51-52 | the first matching position, or -1 exactly when nothing matches |
| ProfileLists.Saved | WorkExperienceManager.tsx:67-69 | with a truthy editing id the entries with that id are merged in place; otherwise the new entry is appended |
| Reorder.SpliceStart | WorkExperienceManager.tsx:55-56 | `splice`'s start: a negative value counts from the end, clamped to the length |
| Reorder.RemoveAt | WorkExperienceManager.tsx:55 | `splice(k, 1)` removes the entry at `k` and closes up |
| Reorder.InsertAt | WorkExperienceManager.tsx:56 | `splice(k, 0, x)` puts `x` at `k` and moves the rest up |
| Reorder.DragReorder | WorkExperienceManager.tsx:54-56 | the two splices keep length and contents, and put the dragged entry at the target position |
| Reorder.DragReorderElements | WorkExperienceManager.tsx:54-56 | every position holds the moved element: entries between source and target shift by one toward the source |
| Reorder.DragReorderIsMove | WorkExperienceManager.tsx:54-56 | a list that agrees with the move at every position is the splice result |
| Reorder.Reordered | WorkExperienceManager.tsx:54-58 | copying the list into an array and moving the entry there gives exactly `DragReorder` of the list |
| Reorder.MoveItem | WorkExperienceManager.tsx:54-56 | the in-place shift on an array leaves exactly `DragReorder` of the old contents |
| ExperienceManager.Merge | WorkExperienceManager.tsx:68 | `{...item, ...form}` keeps id and logo and shows the submitted form |
| ExperienceManager.NewExperience | WorkExperienceManager.tsx:69 | a new entry has the given id, no logo, and the submitted form |
| ExperienceManager.SaveUnchangedForm | WorkExperienceManager.tsx:68 | saving the form as opened changes nothing exactly when the entry has an end date (otherwise it becomes "") |
| ExperienceManager.DeleteSpec | WorkExperienceManager.tsx:81-84 | delete removes exactly the entries with the id, keeping the others with their multiplicity and order |
| ExperienceManager.SavedItemsSpec | WorkExperienceManager.tsx:67-69 | a save edits the entries with the editing id in place, or appends one new entry |
| ExperienceManager.DragOverSpec | WorkExperienceManager.tsx:48-60 | the reorder moves the dragged entry to the target; an unknown dragged id moves the last entry |
| ExperienceManager.Manager.constructor | WorkExperienceManager.tsx:31-36 | the given entries; nothing edited or dragged; not saving; no error |
| ExperienceManager.Manager.DragStart | WorkExperienceManager.tsx:38-41 | the dragged id is set |
| ExperienceManager.Manager.DragEnd | WorkExperienceManager.tsx:43-46 | the dragged id is cleared |
| ExperienceManager.Manager.SetEditing | WorkExperienceManager.tsx:90 | the editing id is set |
| ExperienceManager.Manager.DragOver | WorkExperienceManager.tsx:48-60 | with a truthy dragged id other than the target, the list is reordered by `DragReorder`; otherwise it is unchanged |
| ExperienceManager.Manager.BeginSave | WorkExperienceManager.tsx:62-69 | saving on, error cleared; the pending list is `SavedItems` |
| ExperienceManager.Manager.EndSave | WorkExperienceManager.tsx:71-79 | on success the pending list is stored and editing ends; on failure the error message; saving off |
| ExperienceManager.Manager.Delete | WorkExperienceManager.tsx:81-84 | the list becomes `WithoutId` of the old one |
| EducationManager.Merge | EducationManager.tsx:69 | `{...item, ...form}` keeps id and logo and shows the submitted form |
| EducationManager.NewEducation | EducationManager.tsx:70 | a new entry has the given id, no logo, and the submitted form |
| EducationManager.SaveUnchangedForm | EducationManager.tsx:69 | saving the form as opened changes nothing exactly when location, GPA and description are all present |
| EducationManager.DeleteSpec | EducationManager.tsx:82-85 | delete removes exactly the entries with the id, keeping the others with their multiplicity and order |
| EducationManager.SavedItemsSpec | EducationManager.tsx:68-70 | a save edits the entries with the editing id in place, or appends one new entry |
| EducationManager.DragOverSpec | EducationManager.tsx:49-61 | the reorder moves the dragged entry to the target; an unknown dragged id moves the last entry |
| EducationManager.Manager.constructor | EducationManager.tsx:32-37 | the given entries; nothing edited or dragged; not saving; no error |
| EducationManager.Manager.DragStart | EducationManager.tsx:39-42 | the dragged id is set |
| EducationManager.Manager.DragEnd | EducationManager.tsx:44-47 | the dragged id is cleared |
| EducationManager.Manager.SetEditing | EducationManager.tsx:91 | the editing id is set |
| EducationManager.Manager.DragOver | EducationManager.tsx:49-61 | with a truthy dragged id other than the target, the list is reordered by `DragReorder`; otherwise it is unchanged |
| EducationManager.Manager.BeginSave | EducationManager.tsx:63-70 | saving on, error cleared; the pending list is `SavedItems` |
| EducationManager.Manager.EndSave | EducationManager.tsx:72-80 | on success the pending list is stored and editing ends; on failure the error message; saving off |
| EducationManager.Manager.Delete | EducationManager.tsx:82-85 | the list becomes `WithoutId` of the old one |
| EditProfileDialog.WithField | EditProfileDialog.tsx:68-69 | `{...formData, [field]: value}` sets that field and keeps the others |
| EditProfileDialog.FieldsDetermineForm | EditProfileDialog.tsx:68-69 | a form is determined by its six fields |
| EditProfileDialog.EmailPatternTestSound | EditProfileDialog.tsx:84 | the shortest-match check only accepts strings the pattern `\S+@\S+\.\S+` matches |
| EditProfileDialog.EmailPatternTestComplete | EditProfileDialog.tsx:84 | every match of the pattern gives the check its `@` and `.` |
| EditProfileDialog.EmailPatternTestCorrect | EditProfileDialog.tsx:84 | the check accepts exactly the strings the unanchored pattern matches |
| EditProfileDialog.Dialog.constructor | EditProfileDialog.tsx:21-31 | the initial data, no errors, not submitting |
| EditProfileDialog.Dialog.FieldChange | EditProfileDialog.tsx:68-74 | the field is set; a non-empty error on it is blanked; other errors stay |
| EditProfileDialog.Dialog.ValidateForm | EditProfileDialog.tsx:76-90 | errors only for name and email. Name: "Name is required" iff blank. Email: "Email is required" if blank, else "Invalid email format" iff the pattern fails. Valid iff no errors |
| EditProfileDialog.Dialog.BeginSubmit | EditProfileDialog.tsx:92-97 | the errors are exactly those of the validation: "Name is required" for a blank name, "Email is required" for a blank email, "Invalid email format" for an email not matching the pattern; proceeds exactly when there are none, and then submitting is on |
| EditProfileDialog.Dialog.EndSubmit | EditProfileDialog.tsx:98-105 | closes exactly when the save succeeded; submitting off either way |
| ProfilePage.EndorseSpec | Profile.tsx:87-95 | each achievement with the id gains one endorsement; others are unchanged; the total grows by the number with the id |
| ProfilePage.SaveProfileSpec | Profile.tsx:97-107 | the saved profile carries the six dialog fields and keeps every other user field |
| ProfilePage.Page.constructor | Profile.tsx:22-54 | one placeholder experience, education and skill with id "1"; no achievements or certifications |
| ProfilePage.Page.SaveEducation | Profile.tsx:60-62 | the entry is appended; nothing else changes |
| ProfilePage.Page.DeleteEducation | Profile.tsx:64-66 | the entries with the id are removed; nothing else changes |
| ProfilePage.Page.SaveExperience | Profile.tsx:68-70 | the entry is appended; nothing else changes |
| ProfilePage.Page.DeleteExperience | Profile.tsx:72-74 | the entries with the id are removed; nothing else changes |
| ProfilePage.Page.BeginSaveAchievement | Profile.tsx:76-77 | the saving flag is on |
| ProfilePage.Page.EndSaveAchievement | Profile.tsx:80-84 | the achievement is appended and the flag is off |
| ProfilePage.Page.EndorseAchievement | Profile.tsx:87-95 | the achievements become `Endorse` of the old ones |
| ProfilePage.Page.SaveProfile | Profile.tsx:97-107 | the store gets `updateProfile` with the six fields, and the dialog closes |
| ProfilePage.Page.SaveSkill | Profile.tsx:109-111 | the skill is appended |
| ProfilePage.Page.DeleteSkill | Profile.tsx:113-115 | the skills with the id are removed |
| ProfilePage.Page.SaveCertification | Profile.tsx:117-119 | the certification is appended |
| ProfilePage.Page.DeleteCertification | Profile.tsx:121-123 | the certifications with the id are removed |
| ProfilePage.SubmitProfile | EditProfileDialog.tsx:92-105 | the dialog shows the validation errors; a valid form updates the profile and closes the dialog; an invalid one changes neither store nor dialog flag; the page's lists stay as they were either way |
| SkillsForm.DuplicateSpec | SkillsForm.tsx:34 | the duplicate test ignores case, and a just-added skill is a duplicate of itself |
| SkillsForm.Form.constructor | SkillsForm.tsx:22-29 | a blank skill in "Programming Languages" with no endorsements; not saving; no error |
| SkillsForm.Form.BeginSubmit | SkillsForm.tsx:32-40 | a duplicate name sets "This skill already exists in your profile" and stops; otherwise saving on, error cleared |
| SkillsForm.Form.NameChange | SkillsForm.tsx:86-89 | only the skill's name changes; saving and the error stay as they were |
| SkillsForm.Form.CategoryChange | SkillsForm.tsx:102 | only the skill's category changes; saving and the error stay as they were |
| SkillsForm.Form.EndSubmit | SkillsForm.tsx:41-49 | closes exactly when saved; a failure sets "Failed to add skill. Please try again."; saving off |
| SearchBar.StepHighlight | SearchBar.tsx:51-60 | down moves one on but stops at the last suggestion; up moves one back, to -1 at the top; the highlight stays in range |
| SearchBar.Bar.constructor | SearchBar.tsx:23-25 | empty query, list closed, nothing highlighted |
| SearchBar.Bar.InputChange | SearchBar.tsx:40-45 | the list opens exactly for 3 or more characters; the highlight resets to -1 |
| SearchBar.Bar.Search | SearchBar.tsx:76-81 | a non-blank query is handed to `onSearch` and the list closes; a blank one does nothing |
| SearchBar.Bar.SuggestionClick | SearchBar.tsx:83-88 | the query becomes the suggestion's text, the suggestion is reported, and the list closes |
| SearchBar.Bar.ClearInput | SearchBar.tsx:90-93 | the query is emptied |
| SearchBar.Bar.KeyDown | SearchBar.tsx:47-74 | a closed list ignores keys. Arrows step the highlight; Enter picks the highlighted suggestion or searches; Escape closes the list. The highlight stays in range |
| SearchBar.HighlightBounded | SearchBar.tsx:51-60 | after any sequence of arrow keys the highlight is -1 or a position in the list |
| EnhancedSearchBar.PushRecent | EnhancedSearchBar.tsx:51 | the new search comes first, followed by at most four earlier ones in order |
| EnhancedSearchBar.PushAllSpec | EnhancedSearchBar.tsx:43-54 | after several searches, the list holds the last five or fewer, newest first |
| EnhancedSearchBar.Bar.constructor | EnhancedSearchBar.tsx:26-29 | empty query and location, panel closed, no recent searches |
| EnhancedSearchBar.Bar.Search | EnhancedSearchBar.tsx:43-54 | a non-blank query is pushed onto the recent list and closes the panel; a blank one changes nothing; the list never exceeds five |
| EnhancedSearchBar.Bar.Focus | EnhancedSearchBar.tsx:72 | focusing opens the panel |
| EnhancedSearchBar.Bar.SuggestionClick | EnhancedSearchBar.tsx:138 | the query becomes the clicked search's text |
| EnhancedSearchBar.Bar.LocationClick | EnhancedSearchBar.tsx:173 | the location becomes the clicked one |
| EnhancedJobSearch.Slug | EnhancedJobSearch.tsx:95 | the id `toLowerCase().replace(/\s+/g, '-')` contains no white space |
| EnhancedJobSearch.SlugOfWord | EnhancedJobSearch.tsx:95 | a word without white space is only lower-cased |
| EnhancedJobSearch.SlugOfRun | EnhancedJobSearch.tsx:95 | each run of white space between words becomes exactly one "-" |
| EnhancedJobSearch.MatchingTitles | EnhancedJobSearch.tsx:92-93 | exactly the common titles containing the query, ignoring case |
| EnhancedJobSearch.MatchingTitlesConcat | EnhancedJobSearch.tsx:92-93 | the title filter keeps list order |
| EnhancedJobSearch.JobSuggestionsFor | EnhancedJobSearch.tsx:92-98 | one suggestion per matching title, in order, with the slug id and type 'job' |
| EnhancedJobSearch.JobSuggestionsSpec | EnhancedJobSearch.tsx:92-98 | every suggestion is a common title containing the query, with a white-space-free id |
| EnhancedJobSearch.MatchingLocations | EnhancedJobSearch.tsx:108-109 | exactly the common locations whose name contains the query, ignoring case |
| EnhancedJobSearch.MatchingLocationsConcat | EnhancedJobSearch.tsx:108-109 | the location filter keeps list order |
| EnhancedJobSearch.JobEffect | EnhancedJobSearch.tsx:90-104 | the list is shown exactly for 2 or more characters, then filled with the matching suggestions; otherwise it keeps its old items |
| EnhancedJobSearch.LocationEffect | EnhancedJobSearch.tsx:106-115 | the same rule for locations |
| EnhancedJobSearch.ClickAsWritten | EnhancedJobSearch.tsx:90-128 | after the click and the render it causes, the list is shown exactly when the title differs from the last query and has 2 or more characters, and then holds the title's suggestions |
| EnhancedJobSearch.ClickReopensList | EnhancedJobSearch.tsx:90-128 | picking a suggestion whose title differs from the typed query leaves the list shown |
| EnhancedJobSearch.ClickReopensCommonTitle | EnhancedJobSearch.tsx:90-128 | picking a common title other than the last query leaves the list shown, holding that title's own suggestion, so the list renders |
| EnhancedJobSearch.ClickReopensListExample | EnhancedJobSearch.tsx:90-163 | typing "so" shows the list; picking "Software Engineer" then leaves it shown and non-empty, so it still renders |
| EnhancedJobSearch.ClickCorrected | EnhancedJobSearch.tsx:90-128 | the intended click, which also marks the title as the query the effect has handled, leaves the list hidden with its items after the render |
| EnhancedJobSearch.ClickCorrectedAgrees | EnhancedJobSearch.tsx:90-128 | the corrected click and the written one agree exactly when the written one does not reopen the list |
| EnhancedJobSearch.LocationClickAsWritten | EnhancedJobSearch.tsx:106-133 | after the location click and its render, the list is shown exactly when the name differs from the last query and has 2 or more characters, and then holds the matching locations |
| EnhancedJobSearch.LocationClickReopensList | EnhancedJobSearch.tsx:106-133 | picking a common location other than the last query leaves the list shown, holding that location |
| EnhancedJobSearch.LocationClickReopensListExample | EnhancedJobSearch.tsx:106-133 | typing "sa" shows the list; picking "San Francisco, CA" then leaves it shown and non-empty |
| EnhancedJobSearch.LocationClickCorrected | EnhancedJobSearch.tsx:106-133 | the intended location click, which also marks the name as handled, leaves the list hidden with its items after the render |
| EnhancedJobSearch.LocationClickCorrectedAgrees | EnhancedJobSearch.tsx:106-133 | the corrected location click and the written one agree exactly when the written one does not reopen the list |
| EnhancedJobSearch.WithSelect | EnhancedJobSearch.tsx:253-281 | each select changes only its own filter field |
| EnhancedJobSearch.Card.constructor | EnhancedJobSearch.tsx:77-88 | empty queries, lists hidden, the location list holding every common location, empty selects |
| EnhancedJobSearch.Card.JobQueryChange | EnhancedJobSearch.tsx:147-154 | the job query is set; the effect has not run yet, and every other field stays as it was |
| EnhancedJobSearch.Card.LocationQueryChange | EnhancedJobSearch.tsx:187 | the location query is set; the effect has not run yet, and every other field stays as it was |
| EnhancedJobSearch.Card.RunJobEffect | EnhancedJobSearch.tsx:90-104 | when the job query changed since the last run, the list becomes `JobEffect`; otherwise nothing changes |
| EnhancedJobSearch.Card.RunLocationEffect | EnhancedJobSearch.tsx:106-115 | when the location query changed since the last run, the list becomes `LocationEffect`; otherwise nothing changes |
| EnhancedJobSearch.Card.JobSuggestionClick | EnhancedJobSearch.tsx:125-128 | the query becomes the title and the list is hidden until the effect runs |
| EnhancedJobSearch.Card.PickJobSuggestion | EnhancedJobSearch.tsx:90-128 | the click followed by the job-query effect leaves the list as `ClickAsWritten` of the last query the effect ran on |
| EnhancedJobSearch.Card.JobSuggestionClickCorrected | EnhancedJobSearch.tsx:125-128 | the corrected handler sets the query to the title, records it as handled, and hides the list |
| EnhancedJobSearch.Card.PickJobSuggestionCorrected | EnhancedJobSearch.tsx:90-128 | the corrected click followed by the effect leaves the list hidden for every title, as `ClickCorrected` |
| EnhancedJobSearch.Card.LocationSuggestionClick | EnhancedJobSearch.tsx:130-133 | the location query becomes the name and the list is hidden until the effect runs |
| EnhancedJobSearch.Card.PickLocationSuggestion | EnhancedJobSearch.tsx:106-133 | the location click followed by the location effect leaves the list as `LocationClickAsWritten` of the last query the effect ran on |
| EnhancedJobSearch.Card.LocationSuggestionClickCorrected | EnhancedJobSearch.tsx:130-133 | the corrected handler sets the location query to the name, records it as handled, and hides the list |
| EnhancedJobSearch.Card.PickLocationSuggestionCorrected | EnhancedJobSearch.tsx:106-133 | the corrected location click followed by the effect leaves the list hidden for every name, as `LocationClickCorrected` |
| EnhancedJobSearch.Card.Search | EnhancedJobSearch.tsx:117-123 | a search is requested exactly when either query is not blank |
| EnhancedJobSearch.Card.SelectChange | EnhancedJobSearch.tsx:253-281 | the selects become `WithSelect` of the old ones; every other field stays as it was |
| EnhancedJobSearch.Card.ToggleFilters | EnhancedJobSearch.tsx:228 | the filter panel flips; every other field stays as it was |
| WelcomeDialog.BackStep | WelcomeDialog.tsx:261 | one step back, never below the first |
| WelcomeDialog.ContinueStep | WelcomeDialog.tsx:268-274 | below the last step, one step on; on the last step, close with the step unchanged |
| WelcomeDialog.StepNavigation | WelcomeDialog.tsx:261-274 | the step stays within the three steps; Back and Continue undo each other away from the ends; Continue closes exactly on the last step |
| WelcomeDialog.Progress | WelcomeDialog.tsx:215-217 | segment `i` is highlighted exactly when `i` is at most the current step |
| WelcomeDialog.CountPrefix | WelcomeDialog.tsx:215-217 | a highlighted prefix of length `k` counts `k` |
| WelcomeDialog.ProgressCount | WelcomeDialog.tsx:215-217 | on step `s` exactly `s + 1` segments are highlighted |
| WelcomeDialog.ContinueLabel | WelcomeDialog.tsx:277 | the label reads "Get Started" exactly on the last step |
| WelcomeDialog.RemoveSkillSpec | WelcomeDialog.tsx:140-163 | removal takes out every copy of the skill and keeps the others; removing a just-added new skill undoes the addition |
| WelcomeDialog.Wizard.constructor | WelcomeDialog.tsx:29-37 | the first step, empty answers, work type 'hybrid' |
| WelcomeDialog.Wizard.Back | WelcomeDialog.tsx:261 | the step becomes `BackStep` of the old one; the answers are unchanged |
| WelcomeDialog.Wizard.Continue | WelcomeDialog.tsx:268-274 | the step and the close request are `ContinueStep` of the old step |
| WelcomeDialog.Wizard.SkillEnter | WelcomeDialog.tsx:155-163 | a non-empty entry is appended to the skills; an empty one changes nothing |
| WelcomeDialog.Wizard.SkillRemove | WelcomeDialog.tsx:140-143 | the skills become `RemoveSkill` of the old ones |
| WelcomeDialog.Wizard.EditText | WelcomeDialog.tsx:56-94 | the edited text field is set and nothing else |
| WelcomeDialog.Wizard.SelectWorkType | WelcomeDialog.tsx:110 | the work type is set |
| JobCard.FormatSalary | JobCard.tsx:10-15 | "Salary not specified" exactly when neither bound is given; "$min+" for min only; "Up to $max" for max only; "$min - $max" for both |
| JobCard.DaysSince | JobCard.tsx:18 | the whole days elapsed, rounded down (also for a future date) |
| JobCard.AgeOf | JobCard.tsx:19-23 | 0: Today. 1: Yesterday. Other days below 7: in days. 7-29: in weeks (1-4, rounded down). 30 and up: in months (rounded down) |
| JobCard.AgeText | JobCard.tsx:19-23 | "Today" and "Yesterday" exactly for those two ages; otherwise the count followed by " days ago", " weeks ago" or " months ago" |
| JobCard.AgeTextInjective | JobCard.tsx:19-23 | different ages read differently: the text determines the bucket and its count |
| JobCard.FormatDate | JobCard.tsx:17-24 | "Today" exactly for postings less than a day old; "Yesterday" exactly for those one to two days old |
| JobCard.FormatDateOlder | JobCard.tsx:17-24 | a posting n whole days old reads "n days ago" for 2-6 days, "n/7 weeks ago" for 7-29 days, "n/30 months ago" from 30 days; a future date reads a negative number of days |
| JobCard.LocationLabel | JobCard.tsx:64 | "Remote" exactly for a remote job, else the location |
| JobCard.VisibleSkills | JobCard.tsx:85 | at most the first five skills; all of them when there are five or fewer |
| JobCard.MoreChip | JobCard.tsx:93-97 | the "+n more" chip exists exactly when there are more than five skills |
| JobCard.SkillChipsCover | JobCard.tsx:85-97 | the visible chips and the "+n more" count account for every skill once |
| ResumeSearch.ValidFiles | ResumeSearch.tsx:32-39 | exactly the dropped files with an allowed MIME type |
| ResumeSearch.ValidFilesCount | ResumeSearch.tsx:32-39 | each allowed file is kept as often as it was dropped |
| ResumeSearch.ValidFilesConcat | ResumeSearch.tsx:32-39 | the filter keeps drop order |
| ResumeSearch.RemoveIndex | ResumeSearch.tsx:62-64 | exactly position `i` is removed, the rest kept in order; an index outside the list removes nothing |
| ResumeSearch.RemoveLastAdded | ResumeSearch.tsx:41-64 | removing the file just appended restores the list |
| ResumeSearch.Page.constructor | ResumeSearch.tsx:19-24 | no files, not loading, no error, no results |
| ResumeSearch.Page.Drop | ResumeSearch.tsx:31-43 | the allowed files are appended in order, and the error ends cleared even when a file was rejected |
| ResumeSearch.Page.RemoveFile | ResumeSearch.tsx:62-64 | the files become `RemoveIndex` of the old ones |
| ResumeSearch.Page.BeginSearch | ResumeSearch.tsx:66-75 | no files gives "Please upload at least one resume" and nothing else changes; otherwise loading on, error cleared |
| ResumeSearch.Page.EndSearch | ResumeSearch.tsx:76-101 | a successful parse gives one result per file, in file order; a failure gives "Failed to analyze resumes. Please try again."; loading off |
| SearchBarWithResume.Bar.constructor | SearchBarWithResume.tsx:12-16 | empty query, no file, not uploading, no banner, no error |
| SearchBarWithResume.Bar.BeginFileChange | SearchBarWithResume.tsx:19-31 | nothing selected changes nothing; a disallowed type gives "Please upload a PDF or DOC file" and no upload; an allowed file starts the upload with uploading on and error cleared |
| SearchBarWithResume.Bar.EndFileChange | SearchBarWithResume.tsx:33-44 | a completed upload stores the file and shows the success banner; a failed one gives "Failed to upload file"; uploading off |
| SearchBarWithResume.Bar.HideSuccess | SearchBarWithResume.tsx:39 | the banner timer hides the success banner |
| SearchBarWithResume.Bar.RemoveFile | SearchBarWithResume.tsx:56-61 | the stored file is cleared |
| SearchBarWithResume.Bar.QueryChange | SearchBarWithResume.tsx:101 | the query is set; the file, upload flag, banner and error stay as they were |
| SearchBarWithResume.Bar.Submit | SearchBarWithResume.tsx:46-49 | `onSearch` gets the query unchanged |

## Left out

- I/O, timers and the clock:
  - source API calls are stubs in the code; each source's outcome is a `Delivery` parameter of `SearchJobs`;
  - `Date.now()` is a `now` (and `completedAt`) parameter;
  - the rate limiter's `setTimeout` is the explicit `JobApi.Release`;
  - the 300 ms debounce (`useDebounce`) is not part of this model. `JobSearchHook.Fetch` stands for a fetch after quiescence.
- Concurrency: `Promise.allSettled` runs the three source fetches concurrently. The model fetches them one after another, each from the counts before the search (`JobApi.FanOutAgainstOldCounts`). Overlapping fetches, and a request that finishes late, are not modelled.
- Numbers are unbounded integers:
  - `postedAt` is an integer timestamp, with no date-string parsing;
  - the number typed into a salary box is an integer parameter of `JobSearchPanel.SearchPanel.SalaryChange`. Clearing a box makes `parseInt` return NaN, which is not modelled (nor its `null` in the cache key);
  - floating point is not modelled, nor the file-size KB display.
- String semantics:
  - `toLowerCase` is modelled on ASCII letters only;
  - JavaScript's `.length` counts UTF-16 code units, while `|s|` counts characters. The length tests differ for characters outside the Basic Multilingual Plane: `>= 3` in `SearchBar.tsx` (lines 43 and 105) and `>= 2` in `EnhancedJobSearch.tsx` (lines 91 and 107). For example, one emoji and one letter open the job list in the browser, but not under `EnhancedJobSearch.JobEffect`;
  - `toLocaleString` is a parameter of `JobCard.FormatSalary`;
  - white space is the fixed set of characters JavaScript's `\s` and `trim` treat as white space.
- Foreign calls: `ResumeParser.parseResume`, `crypto.randomUUID`, `Date.now().toString()` ids, `navigate`, `console.log`/`console.error`, the `zustand` store plumbing and the DOM (click-outside listeners, focus, `classList`) are all outside the model:
  - a parse's outcome and the generated ids are parameters;
  - the model has no navigation.
- `handleSave` in both managers is typed `Partial<…>` but is only ever called with the complete form. The model's save takes the whole form.
- ExperienceManager.Manager.DragOver: requires the target id to be in the list, as it is for every rendered entry's `onDragOver`. EducationManager.Manager.DragOver has the same precondition.
- SearchBar.Bar.KeyDown: requires the highlight to be in range for the current suggestions. The code would read past the list if the suggestions shrank while an entry was highlighted.
- SkillsForm: the `searchTerm` input filters nothing the form submits and is not modelled.
- AuthStore.UpdateProfile: a patch carrying `email: undefined` explicitly is not modelled. Every patch field either is absent or carries a value.
- The close animation delay in `EditProfileDialog.tsx` and the success-banner delay in `SearchBarWithResume.tsx` are not modelled. The banner delay's effect is the explicit `HideSuccess`.
- The "Add" buttons of both managers set the editing id to "new". That id is truthy, so a save in that state would merge into the entries with id "new" rather than append a new entry. The add form is only rendered for an entry whose id is the editing id, so this path is not reachable from the markup and is not modelled further.

## Findings

| source | as written | input that shows it | evidently intended | confidence | as-written member | corrected member |
|---|---|---|---|---|---|---|
| EnhancedJobSearch.tsx:90-128 | the click handler hides the job list and sets the query to the title. The query change re-runs the effect, which shows the list again for any title of 2 or more characters. | type "so", then click "Software Engineer": the list is shown again after the click, and it is not empty | a click closes the suggestion list | not executed | EnhancedJobSearch.ClickReopensListExample | EnhancedJobSearch.ClickCorrected |
| EnhancedJobSearch.tsx:106-133 | the location click handler hides the location list and sets the location query to the name. The query change re-runs the location effect, which shows the list again for any name of 2 or more characters | type "sa", then click "San Francisco, CA": the list is shown again after the click, and it is not empty | a click closes the suggestion list | not executed | EnhancedJobSearch.LocationClickReopensListExample | EnhancedJobSearch.LocationClickCorrected |
| jobApi.ts:118-121 | the salary clause compares with both `filters.salary.max` and `filters.salary.min`. The salary boxes (JobSearchInterface.tsx lines 161-175) create the salary object with the first key typed alone, and a comparison with the missing key is false | set "Min" to 50000 and leave "Max" empty: a job paying 80000 to 120000 is rejected, and so is every other job | a bound left empty does not constrain the salary | not executed | JobMatching.OneSidedSalaryExample | JobMatching.MatchesSalaryIntended |
