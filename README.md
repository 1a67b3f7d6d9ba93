# Job application tracker — verified model of the page state and the form

The tracker is a single page that keeps a list of job applications. Each
application has a company, title, date, one of five statuses and optional
location, salary and notes. A dialog adds and edits applications, a
confirmed delete removes them, and a search box plus a status select filter
the cards shown under four counters.

This project models that core in Dafny:

- `Types` (types.dfy): the record and its status enum.
- `Collections` (collections.dfy): JavaScript's `filter` and `map`. The page
  uses them everywhere, so they are defined once.
- `RecordStore` (record_store.dfy): what the add, edit and delete handlers
  do to the list.
- `TextSearch` and `DerivedViews` (text_search.dfy, derived_views.dfy): the
  search and status filter, and the counters.
- `ApplicationForm` (application_form.dfy): the dialog component. This covers
  its initial form data, field edits, the order of the calls on submit, and
  its texts.
- `JobTrackerPage` (job_tracker.dfy): the page component as a class. It has
  one field per piece of state and one method per handler. It also wires the
  dialog's submit to the handlers.

The form state is created once, when the dialog mounts with the page. It is
carried across openings and submits, as the component does. See "Findings".

Where the written description of the system and the code disagree, the
model follows the code:

- The code has no "corrupt storage gives an empty list" rule. Loading is not
  modelled at all; see "Left out".
- An absent location never matches a search. The written description says
  it is "treated as empty". The results are the same, because the company
  already matches the empty query.
- Editing or deleting an id that is not in the list is a no-op. The model
  proves this (`ReplaceAbsentIsNoOp`, `WithoutAbsentIsNoOp`).

## Model

| member | source | states |
|---|---|---|
| `Collections.FilterSeq` | app/page.tsx:91-98 | `filter` keeps exactly the elements satisfying the predicate: every kept element satisfies it and comes from the input, and every satisfying input element is kept |
| `Collections.MapSeq` | app/page.tsx:63-68 | `map` keeps the length and puts `f(xs[i])` at position `i` |
| `Collections.FilterIsSubsequence` | app/page.tsx:76 | a filter's result is an order-preserving subsequence of its input |
| `Collections.FilterAppend` | app/page.tsx:91-98 | filtering distributes over concatenation |
| `Collections.FilterKeepsAll` | app/page.tsx:91-98 | a filter whose predicate holds everywhere returns its input unchanged |
| `Collections.FilterIdempotent` | app/page.tsx:76 | filtering twice by one predicate equals filtering once |
| `Collections.FilterCongruent` | app/page.tsx:91-98 | predicates that agree on every element give the same filter result |
| `Collections.FilterDisjointUnionLength` | app/page.tsx:105-107 | a filter by a disjoint "or" keeps as many elements as the two filters together |
| `Types.ParseStatus` | lib/types.ts:6 | a string parses to the status with that name, or to nothing when no status has that name |
| `Types.StatusNameRoundTrip` | lib/types.ts:6 | every status name parses back to its status |
| `Types.WithId` | app/page.tsx:54-57 | the record built from submitted fields and an id carries that id and exactly those fields |
| `Types.WithIdOfFields` | lib/types.ts:1-10 | dropping a record's id and attaching it again gives the record back |
| `TextSearch.Lower` | app/page.tsx:93-95 | lower-casing keeps the length, leaves no ASCII capital, turns each capital into its small letter and keeps every other character |
| `TextSearch.LowerIdempotent` | app/page.tsx:93-95 | lower-casing twice is lower-casing once |
| `TextSearch.IncludesIffOccurs` | app/page.tsx:93-95 | `includes` holds exactly when the query occurs at some position of the text |
| `TextSearch.IncludesEmpty` | app/page.tsx:93-95 | the empty query is included in every text |
| `RecordStore.Prepend` | app/page.tsx:58 | the list grows by one; the new record comes first and carries the given fields and id; the old records follow unchanged and in order |
| `RecordStore.PrependKeepsUnique` | app/page.tsx:53-58 | adding under an id not yet in the list keeps all ids unique |
| `RecordStore.ReplaceOne` | app/page.tsx:65-67 | the record keeps its id; a record with another id is unchanged; the record with the edited id gets the submitted fields |
| `RecordStore.Replace` | app/page.tsx:63-68 | an edit keeps the length and every id in its place; a record with another id is unchanged; a record with the edited id gets the submitted fields |
| `RecordStore.ReplaceAbsentIsNoOp` | app/page.tsx:63-68 | editing an id that is not in the list changes nothing |
| `RecordStore.ReplaceKeepsUnique` | app/page.tsx:63-68 | an edit keeps the ids unique |
| `RecordStore.ReplaceIdempotent` | app/page.tsx:63-68 | applying the same edit twice equals applying it once |
| `RecordStore.ReplaceWithOwnFields` | app/page.tsx:63-68 | with unique ids, writing a record's own fields back under its id leaves the list unchanged |
| `RecordStore.Without` | app/page.tsx:76 | after a delete no record has the id; the survivors are a subsequence in their original order; every record with another id survives |
| `RecordStore.WithoutIdempotent` | app/page.tsx:76 | deleting an id twice equals deleting it once |
| `RecordStore.WithoutAbsentIsNoOp` | app/page.tsx:76 | deleting an id that is not in the list changes nothing |
| `RecordStore.WithoutKeepsUnique` | app/page.tsx:76 | a delete keeps the ids unique |
| `RecordStore.WithoutRemovesOne` | app/page.tsx:76 | with unique ids, deleting an id that is present removes exactly one record |
| `DerivedViews.MatchesSearch` | app/page.tsx:92-95 | a record matches exactly when the lower-cased query occurs at some position of its lower-cased company, title or present location; the empty query matches every record |
| `DerivedViews.MatchesStatus` | app/page.tsx:96 | a record matches exactly when the filter is "all" or names the record's status |
| `DerivedViews.FilteredApplications` | app/page.tsx:91-98 | the shown cards are an order-preserving subsequence of the list; each matches both the search and the status; every matching record is shown |
| `DerivedViews.EmptySearchShowsAll` | app/page.tsx:91-98 | with query "" and status "all", the whole list is shown in order |
| `DerivedViews.SearchIgnoresQueryCase` | app/page.tsx:92-95 | a query and its lower-cased form show the same cards |
| `DerivedViews.SearchIgnoresFieldCase` | app/page.tsx:92-95 | records whose company, title and location agree up to case match the same queries |
| `DerivedViews.CapitalisedCompanyMatchesLowerQuery` | app/page.tsx:93 | company "Google" matches the query "google" |
| `DerivedViews.NoLocationMatchesByCompanyOrTitle` | app/page.tsx:95 | a record with no location matches exactly when company or title matches |
| `DerivedViews.StatusFilterIsExact` | app/page.tsx:96 | filtering by a status name shows only records with exactly that status |
| `DerivedViews.OfferFilterExcludesAccepted` | app/page.tsx:96 | the "offer" filter shows only `offer` records, never `accepted` ones |
| `DerivedViews.UnknownStatusFilterShowsNothing` | app/page.tsx:96 | a status filter that is neither "all" nor a status name shows nothing |
| `DerivedViews.EmptySearchByStatus` | app/page.tsx:91-98 | with an empty query, a status filter keeps exactly the records with that status |
| `DerivedViews.ComputeStats` | app/page.tsx:101-109 | `total` is the list length; interviewing + offers + rejected + the applied count equals `total`, so the three counters sum to at most `total` |
| `DerivedViews.StatsPartition` | app/page.tsx:101-109 | every record falls in exactly one of interviewing, offer-or-accepted, rejected and applied |
| `DerivedViews.OffersCountsOfferAndAccepted` | app/page.tsx:105-107 | the offers counter is the size of the "offer" filter plus the size of the "accepted" filter |
| `DerivedViews.CountersMatchStatusFilters` | app/page.tsx:103-108 | the interviewing and rejected counters equal the sizes of those status filters under an empty query |
| `DerivedViews.StatsAfterPrepend` | app/page.tsx:101-109 | adding a record raises `total` by one and the counter of its status by one, and nothing else |
| `ApplicationForm.InitialFormData` | components/JobApplicationForm.tsx:18-26 | no initial data: empty texts, status `applied`, today's date. With initial data: company, title and status are copied; an absent or empty date becomes today; an absent location, salary or notes becomes "" |
| `ApplicationForm.InitialFormDataRoundTrip` | components/JobApplicationForm.tsx:18-26 | a form started from a record holds exactly that record's fields, exactly when the record has all optional fields and a date |
| `ApplicationForm.SlotsDetermineData` | components/JobApplicationForm.tsx:18-26 | form data with the same seven field values is the same form data |
| `ApplicationForm.WithField` | components/JobApplicationForm.tsx:34-36 | after a field edit the field holds the value and every other field is unchanged |
| `ApplicationForm.WithFieldIsTheOnlyChange` | components/JobApplicationForm.tsx:34-36 | any form data that sets the field and keeps the others is the result of the field edit |
| `ApplicationForm.DialogTitle` | components/JobApplicationForm.tsx:42 | the add dialog is titled "Add New Job Application", the edit dialog "Edit Job Application" |
| `ApplicationForm.DialogDescription` | components/JobApplicationForm.tsx:43-46 | the add and edit dialogs show their own description line |
| `ApplicationForm.SubmitLabel` | components/JobApplicationForm.tsx:137 | the submit button reads "Add Application" when adding and "Update Application" when editing |
| `ApplicationForm.TextsIdentifyMode` | components/JobApplicationForm.tsx:42-46 | the dialog title ("Add New Job Application" / "Edit Job Application") and the description each tell "add" from "edit" |
| `ApplicationForm.SubmitLabelIdentifiesMode` | components/JobApplicationForm.tsx:137 | the submit label ("Add Application" / "Update Application") tells "add" from "edit" |
| `ApplicationForm.JobApplicationForm.constructor` | components/JobApplicationForm.tsx:18 | mounting starts the form data from the initializer |
| `ApplicationForm.JobApplicationForm.HandleChange` | components/JobApplicationForm.tsx:34-36 | a field edit sets exactly that field to the value; the others keep their values |
| `ApplicationForm.JobApplicationForm.HandleSubmit` | components/JobApplicationForm.tsx:28-32 | a submit calls `onSubmit` with the current form data, then `onClose`, and leaves the form data unchanged |
| `ApplicationForm.JobApplicationForm.Reset` | components/JobApplicationForm.tsx:18-26 | re-running the initializer, as remounting would, gives the initial form data |
| `JobTrackerPage.JobTracker.constructor` | app/page.tsx:31-38 | the first render has an empty list, a closed dialog, nothing being edited, an empty query and status "all"; the dialog's form starts with no initial data |
| `JobTrackerPage.JobTracker.FormMode` | app/page.tsx:259 | the mode is "edit" exactly while a record is being edited; on a valid page that is only while the dialog is open |
| `JobTrackerPage.JobTracker.Visible` | app/page.tsx:91-98 | the shown cards are the matching records in list order, and every matching record is shown; an empty search with status "all" shows the whole list |
| `JobTrackerPage.JobTracker.CurrentStats` | app/page.tsx:101-109 | `total` is the list length; interviewing and rejected are the sizes of those status filters; offers is the size of the "offer" filter plus the "accepted" filter |
| `JobTrackerPage.JobTracker.HandleAddApplication` | app/page.tsx:53-59 | the list becomes the new record followed by the old list; a fresh id keeps the ids unique; the total and the counter of the new record's status each go up by one and the other counters stay |
| `JobTrackerPage.JobTracker.HandleEditApplication` | app/page.tsx:61-72 | while editing: the list is edited at the edited record's id and the edit ends. Otherwise the list is unchanged. The dialog stays open or closed as it was |
| `JobTrackerPage.JobTracker.HandleDeleteApplication` | app/page.tsx:74-78 | confirmed: the id is deleted. Declined: nothing changes. Ids stay unique, and a confirmed delete of a present id removes exactly one record |
| `JobTrackerPage.JobTracker.OpenEditForm` | app/page.tsx:80-83 | the dialog is open and the record is the one being edited, so the dialog is titled "Edit Job Application" and its button reads "Update Application" |
| `JobTrackerPage.JobTracker.OpenAddForm` | app/page.tsx:128 | the dialog is open and the edit state is left as it was |
| `JobTrackerPage.JobTracker.CloseForm` | app/page.tsx:85-88 | the dialog is closed and nothing is being edited, so the dialog is back in add mode, titled "Add New Job Application" |
| `JobTrackerPage.JobTracker.SetSearchQuery` | app/page.tsx:173 | only the query changes |
| `JobTrackerPage.JobTracker.SetStatusFilter` | app/page.tsx:177 | only the status filter changes |
| `JobTrackerPage.JobTracker.Deliver` | app/page.tsx:254-257 | `onSubmit` goes to the edit handler while editing and to the add handler otherwise; `onClose` goes to `closeForm` |
| `JobTrackerPage.JobTracker.SubmitForm` | app/page.tsx:252-260 | submitting edits the edited record with the form data in edit mode, or adds it in add mode. The dialog then closes, the edit ends, and the form data is not reset |
| `JobTrackerPage.JobTracker.OpenEditFormReset` | app/page.tsx:80-83 | corrected open for editing: the form data starts from the record being edited |
| `JobTrackerPage.JobTracker.OpenAddFormReset` | app/page.tsx:128 | corrected open for adding: the form data starts empty |
| `JobTrackerPage.UntouchedEditKeepsList` | app/page.tsx:61-69 | opening a record with the form started from it and submitting untouched leaves the list unchanged |
| `JobTrackerPage.StaleFormOverwritesEditedRecord` | components/JobApplicationForm.tsx:18-26 | after two adds, opening the first record shows the second's data, and an untouched submit writes it over the first |
| `JobTrackerPage.ResetFormKeepsEditedRecord` | app/page.tsx:252-260 | with the corrected opens, the dialog shows the edited record and an untouched submit leaves it unchanged |

## Findings

| source | as written | input that shows it | evidently intended | confidence | as-written member | corrected member |
|---|---|---|---|---|---|---|
| components/JobApplicationForm.tsx:18-26 | `formData` is set by a `useState` initializer, which runs once, when the dialog mounts. The dialog is rendered with no `key`, so `initialData` changing at app/page.tsx:258 never reaches the form data | Add "Acme", then add "Globex", then open "Acme" for editing and press "Update Application" unchanged: the dialog shows Globex's data, and the Acme record gets Globex's fields | the edit dialog starts from the record being edited, and the add dialog starts empty | high; not executed | `JobTrackerPage.StaleFormOverwritesEditedRecord` | `JobTrackerPage.JobTracker.OpenEditFormReset` |

The corrected path is `OpenEditFormReset` together with `OpenAddFormReset`.
`UntouchedEditKeepsList` proves its intended property:

- An untouched edit of a record that has all optional fields and a date
  leaves the list as it was.
- `ResetFormKeepsEditedRecord` replays the failing scenario on the corrected
  path.

The as-written methods `OpenEditForm` and `OpenAddForm` stay in the model
because they are what the page does.

## Left out

- Loading from and saving to browser storage (app/page.tsx:41-51): this is I/O and JSON. The page starts with an empty list, as its `useState` does. The unguarded `JSON.parse` is not modelled.
- `crypto.randomUUID()` (app/page.tsx:56): a foreign call. It becomes the `freshId` parameter. Unique ids are proved under the condition that this id is not yet in the list.
- `confirm()` (app/page.tsx:75): a blocking prompt. It becomes the `confirmed` parameter.
- `new Date().toISOString()` (components/JobApplicationForm.tsx:21): the clock. It becomes the `today` parameter.
- `TextSearch.Lower`: lower-cases only the ASCII letters A-Z. Full Unicode `toLowerCase` is not modelled.
- React's batched, closure-based state updates: the model applies each setter at once and in call order. For the handlers of one submit, this gives the same final state.
- `e.preventDefault()` and the browser's `required`-field checks: a submit with an empty company is accepted by the model.
- `ApplicationForm.JobApplicationForm.HandleChange`: requires a status name when the field is the status. The status select offers only those, although the handler's parameter is typed as any string.
- All JSX rendering: the header, the empty-state and no-match branches, the dialog markup, the `viewMode` layout switch (app/page.tsx:232-237), `ClientOnly` and the fallback screen.
- components/JobApplicationCard.tsx and components/StatsCard.tsx: presentation only, including date formatting, colours and status capitalisation.
