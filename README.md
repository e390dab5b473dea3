# iscan-frontend dashboard components in Dafny

This project models the behavioural core of the iscan-frontend dashboard, a Next.js/React
client for a PDF document-processing backend. It covers five components.

- **FilesDashboard** lists uploaded files. It tallies them by status and filters them by a
  clicked status. It groups them by batch: a group per batch id plus one group of
  "Individual Files". Files within a group are ordered newest first, and groups are
  ordered by their newest file. It also tracks which groups are expanded.
- **FileUpload** takes dropped files. Each one that looks like a PDF becomes an upload
  mutation for the selected file type; every other file raises an alert.
- **FileTypeManager** searches the file types by name and description, ignoring case. It
  deletes a file type after confirmation, and opens and closes the create/edit form.
- **FileTypeForm** loads a file type's detail into the form. A submit creates, updates, or
  updates only the prompts. Each success invalidates a fixed set of cached queries.
- **PromptEditor** keeps the JSON text of a file type's processing prompts. It parses
  every keystroke and reports valid values to the parent. It offers three templates and
  shows advisory warnings about the prompt structure.

## How the model is organised

The components never compute anything themselves at the boundary with the outside world.
The model makes those boundaries explicit instead:

- The handlers return **effects** as values (module `Effects`):
  - a mutation (a server write);
  - an invalidation of a query-key prefix;
  - an alert;
  - the parent's `onSuccess` callback.
- `StaleAfter` is an independent reference for which cached queries a successful write
  makes out of date. It is one of `['files', status]`, `['fileTypes']` and
  `['fileType', id]`.
- `Refreshed` says when a list of effects invalidates a query. react-query matches keys
  by prefix, and `Covers` models that matching.
- Component state lives in a class per component, with one method per handler and a
  `modifies this` clause:
  - `DashboardView`
  - `UploadPanel`
  - `ManagerView`
  - `FormView`
  - `EditorView`
- The derived values are pure functions of that state. These are the grouping, the
  tallies, the search filter, the current value and the warnings.
- The ECMAScript built-ins `JSON.parse` and `JSON.stringify` are a parameter, `JsonCodec`.
  `JsonCodec.Lawful` holds what the model assumes of them:
  - a serialised value parses back to itself;
  - `{}` is the empty object;
  - the empty text does not parse, because it is not a JSON text (RFC 8259, section 2).
- `window.confirm` becomes a boolean parameter, and the react-query mutation states
  become a list of `MutationStatus` values.

### The batch grouping

The grouping is specified by recursive functions over the file list:

- `Keys`: the distinct group keys in first-seen order, which is the key order of the
  JavaScript `Map`;
- `Members`: the files of a key, in input order;
- `FirstWithKey`: the file whose batch id and name head the group;
- `BatchGroups`: the result of the grouping.

The component's loop is modelled imperatively and proved equal to this specification, in
two steps:

- `CollectGroups` is the `forEach` over the files, filling a `map`.
- `SortGroupFiles` sorts every group in place.

The result is then proved to be:

- a partition of the input: no file is lost or duplicated;
- groups that are exactly the key classes;
- newest-first within and across groups;
- headed by the first file of each key.

Two behaviours of the code as written are stated explicitly, one as a lemma and one as a
method that runs the view through a concrete sequence of renders:

- `BatchZeroSharesIndividualKey`: a batch with id 0 gets its own group. But `batch_id || null`
  stores its id as null, so its rendered key is `individual`, the same as the group of
  unbatched files.
- `AutoExpandRefires`: the auto-expand effect depends on the number of groups. After the
  user collapses everything, a change in that number expands all groups again.

The component's own comment at line 102 says "on first load", so a one-shot default is
what was meant. The model follows the code.

### Behaviour notes

- Auto-expansion is not one-shot (see above). This departs from the code's stated intent,
  as does the crash on `null` prompt text listed under "## Findings".
- While the editor text is invalid, the editor shows `{}` and no warnings. It does not
  keep validating the last good value.
- Choosing a template does not itself reset the validity flag. After invalid text, the
  render that follows the choice still shows `{}` and no warnings
  (`TemplateAfterInvalidText`). The parent then hands the template back as the `value`
  prop, and the prop effect marks the text valid again. The flag stays invalid only when
  the template equals the value the parent already held (`TemplateChoiceSettles`).
- A delete invalidates the file-type list; the deleted type's cached detail is not
  invalidated (`DeleteLeavesDetailCached`).
- Both updates, the prompts-only one included, refresh the list and the edited type's
  detail.
- Typed text that parses is reformatted through the parent's prop only when the prop
  changes. A parsed object or array is always a new object, but a primitive typed again
  when the parent already holds it (`0`, then `0` again) stays as typed
  (`TypedTextIsReformatted`).

## Model

| member | source | states |
|---|---|---|
| FilesDashboard.KeyOfBatchId | src/components/FilesDashboard.tsx:66 | a missing batch id gives the individual key; every present id, 0 included, is its own key |
| FilesDashboard.KeyOf | src/components/FilesDashboard.tsx:66 | a file is grouped as individual exactly when it has no batch id |
| FilesDashboard.DisplayKey | src/components/FilesDashboard.tsx:181 | a rendered group's key is `individual` exactly when its stored batch id is null |
| FilesDashboard.RenderedKeyMatchesGroupKey | src/components/FilesDashboard.tsx:66-70 | a group renders under the key it was grouped under exactly when its first file's batch id is not 0 |
| FilesDashboard.StoredBatchId | src/components/FilesDashboard.tsx:70 | a group stores its batch id only when it is present and non-zero; batch 0 is stored as null |
| FilesDashboard.BatchLabel | src/components/FilesDashboard.tsx:71 | the group label is the batch name, or "Individual Files" when the name is absent or empty |
| FilesDashboard.MaxId | src/components/FilesDashboard.tsx:85-87 | the newest id of a non-empty group is one of its ids and bounds all of them |
| FilesDashboard.MembersSpec | src/components/FilesDashboard.tsx:64-76 | a key's member list holds exactly the input files with that key |
| FilesDashboard.FirstWithKeySpec | src/components/FilesDashboard.tsx:67-73 | the file heading a group is the earliest file with its key; there is none exactly when no file has the key |
| FilesDashboard.KeysDistinct | src/components/FilesDashboard.tsx:62-77 | the map's keys are pairwise distinct and no more numerous than the files |
| FilesDashboard.KeysSpec | src/components/FilesDashboard.tsx:64-77 | a key is in the map exactly when some file has it; a key outside the map has no members |
| FilesDashboard.AppendFile | src/components/FilesDashboard.tsx:64-76 | one step of the `forEach`: a new key is appended to the key order with a group headed by this file; a known key's group gets the file at its end; other groups are untouched |
| FilesDashboard.CollectGroups | src/components/FilesDashboard.tsx:62-77 | the loop leaves the keys in first-seen order and, under every key, the group the specification builds for it |
| FilesDashboard.SortGroupFiles | src/components/FilesDashboard.tsx:79-82 | sorting in place keeps the keys and replaces each group's files by their newest-first order |
| FilesDashboard.GroupsInOrder | src/components/FilesDashboard.tsx:85 | `Array.from(groups.values())` lists the groups in key order |
| FilesDashboard.OrderedGroups | src/components/FilesDashboard.tsx:84-85 | the groups read off the sorted map in key order are the specification's sorted groups |
| FilesDashboard.BatchGroups | src/components/FilesDashboard.tsx:61-90 | the specification of the memo, with no contract of its own; `GroupingIsPartition`, `GroupsAreKeyClasses`, `GroupFilesNewestFirst`, `GroupsNewestFirst` and `GroupHeaders` state what it means, and `GroupByBatch` is proved to compute it |
| FilesDashboard.GroupByBatch | src/components/FilesDashboard.tsx:61-90 | the memo's imperative computation returns exactly `BatchGroups(files)` |
| FilesDashboard.UnsortedAppendNew | src/components/FilesDashboard.tsx:67-75 | a file with an unseen key adds one group of its own, at the end |
| FilesDashboard.UnsortedAppendOld | src/components/FilesDashboard.tsx:75 | a file with a seen key is appended to that key's group only |
| FilesDashboard.UnsortedPartition | src/components/FilesDashboard.tsx:64-77 | after the `forEach` the groups together hold exactly the input files, as a multiset |
| FilesDashboard.FlattenSort | src/components/FilesDashboard.tsx:84-89 | ordering the groups neither loses nor duplicates a file |
| FilesDashboard.GroupingIsPartition | src/components/FilesDashboard.tsx:61-90 | the final groups hold exactly the input files, as a multiset |
| FilesDashboard.BatchGroupsShape | src/components/FilesDashboard.tsx:61-90 | there are at most as many groups as files; each is the sorted group of its first file's key; no key has two groups |
| FilesDashboard.GroupsAreKeyClasses | src/components/FilesDashboard.tsx:64-76 | every group is non-empty and holds one key only; different groups have different keys; a group holds every input file of its key |
| FilesDashboard.GroupFilesNewestFirst | src/components/FilesDashboard.tsx:79-82 | within a group, ids never increase |
| FilesDashboard.GroupsNewestFirst | src/components/FilesDashboard.tsx:84-89 | an earlier group's newest id is at least every id in a later group |
| FilesDashboard.GroupHeaders | src/components/FilesDashboard.tsx:67-73 | each group's batch id and name come from the earliest file with its key, through the `||` fallbacks |
| FilesDashboard.GroupHolding | src/components/FilesDashboard.tsx:64-76 | every input file lies in the group of its key, whose stored batch id comes from the first file of that key |
| FilesDashboard.BatchZeroSharesIndividualKey | src/components/FilesDashboard.tsx:65-70 | with a batch-0 file and an unbatched file, two different groups both render under the key `individual` |
| FilesDashboard.GroupingExample | src/components/FilesDashboard.tsx:61-90 | ids 5 and 3 in batch 2 with id 7 unbatched give [Individual Files: 7] then [Batch 2: 5, 3] |
| FilesDashboard.CountOf | src/components/FilesDashboard.tsx:56-59 | a status's count is at most the number of files, and positive exactly when some file has that status |
| FilesDashboard.CountStatuses | src/components/FilesDashboard.tsx:56-59 | the reduce yields an entry exactly for the statuses present, each equal to that status's count and at least 1 |
| FilesDashboard.TallySumsToLength | src/components/FilesDashboard.tsx:56-59 | the five status counts add up to the number of files |
| FilesDashboard.CountOfPermutation | src/components/FilesDashboard.tsx:56-59 | the tally does not depend on the order of the files |
| FilesDashboard.PerBatchTalliesSumToGlobal | src/components/FilesDashboard.tsx:214-220 | for every status, the per-group tallies add up to the global tally |
| FilesDashboard.NextStatusFilter | src/components/FilesDashboard.tsx:135 | clicking the selected status clears the filter; clicking another selects it |
| FilesDashboard.Toggled | src/components/FilesDashboard.tsx:92-100 | toggling flips the clicked key's membership and keeps every other key's |
| FilesDashboard.ToggleTwiceRestores | src/components/FilesDashboard.tsx:92-100 | toggling the same key twice restores the expanded set |
| FilesDashboard.DisplayKeys | src/components/FilesDashboard.tsx:105 | the auto-expanded keys are exactly the rendered keys of the groups |
| FilesDashboard.AutoExpanded | src/components/FilesDashboard.tsx:103-108 | when the group count changed, groups exist and nothing is expanded, all group keys are expanded; otherwise the set is unchanged; the effect never empties a non-empty set |
| FilesDashboard.DashboardView.constructor | src/components/FilesDashboard.tsx:23-25 | no filter, nothing expanded, no render yet |
| FilesDashboard.DashboardView.ClickStatus | src/components/FilesDashboard.tsx:135 | the filter moves as `NextStatusFilter` says; the expansion state is untouched |
| FilesDashboard.DashboardView.ShowAll | src/components/FilesDashboard.tsx:154 | the "All" button clears the filter and nothing else |
| FilesDashboard.DashboardView.ToggleBatchExpansion | src/components/FilesDashboard.tsx:92-100 | the expanded set becomes the toggled set; the filter is untouched |
| FilesDashboard.DashboardView.AfterRender | src/components/FilesDashboard.tsx:103-108 | the effect applies `AutoExpanded` and records the group count it depends on |
| FilesDashboard.AutoExpandRefires | src/components/FilesDashboard.tsx:103-108 | one group is expanded and then collapsed; when a second group appears, both end up expanded |
| Sorting.SortDesc | src/components/FilesDashboard.tsx:80-81 | the sort result is non-increasing by rank and a permutation of its input |
| Sorting.SortKeepsDistinct | src/components/FilesDashboard.tsx:84-89 | ordering the groups keeps their keys distinct |
| Text.Lower | src/components/FileTypeManager.tsx:28-29 | lower-casing keeps the length and maps every character through the letter mapping |
| FileUpload.IsPdf | src/components/FileUpload.tsx:27 | the line-27 test, with no contract of its own; `PdfCheckIgnoresCase` states what it accepts |
| FileUpload.PdfCheckIgnoresCase | src/components/FileUpload.tsx:27 | a dropped file is accepted exactly when its MIME type is `application/pdf` or its name ends in `.pdf` in any letter case |
| FileUpload.UpperCaseExtensionAccepted | src/components/FileUpload.tsx:27 | a name ending in `.PDF` is accepted whatever the MIME type |
| FileUpload.WordDocumentRefused | src/components/FileUpload.tsx:27-30 | a `.docx` name with a non-PDF MIME type is refused |
| FileUpload.PdfFilesSpec | src/components/FileUpload.tsx:26-28 | the accepted files are exactly the input files that pass the PDF test |
| FileUpload.EffectFor | src/components/FileUpload.tsx:26-31 | a file is uploaded with the given file type exactly when it passes the PDF test; otherwise the "Please upload PDF files only" alert is raised |
| FileUpload.UploadSucceeded | src/components/FileUpload.tsx:20-22 | a finished upload issues one invalidation; it refreshes the file list under every status filter and nothing else, which covers every query an upload makes stale |
| FileUpload.UploadPanel.constructor | src/components/FileUpload.tsx:10 | the selector starts at file type 1 |
| FileUpload.UploadPanel.SelectFileType | src/components/FileUpload.tsx:55 | the selector holds the chosen file type |
| FileUpload.UploadPanel.OnDrop | src/components/FileUpload.tsx:25-33 | there is one effect per dropped file, in order; the uploads are exactly the accepted files with the selected type; alerts and uploads together account for every file |
| FileTypeManager.MatchesSearch | src/components/FileTypeManager.tsx:28-29 | the per-entry test, with no contract of its own: the lower-cased term occurs in the lower-cased name or description; `FilterFileTypes` and `LongerSearchNarrows` state its effect |
| FileTypeManager.FilterFileTypes | src/components/FileTypeManager.tsx:27-30 | the visible list is the input with entries removed, order kept; it holds exactly the entries whose name or description contains the term, ignoring case, each as often as in the input |
| FileTypeManager.EmptySearchKeepsAll | src/components/FileTypeManager.tsx:27-30 | an empty search shows every file type, in order |
| FileTypeManager.LongerSearchNarrows | src/components/FileTypeManager.tsx:27-30 | extending the search term never brings an entry back: the result is a subsequence of the shorter term's result |
| FileTypeManager.DescriptionShown | src/components/FileTypeManager.tsx:102 | the shown description is never empty and is the description itself when that is non-empty |
| FileTypeManager.DeleteSucceeded | src/components/FileTypeManager.tsx:20-25 | a finished delete issues one invalidation, which refreshes the file-type list and nothing else |
| FileTypeManager.DeleteLeavesDetailCached | src/components/FileTypeManager.tsx:20-25 | the deleted type's detail query is stale after the delete but is not refreshed |
| FileTypeManager.ManagerView.constructor | src/components/FileTypeManager.tsx:10-12 | the form is closed, nothing is edited and the search is empty |
| FileTypeManager.ManagerView.VisibleFileTypes | src/components/FileTypeManager.tsx:27-30 | the rows shown are exactly the fetched types that match the current search term |
| FileTypeManager.ManagerView.SetSearchTerm | src/components/FileTypeManager.tsx:74 | the search term is replaced; the form state is untouched |
| FileTypeManager.ManagerView.OpenCreateForm | src/components/FileTypeManager.tsx:62 | the form opens; coming from a closed form, no file type is being edited, so it creates |
| FileTypeManager.ManagerView.HandleEdit | src/components/FileTypeManager.tsx:32-35 | the form opens on the clicked file type |
| FileTypeManager.ManagerView.HandleFormClose | src/components/FileTypeManager.tsx:43-46 | closing or a successful submit closes the form and forgets the edited type |
| FileTypeManager.ManagerView.HandleDelete | src/components/FileTypeManager.tsx:37-41 | a delete mutation for the type's id is issued exactly when no delete is pending (the button is disabled, lines 113-115) and the user confirms |
| FileTypeForm.AnyPending | src/components/FileTypeForm.tsx:97 | the form is pending exactly when some mutation is pending |
| FileTypeForm.FirstError | src/components/FileTypeForm.tsx:98 | there is no error exactly when no mutation failed; otherwise the message is that of the first failed mutation |
| FileTypeForm.IdOf | src/components/FileTypeForm.tsx:62 | `fileType?.id` is defined exactly for an edit form, and is the edited type's id |
| FileTypeForm.SubmitMutation | src/components/FileTypeForm.tsx:77-95 | a create happens exactly without a file type, and a prompts-only update exactly for an edit with the box ticked; every path sends the form's current prompts; only the edit paths name a type, the edited one; create and full update send the whole form |
| FileTypeForm.OnMutationSuccess | src/components/FileTypeForm.tsx:49-75 | invalidations come first and the parent's callback last; a create refreshes only the list; the updates refresh the list and the edited type's detail |
| FileTypeForm.SubmitSuccessRefreshesStale | src/components/FileTypeForm.tsx:49-95 | whichever path a submit takes, its success refreshes every query the write made stale |
| FileTypeForm.FormView.constructor | src/components/FileTypeForm.tsx:22-27 | the form starts with an empty name and description, `{}` prompts and the box unticked |
| FileTypeForm.FormView.LoadDetail | src/components/FileTypeForm.tsx:39-47 | an edit form with a loaded detail takes all three fields from it; otherwise the form is unchanged |
| FileTypeForm.FormView.SetName | src/components/FileTypeForm.tsx:158 | only the name changes |
| FileTypeForm.FormView.SetDescription | src/components/FileTypeForm.tsx:172 | only the description changes |
| FileTypeForm.FormView.SetPrompts | src/components/FileTypeForm.tsx:182 | only the prompts change |
| FileTypeForm.FormView.SetPromptsOnly | src/components/FileTypeForm.tsx:131-137 | the box, offered only when editing, takes the clicked value; the form data is untouched |
| FileTypeForm.FormView.HandleSubmit | src/components/FileTypeForm.tsx:77-95 | nothing is sent exactly when a mutation is pending (button disabled, line 203) or the required name is empty while shown (line 156); otherwise `SubmitMutation` is sent; since the prompts-only box exists only when editing, a create always carries a non-empty name |
| Json.Property | src/components/PromptEditor.tsx:66-72 | a property read on a non-null value finds exactly an object's member of that name |
| Json.OrEmptyObject | src/components/PromptEditor.tsx:36 | `value \|\| {}` is always truthy and non-null; it is the value when that is truthy and `{}` otherwise |
| Json.TextOrEmptyObject | src/components/PromptEditor.tsx:79 | `jsonText \|\| '{}'` is never empty and is the text when that is non-empty |
| PromptEditor.ValidatePromptStructure | src/components/PromptEditor.tsx:63-77 | the validation throws exactly on null; otherwise each of the three warnings appears exactly when its field is falsy (or, for `required_fields`, not an array), at most once, in checking order |
| PromptEditor.CheckPrompts | src/components/PromptEditor.tsx:63-77 | the corrected validation agrees with the one as written on every non-null value, and gives all three warnings for null |
| PromptEditor.NonObjectGetsEveryWarning | src/components/PromptEditor.tsx:63-77 | a value that is not an object gets all three warnings |
| PromptEditor.TemplatePassesCheck | src/components/PromptEditor.tsx:63-77 | non-empty prompts with any field array, an empty one included, draw no warning |
| PromptEditor.NonArrayRequiredFieldsWarns | src/components/PromptEditor.tsx:72-74 | with both prompts present, a `required_fields` that is not an array draws exactly its own warning |
| PromptEditor.DefaultTemplatesPassCheck | src/components/PromptEditor.tsx:11-27 | the invoice, contract and receipt templates all pass the validation without a warning |
| PromptEditor.CurrentValue | src/components/PromptEditor.tsx:79 | valid text shows the value it parses to, the empty text read as `{}`; invalid text shows `{}` |
| PromptEditor.Warnings | src/components/PromptEditor.tsx:80 | the warnings shown, using the corrected validation: none for invalid text; for valid non-null text exactly the warnings line 80 computes; the three warnings, in checking order, for text that parses to `null`, where line 80 as written throws |
| PromptEditor.SerialisedTextNonEmpty | src/components/PromptEditor.tsx:36 | serialised text is never empty, so reading it back ignores the `\|\| '{}'` fallback and gives the value |
| PromptEditor.NullTextCrashesRender | src/components/PromptEditor.tsx:79-80 | text parsing to null counts as valid, and the render's validation then throws |
| PromptEditor.NullTextWarnsCorrected | src/components/PromptEditor.tsx:79-80 | with the corrected validation, text parsing to null shows all three warnings |
| PromptEditor.EditorView.constructor | src/components/PromptEditor.tsx:30-32 | the text is empty, marked valid, and the template list is closed |
| PromptEditor.EditorView.SyncFromValue | src/components/PromptEditor.tsx:34-42 | a new prop is serialised (a falsy one as `{}`) and marked valid; the editor then shows exactly that value |
| PromptEditor.EditorView.HandleTextChange | src/components/PromptEditor.tsx:44-54 | the text is always kept; it is marked valid and its value reported to the parent exactly when it parses, and the editor then shows that value |
| PromptEditor.EditorView.HandleTemplateSelect | src/components/PromptEditor.tsx:56-61 | the text becomes the template's serialisation, the template is reported, the list closes and the validity flag is left as it was |
| PromptEditor.EditorView.ToggleTemplates | src/components/PromptEditor.tsx:90 | the template list flips open or closed; the text and its validity are untouched |
| PromptEditor.FreshProp | src/components/PromptEditor.tsx:42 | the `[value]` dependency under `Object.is`, with no contract of its own: a freshly parsed object or array always counts as changed, a primitive only when its value differs |
| PromptEditor.TemplateAfterInvalidText | src/components/PromptEditor.tsx:56-61 | after invalid text, the render right after choosing a template, before any prop effect, shows `{}` and no warnings, although the new text parses to the template |
| PromptEditor.TemplateChoiceSettles | src/components/PromptEditor.tsx:34-61 | after invalid text, choosing a template that differs from the parent's value ends with the template shown as valid, with its warnings; choosing the parent's own value leaves `{}` and no warnings |
| PromptEditor.TypedTextIsReformatted | src/components/PromptEditor.tsx:34-54 | parsed text goes to the parent and comes back as the prop; when that prop changed, the editor shows its serialisation, or `{}` for a falsy value the parent still holds; when the parent already held the same primitive, the typed text stays; either way the text is marked valid |

## Findings

| source | as written | input that shows it | evidently intended | confidence | as-written member | corrected member |
|---|---|---|---|---|---|---|
| src/components/PromptEditor.tsx:79-80 | text that parses to `null` is marked valid; the render then reads `null.system_prompt` and throws a TypeError, taking the form down | typing `null` into the prompt editor | a value without the three properties draws the three warnings | high (not executed) | PromptEditor.NullTextCrashesRender | PromptEditor.NullTextWarnsCorrected |

`PromptEditor.ValidatePromptStructure` models the validation as written. `PromptEditor.CheckPrompts`
is the corrected validation, and the editor's `Warnings` use it.

## Left out

- HTTP calls and the API client (`src/lib/api.ts`) are not part of this model. Mutations
  and invalidations are returned as effects, and server responses appear as inputs: the
  file list, the file types, and the detail.
- react-query's cache, refetching and the 15-second polling of the file list are left out.
  Only the keys a success invalidates are modelled, and `Refreshed` describes them.
- The result viewer and the JSON export (FilesDashboard.tsx lines 33-54 and the results
  modal) are left out. They are I/O and alerts with no state beyond the fetched result.
- Markup, styling, loading spinners, `toLocaleString` dates, submit-button labels, the
  60-character template preview and the "Batch ID" caption are rendering only.
- react-dropzone's own `accept` filter is left out; the handler's own PDF test is modelled.
  Files the library drops before the handler runs are therefore not modelled.
- The order of object members and of the tally's entries is not modelled: maps and
  JSON objects are unordered here. Numbers are integers.
- `JsonCodec`: the JSON text grammar and pretty-printing are not modelled. `Lawful` states
  only what the components rely on.
- PromptEditor.EditorView.SyncFromValue: the `catch` branch of lines 38-40 is not modelled,
  because `JSON.stringify` cannot throw on a JSON value: it has no cycles and no BigInt.
- Text.Lower: only ASCII letters are lower-cased. The locale-independent Unicode mapping
  of `toLowerCase` is not modelled. `FileTypeManager.LongerSearchNarrows`
  depends on this: under `toLowerCase`'s final-sigma rule, "xΣ" lowers to "xς" but "xΣa"
  to "xσa", so the name "xσa" is hidden by the term "xΣ" and shown again for "xΣa".
- Sorting.SortDesc: stability holds by construction but is not stated as a property.
- PromptEditor.TemplateChoiceSettles: React re-runs the prop effect when the new `value`
  is a different object (`Object.is`); the model compares values. The templates are
  fixed objects, so the two agree unless the parent's value is an equal copy of a
  template, which the model treats as the same value.
- FileTypeForm.FormView.HandleSubmit: browser form validation is reduced to the one
  `required` name field.
- The batch listing, task-status and result types in `src/types/index.ts` are not used by
  the five components and are left out.
