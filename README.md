# Story templates: a Dafny model

This project models the rules of a web application for personalised
children's stories. Administrators upload story templates (a PDF with
variables and placed elements) and lay out zones on the template's pages in an
editor. Readers see the published templates, and the server renders a custom
PDF from a template and the user's values.

The model covers the rules spread through the application:

- **The template editor's state machine.** Adding, updating and removing
  variables and elements. The selection follows a removal. A drag starts,
  moves and ends. The PDF page counter never drops below 1.
- **Client-side collections.** The list filters, the optimistic status change
  and deletion with their reverts, id-keyed replacement and removal,
  duplicate-free option lists, and the four newest public templates.
- **Dashboard aggregation.** Counts grouped by key, capitalised roles, and
  zero-padded `YYYY-MM` month keys in ascending order.
- **Validators and parsers.** The user form, including the e-mail pattern
  `\S+@\S+\.\S+`. The new-template schema and its submit guard. The
  comma-separated variable list. The administrator guard.
- **Small interface state machines.** PDF page navigation, the canvas drag,
  the status toggle, the add-zone form, and the browser session with its
  `localStorage` copy.
- **The server.** The PDF text layout and file name, the generated-file URL and
  listing, and the template and zone stores with their NotFound errors.

Every HTTP call is a single atomic step. Its outcome (`Http.Response`: the body,
or the failure with the server's message) is a parameter. Timestamps, the
working directory, new document ids, `JSON.parse` outcomes and chosen files are
parameters too.

Stateful code is modelled as classes: the React hooks and components, the
session and the server stores. Their methods carry `modifies` clauses and
state the whole new state. Pure rules are functions, and the properties that
relate several calls are lemmas.

Each core file has its own module. `Wrappers`, `Http`, `Nest`, `Text` and
`Seqs` hold the shared optional values, outcomes and JavaScript
string/array operations. `Schema` holds the records.

## Model

| member | source | states |
|---|---|---|
| Schema.ParseStatus | apps/backend/story-backend/src/modules/templates/template.schema.ts:34 | a status string names draft or public exactly when it is spelled `'draft'` or `'public'` |
| Schema.StatusNameRoundTrip | apps/backend/story-backend/src/modules/templates/template.schema.ts:72 | parsing a status's wire spelling gives that status back |
| Schema.ApplyZonePatch | apps/backend/story-backend/src/modules/zones/zone.schema.ts:19-27 | a partial zone update replaces exactly the fields present and keeps the id and the template link |
| Schema.EmptyZonePatchIdentity | apps/backend/story-backend/src/modules/zones/zone.schema.ts:19-27 | an update with no field leaves the zone unchanged |
| TemplateEditor.SetTemplateField | apps/frontend/story-frontend/src/lib/useTemplateEditor.ts:155-158 | only the named text field of the template changes |
| TemplateEditor.SetVariableField | apps/frontend/story-frontend/src/lib/useTemplateEditor.ts:171-176 | only the named field of the variable changes |
| TemplateEditor.SetElementField | apps/frontend/story-frontend/src/lib/useTemplateEditor.ts:201-205 | only the named field of the element changes |
| TemplateEditor.RemoveAt | apps/frontend/story-frontend/src/lib/useTemplateEditor.ts:179-183 | the item at the index is dropped and the rest keep their order; an index outside the list removes nothing |
| TemplateEditor.SelectionAfterRemove | apps/frontend/story-frontend/src/lib/useTemplateEditor.ts:223-231 | a selection at the removed index is cleared, a larger one moves down by one, a smaller one is kept |
| TemplateEditor.RemoveAtKeepsSelectedElement | apps/frontend/story-frontend/src/lib/useTemplateEditor.ts:223-231 | after a removal the adjusted index names the element the old index named |
| TemplateEditor.LoadObjects | apps/frontend/story-frontend/src/lib/useTemplateEditor.ts:123 | loading makes every element a new object under fresh references and keeps the older objects |
| TemplateEditor.ReplaceTracks | apps/frontend/story-frontend/src/lib/useTemplateEditor.ts:201-205 | replacing one element by a new object keeps the references distinct and tracking their contents |
| TemplateEditor.RemoveTracks | apps/frontend/story-frontend/src/lib/useTemplateEditor.ts:217-220 | removing an element keeps the others' objects |
| TemplateEditor.FindRef | apps/frontend/story-frontend/src/lib/useTemplateEditor.ts:290-292 | the lookup by identity finds the first position of that object, and none when it is not in the list |
| TemplateEditor.DragOffset | apps/frontend/story-frontend/src/lib/useTemplateEditor.ts:249-258 | the offset is the mouse point relative to the element's position |
| TemplateEditor.DraggedPosition | apps/frontend/story-frontend/src/lib/useTemplateEditor.ts:261-276 | the dragged position plus the offset is the mouse point |
| TemplateEditor.DragRoundTrip | apps/frontend/story-frontend/src/lib/useTemplateEditor.ts:249-276 | moving to the point where the drag started gives the element its original position |
| TemplateEditor.PreviousPage | apps/frontend/story-frontend/src/lib/useTemplateEditor.ts:310-312 | the previous page is one less, never below 1 |
| TemplateEditor.Editor.constructor | apps/frontend/story-frontend/src/lib/useTemplateEditor.ts:103-115 | the editor starts with no template, no selection, an idle drag and page 1 |
| TemplateEditor.Editor.Install | apps/frontend/story-frontend/src/lib/useTemplateEditor.ts:123 | the fetched template is installed and each of its elements becomes a new object, under the references from the next unused one on |
| TemplateEditor.Editor.LoadTemplate | apps/frontend/story-frontend/src/lib/useTemplateEditor.ts:118-129 | the fetched template replaces the current one, its elements new objects under fresh references; a failure keeps it and sets the error |
| TemplateEditor.Editor.SaveTemplate | apps/frontend/story-frontend/src/lib/useTemplateEditor.ts:132-152 | without a template nothing is sent; otherwise the PUT goes to the template's own id with a body holding its six editable fields, a failure sets the error and is passed on, and saving ends |
| TemplateEditor.Editor.UpdateTemplateField | apps/frontend/story-frontend/src/lib/useTemplateEditor.ts:155-158 | one field replaced; a no-op without a template |
| TemplateEditor.Editor.AddVariable | apps/frontend/story-frontend/src/lib/useTemplateEditor.ts:161-168 | appends `{name: '', type: 'string', defaultValue: ''}` and keeps the earlier variables; a no-op without a template |
| TemplateEditor.Editor.UpdateVariable | apps/frontend/story-frontend/src/lib/useTemplateEditor.ts:171-176 | only that field of that variable changes |
| TemplateEditor.Editor.RemoveVariable | apps/frontend/story-frontend/src/lib/useTemplateEditor.ts:179-183 | exactly the variable at the index is removed, the rest keep their order |
| TemplateEditor.Editor.AddElement | apps/frontend/story-frontend/src/lib/useTemplateEditor.ts:186-198 | appends an empty text element at (0, 0) of size 100 by 50 as a new object |
| TemplateEditor.Editor.UpdateElement | apps/frontend/story-frontend/src/lib/useTemplateEditor.ts:201-214 | only that field of that element changes, the element becomes a new object, and a selection of it is refreshed |
| TemplateEditor.Editor.RemoveElement | apps/frontend/story-frontend/src/lib/useTemplateEditor.ts:217-232 | exactly that element is removed and the selection is adjusted as `SelectionAfterRemove` says |
| TemplateEditor.Editor.SelectElement | apps/frontend/story-frontend/src/lib/useTemplateEditor.ts:235-241 | records the index and the element there |
| TemplateEditor.Editor.DeselectElement | apps/frontend/story-frontend/src/lib/useTemplateEditor.ts:244-246 | clears the selection and nothing else |
| TemplateEditor.Editor.StartDrag | apps/frontend/story-frontend/src/lib/useTemplateEditor.ts:249-258 | dragging that object, one of the editor's objects with its own contents, with offset mouse minus position |
| TemplateEditor.Editor.UpdateDrag | apps/frontend/story-frontend/src/lib/useTemplateEditor.ts:261-276 | while dragging, the dragged copy moves to mouse minus offset and is a new object, under the next unused reference, that no element of the template is |
| TemplateEditor.Editor.EndDrag | apps/frontend/story-frontend/src/lib/useTemplateEditor.ts:279-303 | the drag state is always reset. Only when the dragged object is still one of the template's elements is its position written back, with that element becoming a new object and a selection of it refreshed, as `updateElement` does. That object is the element itself, so `endDrag` never changes the template's contents, and a position `updateDrag` set is never saved |
| TemplateEditor.Editor.SetCurrentPdfPage | apps/frontend/story-frontend/src/lib/useTemplateEditor.ts:115 | the page is taken as given |
| TemplateEditor.Editor.NextPdfPage | apps/frontend/story-frontend/src/lib/useTemplateEditor.ts:306-308 | the page grows by exactly one |
| TemplateEditor.Editor.PrevPdfPage | apps/frontend/story-frontend/src/lib/useTemplateEditor.ts:310-312 | the page never goes below 1 |
| UseTemplates.FilteredTemplates | apps/frontend/story-frontend/src/lib/useTemplates.ts:67-96 | an order-preserving subsequence holding exactly the templates that match every filter in force (status, category and age range by equality, search case-insensitively in title or description); its length is the number of matching entries, so each kept entry occurs as often as in the input |
| Text.AccentedCase | apps/frontend/story-frontend/src/lib/useTemplates.ts:86-88 | lower-casing maps accented capitals such as 'É' to their small letters, and capitalising does the reverse |
| Text.CaseRoundTrip | apps/frontend/story-frontend/src/lib/useDashboardData.ts:190 | lower-casing undoes upper-casing for every character upper-casing changes, except the micro sign |
| UseTemplates.InitialFiltersKeepAll | apps/frontend/story-frontend/src/lib/useTemplates.ts:53-58 | with the initial filters every template is listed |
| UseTemplates.SetStatusWhere | apps/frontend/story-frontend/src/lib/useTemplates.ts:117-121 | the templates with that id get the status, all others are unchanged |
| UseTemplates.Flip | apps/frontend/story-frontend/src/lib/useTemplates.ts:130 | the flipped status always differs from the current one |
| UseTemplates.FlipStatusWhere | apps/frontend/story-frontend/src/lib/useTemplates.ts:127-131 | the templates with that id get the opposite of their current status |
| UseTemplates.FlipRevertRestoresIff | apps/frontend/story-frontend/src/lib/useTemplates.ts:115-136 | the update followed by the failure revert restores the list exactly when no matching template already had the requested status |
| UseTemplates.FlipRevertCounterexample | apps/frontend/story-frontend/src/lib/useTemplates.ts:127-131 | a public template asked to become public with a failing request ends up a draft |
| UseTemplates.RestoreRevertUndoes | apps/frontend/story-frontend/src/lib/useTemplates.ts:126-131 | putting back the previous status undoes the optimistic update for every requested status |
| UseTemplates.WithoutId | apps/frontend/story-frontend/src/lib/useTemplates.ts:143 | an order-preserving subsequence without that id and with every other template; its length is the number of matching entries, so each kept entry occurs as often as in the input |
| UseTemplates.DeleteWithRollback | apps/frontend/story-frontend/src/lib/useTemplates.ts:148-151 | a failed deletion gives back the list as it was |
| UseTemplates.DeleteFailureCounterexample | apps/frontend/story-frontend/src/lib/useTemplates.ts:148-151 | a failing deletion of the only template leaves the list empty, where the rollback keeps the template |
| UseTemplates.TemplatesStore.constructor | apps/frontend/story-frontend/src/lib/useTemplates.ts:60-64 | no templates, loading, no error, the initial filters |
| UseTemplates.TemplatesStore.SetFilters | apps/frontend/story-frontend/src/lib/useTemplates.ts:64 | the filters are replaced and nothing else changes |
| UseTemplates.TemplatesStore.FetchTemplates | apps/frontend/story-frontend/src/lib/useTemplates.ts:99-112 | the response replaces the list; a failure keeps it and sets the server message or the fallback; loading ends |
| UseTemplates.TemplatesStore.UpdateTemplateStatus | apps/frontend/story-frontend/src/lib/useTemplates.ts:115-136 | sets the status on the matching templates; on failure flips them, sets the error and passes the failure on |
| UseTemplates.TemplatesStore.DeleteTemplate | apps/frontend/story-frontend/src/lib/useTemplates.ts:139-155 | removes every template with that id whatever the outcome; a failure sets the error and is passed on |
| UseUsers.FilteredUsers | apps/frontend/story-frontend/src/lib/useUsersManagement.ts:65-83 | an order-preserving subsequence with exactly the accounts whose role equals the role filter and whose lower-cased e-mail contains the lower-cased search; its length is the number of matching entries, so each kept entry occurs as often as in the input |
| UseUsers.InitialUserFiltersKeepAll | apps/frontend/story-frontend/src/lib/useUsersManagement.ts:65-83 | with no filter every account is listed |
| UseUsers.ReplaceUser | apps/frontend/story-frontend/src/lib/useUsersManagement.ts:116-117 | exactly the accounts with that id are replaced |
| UseUsers.WithoutUser | apps/frontend/story-frontend/src/lib/useUsersManagement.ts:129 | the accounts other than that id, in order; its length is the number of matching entries, so each kept entry occurs as often as in the input |
| UseUsers.UsersStore.constructor | apps/frontend/story-frontend/src/lib/useUsersManagement.ts:53-56 | no accounts, loading, no error |
| UseUsers.UsersStore.SetFilters | apps/frontend/story-frontend/src/lib/useUsersManagement.ts:56 | only the filters change |
| UseUsers.UsersStore.FetchUsers | apps/frontend/story-frontend/src/lib/useUsersManagement.ts:86-99 | the response replaces the list; a failure sets the error; loading ends |
| UseUsers.UsersStore.CreateUser | apps/frontend/story-frontend/src/lib/useUsersManagement.ts:102-111 | the created account is appended only on success; a failure keeps the list, sets the error and is passed on |
| UseUsers.UsersStore.UpdateUser | apps/frontend/story-frontend/src/lib/useUsersManagement.ts:114-123 | the accounts with that id are replaced by the answer; a failure keeps the list and is passed on |
| UseUsers.UsersStore.DeleteUser | apps/frontend/story-frontend/src/lib/useUsersManagement.ts:126-139 | the id is removed before the call; a failure refetches the list, sets the error and is passed on |
| UseZones.ReplaceZone | apps/frontend/story-frontend/src/lib/useZones.ts:104-117 | exactly the zones with that id are replaced |
| UseZones.WithoutZone | apps/frontend/story-frontend/src/lib/useZones.ts:126-131 | the zones other than that id, in order; its length is the number of matching entries, so each kept entry occurs as often as in the input |
| UseZones.ZonesStore.constructor | apps/frontend/story-frontend/src/lib/useZones.ts:64-67 | no zones, not loading, no error |
| UseZones.ZonesStore.FetchZones | apps/frontend/story-frontend/src/lib/useZones.ts:70-83 | the response replaces the zones; a failure sets the error and is passed on |
| UseZones.ZonesStore.CreateZone | apps/frontend/story-frontend/src/lib/useZones.ts:86-101 | the error is cleared first; the created zone is appended and returned, earlier zones unchanged |
| UseZones.ZonesStore.UpdateZone | apps/frontend/story-frontend/src/lib/useZones.ts:104-123 | the error is cleared first; only the zones with that id are replaced |
| UseZones.ZonesStore.DeleteZone | apps/frontend/story-frontend/src/lib/useZones.ts:126-139 | the zone is removed before the call and not restored on failure |
| UseZones.ZonesStore.ClearError | apps/frontend/story-frontend/src/lib/useZones.ts:142-144 | the error is cleared and nothing else changes |
| Dashboard.ComputeMetrics | apps/frontend/story-frontend/src/lib/useDashboardData.ts:73-78 | the totals are the lengths of the users, templates, flattened zones and PDFs lists |
| Dashboard.RecentCount | apps/frontend/story-frontend/src/lib/useDashboardData.ts:84-103 | the number of creation times strictly after `now` minus thirty days (a count independent of the filter that computes it): all of them or none at the extremes, never more than the list |
| Dashboard.CountBy | apps/frontend/story-frontend/src/lib/useDashboardData.ts:156-160 | the counting loop maps each key present to its number of occurrences |
| Dashboard.Entries | apps/frontend/story-frontend/src/lib/useDashboardData.ts:161 | `Object.entries` lists every key once with its count, in an unspecified order |
| Dashboard.CountEntries | apps/frontend/story-frontend/src/lib/useDashboardData.ts:156-161 | the counted entries list each key of the input once with its occurrence count |
| Dashboard.EntriesChart | apps/frontend/story-frontend/src/lib/useDashboardData.ts:161-164 | the `{name, value}` pairs of such entries are a count of the keys |
| Dashboard.CountChart | apps/frontend/story-frontend/src/lib/useDashboardData.ts:153-165 | the chart data is a count of the keys |
| Dashboard.CountsOfTotals | apps/frontend/story-frontend/src/lib/useDashboardData.ts:153-165 | the values of a count add up to the number of keys and each is at least 1 |
| Dashboard.CategoryStats | apps/frontend/story-frontend/src/lib/useDashboardData.ts:153-165 | templates counted by category with 'Non catégorisé' for a falsy one; the values sum to the number of templates and are at least 1 |
| Dashboard.AgeRangeStats | apps/frontend/story-frontend/src/lib/useDashboardData.ts:167-179 | templates counted by age range with 'Non spécifié' for a falsy one; the values sum to the number of templates and are at least 1 |
| Dashboard.CapitalizeNames | apps/frontend/story-frontend/src/lib/useDashboardData.ts:189-192 | each name gets an upper-cased first character, values kept |
| Dashboard.CapitalizeKeepsSum | apps/frontend/story-frontend/src/lib/useDashboardData.ts:189-192 | capitalising keeps the total |
| Dashboard.RoleStats | apps/frontend/story-frontend/src/lib/useDashboardData.ts:181-193 | users counted by role ('user' for a falsy one), names capitalised; the values sum to the number of users and are at least 1 |
| Dashboard.MonthDigits | apps/frontend/story-frontend/src/lib/useDashboardData.ts:200 | the month is two digits whose value is the month number plus one |
| Dashboard.MonthKey | apps/frontend/story-frontend/src/lib/useDashboardData.ts:200 | the key is at least four characters long and ends with a dash and two digits; MonthKeyInjective shows it determines the year and the month |
| Dashboard.MonthKeyInjective | apps/frontend/story-frontend/src/lib/useDashboardData.ts:200 | two dates share a key exactly when they share year and month |
| Dashboard.SortByKey | apps/frontend/story-frontend/src/lib/useDashboardData.ts:204-205 | the same entries in strictly ascending key order |
| Dashboard.EntriesReordered | apps/frontend/story-frontend/src/lib/useDashboardData.ts:204-205 | reordering a listing of the counts keeps it a listing of the counts |
| Dashboard.SortedCountChart | apps/frontend/story-frontend/src/lib/useDashboardData.ts:195-210 | a count of the keys in strictly ascending name order |
| Dashboard.PdfStatsByMonth | apps/frontend/story-frontend/src/lib/useDashboardData.ts:195-210 | the PDFs counted by month key, ascending; the values sum to the number of PDFs and are at least 1 |
| AdminTable.AdminFiltered | apps/frontend/story-frontend/src/components/AdminTable.tsx:71-90 | an order-preserving subsequence holding exactly the templates matching the non-empty search, category and age range; empty filter strings filter nothing; its length is the number of matching entries, so each kept entry occurs as often as in the input |
| AdminTable.EmptyFiltersKeepAll | apps/frontend/story-frontend/src/components/AdminTable.tsx:71-90 | with empty filter strings every template is kept |
| AdminTable.ApplyFilters | apps/frontend/story-frontend/src/components/AdminTable.tsx:71-90 | the three successive filters give exactly the combined filter |
| AdminTable.UniqueCategories | apps/frontend/story-frontend/src/components/AdminTable.tsx:104-106 | duplicate-free, holds exactly the categories present, and lists them in order of their first appearance |
| Seqs.DedupeOrder | apps/frontend/story-frontend/src/components/AdminTable.tsx:104-106 | `[...new Set(s)]` lists its elements in the order of their first occurrences in `s` |
| AdminTable.UniqueAgeRanges | apps/frontend/story-frontend/src/components/AdminTable.tsx:108-110 | duplicate-free, holds exactly the age ranges present, and lists them in order of their first appearance |
| AdminTable.Table.constructor | apps/frontend/story-frontend/src/components/AdminTable.tsx:43-49 | empty lists, loading, no error, empty filters |
| AdminTable.Table.FilterTemplates | apps/frontend/story-frontend/src/components/AdminTable.tsx:54-56 | the shown list becomes the filtered templates |
| AdminTable.Table.FetchTemplates | apps/frontend/story-frontend/src/components/AdminTable.tsx:59-70 | the response replaces the templates; a failure sets the fixed load error; loading ends and the shown list follows |
| AdminTable.Table.SetSearchTerm | apps/frontend/story-frontend/src/components/AdminTable.tsx:54-56 | only the search changes, and the shown list follows |
| AdminTable.Table.SetCategoryFilter | apps/frontend/story-frontend/src/components/AdminTable.tsx:54-56 | only the category filter changes, and the shown list follows |
| AdminTable.Table.SetAgeRangeFilter | apps/frontend/story-frontend/src/components/AdminTable.tsx:54-56 | only the age-range filter changes, and the shown list follows |
| AdminTable.Table.HandleDelete | apps/frontend/story-frontend/src/components/AdminTable.tsx:92-102 | unchanged without confirmation; exactly that id removed after a successful delete; a failure sets the fixed delete error |
| Highlight.PublicOf | apps/frontend/story-frontend/src/components/TemplateHighlightSection.tsx:14 | the public templates, in order, and all of them; its length is the number of matching entries, so each kept entry occurs as often as in the input |
| Highlight.Highlighted | apps/frontend/story-frontend/src/components/TemplateHighlightSection.tsx:13-16 | at most four, all public, newest first, drawn from the public templates, and no omitted public template is newer than a shown one |
| Highlight.SortedPrefixFacts | apps/frontend/story-frontend/src/components/TemplateHighlightSection.tsx:15-16 | the first k of a newest-first ordering are public, newest first, and no newer than nothing left out |
| Seqs.SortDescByStable | apps/frontend/story-frontend/src/components/TemplateHighlightSection.tsx:15 | the sort is stable: for every creation time, the templates with that time keep their relative order |
| Seqs.FilterMultiset | apps/frontend/story-frontend/src/components/TemplateHighlightSection.tsx:14 | a filter keeps each value satisfying the predicate exactly as many times as it occurs, and no other value |
| Highlight.HighlightedEmptyIff | apps/frontend/story-frontend/src/components/TemplateHighlightSection.tsx:13-16 | nothing is highlighted exactly when no template is public |
| Highlight.Render | apps/frontend/story-frontend/src/components/TemplateHighlightSection.tsx:51-68 | the placeholder while loading; nothing on an error or an empty selection; otherwise the highlighted cards |
| Highlight.HiddenIffNoPublic | apps/frontend/story-frontend/src/components/TemplateHighlightSection.tsx:66-68 | a loaded section without error renders nothing exactly when no template is public |
| TemplateList.WithSearch | apps/frontend/story-frontend/src/components/TemplateList.tsx:28-30 | sets the search and keeps the other filters |
| TemplateList.WithStatusChoice | apps/frontend/story-frontend/src/components/TemplateList.tsx:33-36 | 'all' clears the status filter, another value is stored; the other filters are kept |
| TemplateList.WithCategoryChoice | apps/frontend/story-frontend/src/components/TemplateList.tsx:38-41 | 'all' clears the category filter, another value is stored; the other filters are kept |
| TemplateList.WithAgeRangeChoice | apps/frontend/story-frontend/src/components/TemplateList.tsx:43-46 | 'all' clears the age-range filter, another value is stored; the other filters are kept |
| TemplateList.StatusChoiceSelects | apps/frontend/story-frontend/src/components/TemplateList.tsx:33-36 | choosing a status keeps exactly the templates with that status that pass the other filters |
| TemplateList.AllWidens | apps/frontend/story-frontend/src/components/TemplateList.tsx:33-46 | choosing 'all' never hides a template that was shown |
| TemplateList.CategoryOptions | apps/frontend/story-frontend/src/components/TemplateList.tsx:86 | duplicate-free, holds exactly the categories of the filtered templates, and lists them in order of their first appearance |
| TemplateList.AgeRangeOptions | apps/frontend/story-frontend/src/components/TemplateList.tsx:87 | duplicate-free, holds exactly the age ranges of the filtered templates, and lists them in order of their first appearance |
| TemplateList.CategoryOptionsMatch | apps/frontend/story-frontend/src/components/TemplateList.tsx:86 | every offered category belongs to a template that passes the filters |
| TemplateList.EmptyMessage | apps/frontend/story-frontend/src/components/TemplateList.tsx:187-193 | the "no match" message exactly when some filter is set, the "no template" message otherwise |
| TemplateList.NoFilterEmptyMeansNone | apps/frontend/story-frontend/src/components/TemplateList.tsx:187-193 | with no filter set every template is listed, so the list is empty exactly when there are no templates |
| TemplateList.ListPage.constructor | apps/frontend/story-frontend/src/components/TemplateList.tsx:23-25 | the modal is closed, nothing selected, not loading |
| TemplateList.ListPage.ChangeFilters | apps/frontend/story-frontend/src/components/TemplateList.tsx:28-46 | the store's filters are replaced and its templates kept |
| TemplateList.ListPage.HandleDeleteClick | apps/frontend/story-frontend/src/components/TemplateList.tsx:57-60 | selects the template and opens the modal |
| TemplateList.ListPage.HandleDeleteConfirm | apps/frontend/story-frontend/src/components/TemplateList.tsx:62-75 | nothing without a selection; on success the modal closes, the selection clears and the hook's error is kept; on failure both stay and the hook's error is the deletion message the page shows; loading is reset |
| UserForm.TestEmail | apps/frontend/story-frontend/src/components/UserFormModal.tsx:52 | the regular-expression test holds exactly when the e-mail has the shape `\S+@\S+\.\S+` somewhere |
| UserForm.ErrorMap | apps/frontend/story-frontend/src/components/UserFormModal.tsx:47-68 | one entry, with its message, for each field that has an error |
| UserForm.ErrorMapEmptyIff | apps/frontend/story-frontend/src/components/UserFormModal.tsx:66-67 | the error map is empty exactly when no field has an error |
| UserForm.ErrorMessages | apps/frontend/story-frontend/src/components/UserFormModal.tsx:50-64 | a blank e-mail is required, a malformed one invalid; in creation a blank password is required and one shorter than six UTF-16 code units (`length`) too short; editing never checks the password; an empty role is required |
| Text.Utf16Length | apps/frontend/story-frontend/src/components/UserFormModal.tsx:58 | a string's `length` counts two units for a character outside the Basic Multilingual Plane and one otherwise; it equals the character count exactly when no such character occurs |
| Text.ThreeEmojiLength | apps/frontend/story-frontend/src/components/UserFormModal.tsx:58 | three emoji have length six, so they pass the six-unit password minimum |
| UserForm.ValidIff | apps/frontend/story-frontend/src/components/UserFormModal.tsx:47-68 | the form is valid exactly when every field is acceptable on its own |
| UserForm.OpenedForm | apps/frontend/story-frontend/src/components/UserFormModal.tsx:28-45 | editing a user pre-fills the e-mail and role with an empty password; otherwise ('', '', 'user') |
| UserForm.FreshCreateFormInvalid | apps/frontend/story-frontend/src/components/UserFormModal.tsx:28-68 | a freshly opened creation form has exactly the e-mail and password errors |
| UserForm.WithField | apps/frontend/story-frontend/src/components/UserFormModal.tsx:88-90 | only the named field changes |
| UserForm.Form.constructor | apps/frontend/story-frontend/src/components/UserFormModal.tsx:19-25 | an empty creation form without errors, not loading |
| UserForm.Form.OnOpen | apps/frontend/story-frontend/src/components/UserFormModal.tsx:28-45 | opening puts the opened form in place and clears the errors |
| UserForm.Blank | apps/frontend/story-frontend/src/components/UserFormModal.tsx:50 | a field counts as empty exactly when trimming leaves nothing, that is when it is all white space |
| UserForm.Form.ValidateForm | apps/frontend/story-frontend/src/components/UserFormModal.tsx:47-68 | the errors become the validation errors, and the result is true exactly when there are none |
| UserForm.Form.HandleChange | apps/frontend/story-frontend/src/components/UserFormModal.tsx:88-98 | sets only that field and removes only that field's error |
| UserForm.Form.HandleSubmit | apps/frontend/story-frontend/src/components/UserFormModal.tsx:70-86 | an invalid form is not submitted; the modal closes only after a successful submission; loading ends |
| PropertiesSidebar.ParseVariables | apps/frontend/story-frontend/src/components/PropertiesSidebar.tsx:103 | no parsed item is empty, contains a comma, or has surrounding white space |
| PropertiesSidebar.TrimmedPiecesClean | apps/frontend/story-frontend/src/components/PropertiesSidebar.tsx:103 | trimming comma-free pieces gives trimmed comma-free items |
| PropertiesSidebar.SplitDisplay | apps/frontend/story-frontend/src/components/PropertiesSidebar.tsx:102-103 | splitting the displayed list on commas gives the items, each after a space |
| PropertiesSidebar.TrimPieces | apps/frontend/story-frontend/src/components/PropertiesSidebar.tsx:103 | trimming the split pieces gives the original items |
| PropertiesSidebar.ParseDisplayRoundTrip | apps/frontend/story-frontend/src/components/PropertiesSidebar.tsx:102-103 | parsing the displayed `join(', ')` gives the list back when every item is non-empty, trimmed and comma-free |
| PropertiesSidebar.ParseIdempotent | apps/frontend/story-frontend/src/components/PropertiesSidebar.tsx:102-103 | displaying a parsed list and parsing it again changes nothing |
| PropertiesSidebar.MoveAxis | apps/frontend/story-frontend/src/components/PropertiesSidebar.tsx:38-42 | only that coordinate changes |
| PropertiesSidebar.Resize | apps/frontend/story-frontend/src/components/PropertiesSidebar.tsx:44-48 | only that dimension changes |
| PropertiesSidebar.PatchOf | apps/frontend/story-frontend/src/components/PropertiesSidebar.tsx:34-52 | each edit becomes a single-field partial update |
| PropertiesSidebar.OnEdit | apps/frontend/story-frontend/src/components/PropertiesSidebar.tsx:25-52 | nothing without a selected zone; otherwise the update is for the selected zone's id |
| PropertiesSidebar.PositionEditMovesOneAxis | apps/frontend/story-frontend/src/components/PropertiesSidebar.tsx:38-42 | a position edit moves one axis and keeps the other coordinate |
| PropertiesSidebar.SizeEditResizesOneDimension | apps/frontend/story-frontend/src/components/PropertiesSidebar.tsx:44-48 | a size edit changes one dimension and keeps the other |
| ElementSidebar.RequestOf | apps/frontend/story-frontend/src/components/ElementSidebar.tsx:43-46 | the form contents plus the component's template id |
| ElementSidebar.Submission | apps/frontend/story-frontend/src/components/ElementSidebar.tsx:41-46 | a zone is sent exactly when the trimmed name is non-empty |
| ElementSidebar.RequestKeepsDraft | apps/frontend/story-frontend/src/components/ElementSidebar.tsx:43-46 | the sent zone carries every field of the form |
| ElementSidebar.Panel.constructor | apps/frontend/story-frontend/src/components/ElementSidebar.tsx:31-39 | closed, with the default form |
| ElementSidebar.Panel.Open | apps/frontend/story-frontend/src/components/ElementSidebar.tsx:76 | opens the form and keeps its contents |
| ElementSidebar.Panel.SetName | apps/frontend/story-frontend/src/components/ElementSidebar.tsx:92 | only the name changes |
| ElementSidebar.Panel.SetKind | apps/frontend/story-frontend/src/components/ElementSidebar.tsx:97 | only the type changes |
| ElementSidebar.Panel.SetContent | apps/frontend/story-frontend/src/components/ElementSidebar.tsx:108 | only the content changes |
| ElementSidebar.Panel.HandleAddZone | apps/frontend/story-frontend/src/components/ElementSidebar.tsx:41-57 | sends the zone when the name is not blank, then resets to the defaults and closes; with a blank name nothing changes |
| ElementSidebar.Panel.HandleCancelAdd | apps/frontend/story-frontend/src/components/ElementSidebar.tsx:59-69 | resets to the defaults and closes |
| EditorCanvas.Relative | apps/frontend/story-frontend/src/components/EditorCanvas.tsx:70-71 | the client point relative to the canvas corner |
| EditorCanvas.PreviousRequest | apps/frontend/story-frontend/src/components/EditorCanvas.tsx:162 | max(1, page − 1) |
| EditorCanvas.NextRequest | apps/frontend/story-frontend/src/components/EditorCanvas.tsx:174 | min(totalPages, page + 1) |
| EditorCanvas.RequestsStayInRange | apps/frontend/story-frontend/src/components/EditorCanvas.tsx:162-174 | from a page in [1, totalPages] both requests stay in that range |
| EditorCanvas.Canvas.constructor | apps/frontend/story-frontend/src/components/EditorCanvas.tsx:51-52 | not dragging, offset (0, 0) |
| EditorCanvas.Canvas.HandleMouseDown | apps/frontend/story-frontend/src/components/EditorCanvas.tsx:64-79 | records offset = mouse − position, starts dragging and selects that index |
| EditorCanvas.Canvas.HandleMouseMove | apps/frontend/story-frontend/src/components/EditorCanvas.tsx:81-96 | emits mouse − offset only while dragging with a selection, and nothing otherwise |
| EditorCanvas.Canvas.HandleMouseUp | apps/frontend/story-frontend/src/components/EditorCanvas.tsx:98-100 | stops dragging (also on mouse leave) |
| EditorCanvas.Canvas.HandleCanvasClick | apps/frontend/story-frontend/src/components/EditorCanvas.tsx:102-106 | a background click deselects with -1 |
| EditorCanvas.GrabAndHoldKeepsPosition | apps/frontend/story-frontend/src/components/EditorCanvas.tsx:64-96 | a move at the mouse-down point reproduces the element's position |
| PdfViewer.JumpTarget | apps/frontend/story-frontend/src/components/PDFViewerControl.tsx:72-79 | a jump target exists exactly when the page count is known and the parsed input lies in [1, numPages] |
| PdfViewer.JumpToWrittenPage | apps/frontend/story-frontend/src/components/PDFViewerControl.tsx:68-79 | typing a page number in range and jumping goes to that page |
| PdfViewer.ScreenOf | apps/frontend/story-frontend/src/components/PDFViewerControl.tsx:81-108 | the preparation message without a URL, the loading message while loading, the error, and only otherwise the document with its page controls |
| PdfViewer.AsWrittenNeverShowsPages | apps/frontend/story-frontend/src/components/PDFViewerControl.tsx:89-119 | with `<Document>` mounted only on the page screen, no sequence of events from the first render ever reaches that screen |
| PdfViewer.AsWrittenStaysBlocked | apps/frontend/story-frontend/src/components/PDFViewerControl.tsx:41-95 | as written, a phase that is loading or in error stays so under every sequence of events |
| PdfViewer.MountedShowsPages | apps/frontend/story-frontend/src/components/PDFViewerControl.tsx:22-127 | with `<Document>` mounted once the URL exists, the URL and a successful load show the document and its controls |
| PdfViewer.Viewer.constructor | apps/frontend/story-frontend/src/components/PDFViewerControl.tsx:15-20 | page 1, no page count, loading |
| PdfViewer.Viewer.CreateFileUrl | apps/frontend/story-frontend/src/components/PDFViewerControl.tsx:22-39 | the object URL is recorded, or the preparation error is set and loading ends; the phase changes as `Step` says |
| PdfViewer.Viewer.OnLoadSuccess | apps/frontend/story-frontend/src/components/PDFViewerControl.tsx:41-46 | sets the page count, ends loading, clears the error |
| PdfViewer.Viewer.OnLoadError | apps/frontend/story-frontend/src/components/PDFViewerControl.tsx:48-52 | sets the error message and ends loading |
| PdfViewer.Viewer.HandlePrevious | apps/frontend/story-frontend/src/components/PDFViewerControl.tsx:54-59 | goes back only above page 1 and keeps the input equal to the new page; keeps the page in range |
| PdfViewer.Viewer.HandleNext | apps/frontend/story-frontend/src/components/PDFViewerControl.tsx:61-66 | goes forward only when the page count is known and not reached; keeps the page in range |
| PdfViewer.Viewer.HandleInputChange | apps/frontend/story-frontend/src/components/PDFViewerControl.tsx:68-70 | only the input text changes |
| PdfViewer.Viewer.HandlePageJump | apps/frontend/story-frontend/src/components/PDFViewerControl.tsx:72-79 | adopts the parsed page when in range, otherwise resets the input to the current page |
| StatusToggle.NewStatus | apps/frontend/story-frontend/src/components/TemplateStatusToggle.tsx:19 | public from draft, draft from public |
| StatusToggle.ToggleTwice | apps/frontend/story-frontend/src/components/TemplateStatusToggle.tsx:19 | toggling twice gives the original status |
| StatusToggle.Toggle.constructor | apps/frontend/story-frontend/src/components/TemplateStatusToggle.tsx:15-16 | not updating, no error |
| StatusToggle.Toggle.HandleToggle | apps/frontend/story-frontend/src/components/TemplateStatusToggle.tsx:18-32 | the new status is reported only after the call succeeds; a failure sets the error; updating ends either way |
| Auth.UserOf | apps/frontend/story-frontend/src/lib/auth-context.tsx:69-74 | id is `sub` when truthy, else `_id`; name is `name` when truthy, else the e-mail |
| Auth.Session.constructor | apps/frontend/story-frontend/src/lib/auth-context.tsx:36-37 | no token and no user, with the browser's storage |
| Auth.Session.IsAuthenticated | apps/frontend/story-frontend/src/lib/auth-context.tsx:92 | true exactly when the token is truthy and a user is present |
| Auth.Session.Restore | apps/frontend/story-frontend/src/lib/auth-context.tsx:38-55 | restores only when both stored entries are truthy; an unparsable user removes both entries |
| Auth.Session.Login | apps/frontend/story-frontend/src/lib/auth-context.tsx:57-83 | the token goes to state and storage before the profile fetch; a profile installs and stores the built user, and the session is then authenticated exactly when the token is non-empty; a failure leaves the user as it was, so a session without a user stays unauthenticated |
| Auth.Session.Logout | apps/frontend/story-frontend/src/lib/auth-context.tsx:85-90 | token and user cleared, both entries removed, not authenticated |
| NewTemplate.SchemaErrors | apps/frontend/story-frontend/src/app/admin/templates/new/page.tsx:21-28 | one message for each rejected field: an empty text, or a status other than draft or public |
| NewTemplate.SchemaValidIff | apps/frontend/story-frontend/src/app/admin/templates/new/page.tsx:21-28 | the schema accepts exactly the forms with five non-empty texts and status draft or public |
| NewTemplate.InitialStatusAccepted | apps/frontend/story-frontend/src/app/admin/templates/new/page.tsx:50-52 | the default status is draft and is accepted |
| NewTemplate.RequestBody | apps/frontend/story-frontend/src/app/admin/templates/new/page.tsx:76-86 | the six fields and the PDF in order, then the cover image only when chosen |
| NewTemplate.CoverEntryIff | apps/frontend/story-frontend/src/app/admin/templates/new/page.tsx:83-86 | the body has a cover image entry exactly when one was chosen, and always the PDF |
| NewTemplate.Page.constructor | apps/frontend/story-frontend/src/app/admin/templates/new/page.tsx:35-53 | step 0, not loading, no files, the default values |
| NewTemplate.Page.Next | apps/frontend/story-frontend/src/app/admin/templates/new/page.tsx:212 | "Suivant" sets the step to 1 |
| NewTemplate.Page.Previous | apps/frontend/story-frontend/src/app/admin/templates/new/page.tsx:310 | "Précédent" sets the step to 0 |
| NewTemplate.Page.SetValues | apps/frontend/story-frontend/src/app/admin/templates/new/page.tsx:201 | only the form values change |
| NewTemplate.Page.HandlePdfUpload | apps/frontend/story-frontend/src/app/admin/templates/new/page.tsx:57-60 | records the PDF and stays on the step |
| NewTemplate.Page.HandleCoverImageUpload | apps/frontend/story-frontend/src/app/admin/templates/new/page.tsx:62-64 | records the cover image |
| NewTemplate.Page.Submit | apps/frontend/story-frontend/src/app/admin/templates/new/page.tsx:66-107 | a rejected form or a missing PDF sends nothing (the latter sets the error); otherwise the body is sent, success goes to `/editor/<id>`, failure shows the message or the fallback, and loading ends |
| PdfService.LayoutDescends | apps/backend/story-backend/src/modules/pdf/pdf.service.ts:39-46 | every line of the layout is at x = 50 and lower than the lines before it |
| PdfService.Draw | apps/backend/story-backend/src/modules/pdf/pdf.service.ts:39-46 | title at (50, 50) size 16, description at (50, 80) size 12, the k-th entry as `key: value` at (50, 120 + 20k) size 12; 2 + n commands with increasing y |
| PdfService.GenerateCustomPdf | apps/backend/story-backend/src/modules/pdf/pdf.service.ts:17-56 | NotFound with nothing drawn for a missing template; otherwise the layout, and the path `.../uploads/generated/generated_<id>_<time>.pdf` once the stream finishes, or the stream's error |
| PdfController.RelativeUrl | apps/backend/story-backend/src/modules/pdf/pdf.controller.ts:22 | the URL contains no backslash |
| PdfController.GeneratedUrl | apps/backend/story-backend/src/modules/pdf/pdf.controller.ts:22 | on either separator, the URL of a generated file is `/uploads/generated/` and its name |
| PdfController.PdfFiles | apps/backend/story-backend/src/modules/pdf/pdf.controller.ts:38 | exactly the names ending in `.pdf`, in directory order |
| PdfController.GeneratedPdfs | apps/backend/story-backend/src/modules/pdf/pdf.controller.ts:30-45 | empty without the directory; otherwise one entry per PDF name, with path `/uploads/generated/` + name |
| PdfController.GeneratedFileIsListed | apps/backend/story-backend/src/modules/pdf/pdf.controller.ts:17-45 | a generated file is listed under the URL the generation route returned for it |
| TemplatesService.NewRecord | apps/backend/story-backend/src/modules/templates/templates.service.ts:14-21 | the request's fields, the PDF path and the creating user, draft, popularity 0, both timestamps now |
| TemplatesService.ApplyUpdate | apps/backend/story-backend/src/modules/templates/templates.service.ts:44-53 | the supplied fields replaced, the others kept, `updatedAt` refreshed |
| TemplatesService.ApplyUpdateIdempotent | apps/backend/story-backend/src/modules/templates/templates.service.ts:44-53 | applying an update twice is applying it once |
| TemplatesService.EmptyUpdateTouches | apps/backend/story-backend/src/modules/templates/templates.service.ts:44-53 | an empty update only refreshes `updatedAt` |
| TemplatesService.WithStatus | apps/backend/story-backend/src/modules/templates/templates.service.ts:55-64 | the record gets the requested status and the new `updatedAt`, and every other field is kept |
| TemplatesService.StatusBackRestores | apps/backend/story-backend/src/modules/templates/templates.service.ts:55-64 | setting a status and then the old one back restores the record up to `updatedAt` |
| TemplatesService.LimitCount | apps/backend/story-backend/src/modules/templates/templates.service.ts:31 | a limit of 0 returns everything, any other at most its absolute value |
| TemplatesService.WithStatusName | apps/backend/story-backend/src/modules/templates/templates.service.ts:29 | exactly the records with that status, in order; its length is the number of matching entries, so each kept entry occurs as often as in the input |
| TemplatesService.FindPopular | apps/backend/story-backend/src/modules/templates/templates.service.ts:27-34 | only records with the status, by decreasing sort field, limited, and no omitted match has a larger sort field than a returned one |
| TemplatesService.Store.constructor | apps/backend/story-backend/src/modules/templates/templates.service.ts:10-12 | an empty collection |
| TemplatesService.Store.FindAll | apps/backend/story-backend/src/modules/templates/templates.service.ts:23-25 | every stored record, in natural order |
| TemplatesService.Store.FindOne | apps/backend/story-backend/src/modules/templates/templates.service.ts:36-42 | the stored record for an existing id, NotFound otherwise |
| TemplatesService.Store.Create | apps/backend/story-backend/src/modules/templates/templates.service.ts:14-21 | stores and returns the new record under a fresh id, after which `findOne` finds it |
| TemplatesService.Store.Update | apps/backend/story-backend/src/modules/templates/templates.service.ts:44-53 | NotFound for a missing id; otherwise the updated record, stored and returned |
| TemplatesService.Store.UpdateStatus | apps/backend/story-backend/src/modules/templates/templates.service.ts:55-64 | NotFound for a missing id; otherwise only that record's status changes, other records unchanged |
| TemplatesService.Store.Remove | apps/backend/story-backend/src/modules/templates/templates.service.ts:66-71 | NotFound for a missing id; otherwise the record is gone; afterwards `findOne` raises NotFound |
| ZonesService.ZoneOf | apps/backend/story-backend/src/modules/zones/zones.service.ts:20-24 | the zone stores the request's fields with the given template id |
| ZonesService.OfTemplate | apps/backend/story-backend/src/modules/zones/zones.service.ts:31 | exactly the zones of that template, in order; its length is the number of matching entries, so each kept entry occurs as often as in the input |
| ZonesService.OfTemplateAppendOther | apps/backend/story-backend/src/modules/zones/zones.service.ts:16-31 | a new zone of another template leaves a template's zones unchanged |
| ZonesService.OfTemplateAppendSame | apps/backend/story-backend/src/modules/zones/zones.service.ts:16-31 | a new zone of a template comes last among its zones |
| ZonesService.Service.constructor | apps/backend/story-backend/src/modules/zones/zones.service.ts:10-14 | no zones, linked to the template store |
| ZonesService.Service.All | apps/backend/story-backend/src/modules/zones/zones.service.ts:31 | every zone, in natural order |
| ZonesService.Service.FindByTemplateId | apps/backend/story-backend/src/modules/zones/zones.service.ts:27-32 | NotFound for an unknown template; otherwise exactly the zones with that template id |
| ZonesService.StoreNewZone | apps/backend/story-backend/src/modules/zones/zones.service.ts:16-25 | storing a zone under a fresh id keeps the store consistent, appends the zone to its template's list and leaves every other template's list unchanged |
| ZonesService.Service.Create | apps/backend/story-backend/src/modules/zones/zones.service.ts:16-25 | NotFound, storing nothing, for an unknown template; otherwise stored with that template id and listed last among its zones |
| ZonesService.Service.Update | apps/backend/story-backend/src/modules/zones/zones.service.ts:34-42 | NotFound for a missing zone; otherwise the supplied fields replaced |
| ZonesService.Service.Remove | apps/backend/story-backend/src/modules/zones/zones.service.ts:44-49 | NotFound for a missing zone; otherwise the zone is gone |
| AdminGuard.CanActivate | apps/backend/story-backend/src/modules/auth/guards/admin.guard.ts:14-27 | no user is denied, a non-admin is denied, an admin is granted |
| AdminGuard.OnlyRoleMatters | apps/backend/story-backend/src/modules/auth/guards/admin.guard.ts:14-27 | two users with the same role get the same decision |

## Left out

- I/O is not modelled: the network, `localStorage` beyond its key/value contents, the file system, PDF drawing and rendering, and the console. Each appears only as a parameter or a returned value.
- Time is a parameter: `Date.now`, date parsing and `toLocaleDateString`. PDF dates come in as (year, month) pairs and creation times as integers.
- Concurrency and React timing are not modelled: races between an optimistic update and its response, re-renders, memoisation and effect scheduling. Each call is one atomic step.
- Floating point: coordinates are reals. `parseInt(s, 10)` is modelled on leading white space, an optional sign and the longest run of decimal digits (`Text.ParseInt`).
- PropertiesSidebar.PatchOf: `parseFloat(e.target.value) || 0` is not modelled. A position or size edit carries the number after conversion, so an empty or non-numeric input, which the source sends as 0, is not distinguished.
- `localeCompare` is modelled as code-point order (`Text.StrLess`). Locale collation is not modelled.
- Dashboard.Entries: `Object.entries` yields its keys in an order the model leaves open. The table's results are therefore stated as counts, not as orders.
- Dashboard.RoleStats: two roles that differ only in their first letter's case get the same capitalised name. The model keeps both pairs, as the source does.
- UseTemplates.FilteredTemplates: the case map covers ASCII, the Latin-1 letters, Œ/œ, Ÿ/ÿ and µ; letters of other scripts are left unchanged, and mappings that change the length (ß to SS, İ to i̇) are not modelled.
- UseUsers.FilteredUsers: the case map covers ASCII, the Latin-1 letters, Œ/œ, Ÿ/ÿ and µ; letters of other scripts are left unchanged, and mappings that change the length (ß to SS, İ to i̇) are not modelled.
- AdminTable.AdminFiltered: the case map covers ASCII, the Latin-1 letters, Œ/œ, Ÿ/ÿ and µ; letters of other scripts are left unchanged, and mappings that change the length (ß to SS, İ to i̇) are not modelled.
- Dashboard.CapitalizeNames: the case map covers ASCII, the Latin-1 letters, Œ/œ, Ÿ/ÿ and µ; letters of other scripts are left unchanged, and mappings that change the length (ß to SS, İ to i̇) are not modelled.
- Dashboard.RoleStats: the case map covers ASCII, the Latin-1 letters, Œ/œ, Ÿ/ÿ and µ; letters of other scripts are left unchanged, and mappings that change the length (ß to SS, İ to i̇) are not modelled. Its keys are counted in a map, so a key named after an `Object.prototype` member (`constructor`, `__proto__`) is counted like any other. The source's plain `{}` misbehaves on those keys. `Object.entries` also lists integer-like keys first; the model leaves the order open (see Dashboard.Entries).
- Dashboard.CategoryStats: Keys are counted in a map, so a key named after an `Object.prototype` member (`constructor`, `__proto__`) is counted like any other. The source's plain `{}` misbehaves on those keys. `Object.entries` also lists integer-like keys first; the model leaves the order open (see Dashboard.Entries).
- Dashboard.AgeRangeStats: Keys are counted in a map, so a key named after an `Object.prototype` member (`constructor`, `__proto__`) is counted like any other. The source's plain `{}` misbehaves on those keys. `Object.entries` also lists integer-like keys first; the model leaves the order open (see Dashboard.Entries).
- PdfViewer.Viewer.OnLoadSuccess: the page is not reset when a new document loads. A reload with fewer pages can leave the page above the count; only the first load promises `InRange`.
- TemplateEditor.Editor.UpdateVariable: requires an index inside the list. The source would write past the end and leave a hole in the array.
- TemplateEditor.Editor.UpdateElement: requires an index inside the list, for the same reason.
- TemplateEditor.Editor.StartDrag: requires a handle whose reference names an object the editor allocated, holding that element. Element objects created outside the editor are not modelled; `endDrag`'s identity search would never find one.
- EditorCanvas.Canvas.HandleMouseDown: requires the index of a rendered element, which is the only way the handler is reached.
- TemplateList.WithStatusChoice: the source casts any non-'all' value to a status. The model parses it, and an unknown spelling clears the status filter.
- AdminTable.Table.FetchTemplates: the load error is the fixed message; the server's message is not shown, as in the source.
- Auth.Session.Restore: when the stored user does not parse, the token has already been taken back into memory. The session is still unauthenticated because there is no user.
- Auth.Session.Login: `JSON.stringify` of the user is passed in as text. The JSON encoding itself is not modelled.
- NewTemplate.SchemaErrors: a field the form never registered (`undefined`) is not modelled. Such a field would get the schema's generic "Required" message.
- NewTemplate.Page.Submit: the disabled state of the submit button is not modelled; the `onSubmit` guard covers it.
- TemplatesService.Store.Create: Mongoose's `required` validators and any extra properties in the request body are not modelled. A new id is a parameter and must not be in use.
- TemplatesService.FindPopular: only the numeric sort fields are modelled. Ties keep their stored order (the sort is stable, Seqs.SortDescByStable), which MongoDB does not promise.
- TemplatesService.Store.FindAll: `populate('createdBy')` is not modelled; a record holds the creator's id.
- ZonesService.Service.Update: the update's partial `position`/`size` objects replace the whole stored object. The model takes the complete objects the editor sends. Zone timestamps are not modelled.
- ZonesService.Service.Create: the ObjectId cast of the template id is not modelled; a malformed template id makes Mongoose raise a `CastError` (HTTP 500).
- TemplatesService.Store.FindOne: ids are plain strings, so a malformed id is answered like a missing one. Mongoose would raise a `CastError` on it, which reaches the client as an HTTP 500.
- TemplatesService.Store.Update: ids are plain strings, so a malformed id is answered like a missing one. Mongoose would raise a `CastError` on it, which reaches the client as an HTTP 500.
- TemplatesService.Store.UpdateStatus: ids are plain strings, so a malformed id is answered like a missing one. Mongoose would raise a `CastError` on it, which reaches the client as an HTTP 500.
- TemplatesService.Store.Remove: ids are plain strings, so a malformed id is answered like a missing one. Mongoose would raise a `CastError` on it, which reaches the client as an HTTP 500.
- ZonesService.Service.FindByTemplateId: ids are plain strings, so a malformed id is answered like a missing one. Mongoose would raise a `CastError` on it, which reaches the client as an HTTP 500.
- ZonesService.Service.Update: ids are plain strings, so a malformed id is answered like a missing one. Mongoose would raise a `CastError` on it, which reaches the client as an HTTP 500.
- ZonesService.Service.Remove: ids are plain strings, so a malformed id is answered like a missing one. Mongoose would raise a `CastError` on it, which reaches the client as an HTTP 500.
- PdfService.GenerateCustomPdf: ids are plain strings, so a malformed id is answered like a missing one. Mongoose would raise a `CastError` on it, which reaches the client as an HTTP 500.
- PdfService.GenerateCustomPdf: `path.join` normalisation is not modelled. The path is written with one separator and a working directory without a trailing separator. `Object.entries(userValues)` is taken in the order the caller passes.
- PdfController.GeneratedPdfs: the `birthtime` of each file is not modelled.

## Findings

| source | as written | input that shows it | evidently intended | confidence | as-written member | corrected member |
|---|---|---|---|---|---|---|
| apps/frontend/story-frontend/src/lib/useTemplates.ts:127-131 | on failure, each matching template gets the opposite of its current status, which is the one just requested | `updateTemplateStatus(id, 'public')` on a template that is already public, with a failing request: it ends as a draft | the failure restores the status the template had before the optimistic update | not executed | UseTemplates.FlipRevertCounterexample | UseTemplates.RestoreRevertUndoes |
| apps/frontend/story-frontend/src/lib/useTemplates.ts:148-151 | on failure, the list is copied but the removed template is not put back | `deleteTemplate(id)` of the only template, with a failing request: the list is empty while the server still holds it | the failure restores the list as it was before the optimistic removal | not executed | UseTemplates.DeleteFailureCounterexample | UseTemplates.DeleteWithRollback |
| apps/frontend/story-frontend/src/components/PDFViewerControl.tsx:89-119 | the loading branch returns before `<Document>` is rendered, and only `<Document>`'s load callbacks end loading | any PDF file: the first render shows "Chargement du PDF..." and, as the callbacks can never fire, it stays there; the page controls never appear | `<Document>` is mounted as soon as the object URL exists and shows its own loading message | not executed | PdfViewer.AsWrittenNeverShowsPages | PdfViewer.MountedShowsPages |
