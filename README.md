# glow-todo-cloud: the list filter, the empty state, the edit dialog and the row component

This is a Dafny model of the client-side logic of a small to-do web app. The app shows a signed-in user's to-do
records. The user can search them and filter them by priority, category and status. Records are added and edited
in a dialog, and each record is drawn as one row with badges and buttons. Storage, sign-in and notifications belong
to a hosted backend and are not modelled. The model covers the deterministic logic in two files:

- `src/pages/Index.tsx`, the list page (module `IndexPage`):
  - the `filteredTodos` predicate, which is the conjunction of a case-insensitive search with three selectors;
  - the choice between the record rows and the empty state, and which message and button the empty state shows;
  - the page state behind the editor dialog (`dialogOpen`, `editTodo`) and the `loading` flag, modelled as the class `IndexPage.Page`. While `loading` holds the page draws only a spinner (src/pages/Index.tsx:191-197), so every input handler of `Page` requires that loading is over;
  - which handler a save goes through, and the request each handler sends.
- `src/components/TodoItem.tsx`, the row component (module `TodoItem`). It is a pure mapping from one record to
  the following:
  - its border accent;
  - its struck-through styling;
  - its priority and category badges;
  - whether the description and the due date appear;
  - the arguments its three callbacks receive.

The shared record type and the enumeration names are in module `TodoModel`. Lower-casing and substring search,
which the filter uses, are in module `Text`.

Modelling choices:
- A request to the backend is a `Request` value that the handler returns. `None` means the handler returns early
  and sends nothing. Whether the backend accepted a request is a `success` parameter.
- A `className` is modelled as a list of classes.
- The filter inputs are plain strings, as in the source. A record's priority and category are enumerations that
  are compared by their stored names.

Three points where the code is easy to misread:
- The due-date badge and the description are hidden for an empty string as well as for null, because the
  source tests truthiness.
- Every status value other than `all` and `completed` acts as "active".
- Two badges are always drawn (priority and category); the due-date badge is the only optional one.

## Model

| member | source | states |
|---|---|---|
| `TodoModel.PriorityName` | src/pages/Index.tsx:19 | a stored priority name is never the filters' `all` sentinel |
| `TodoModel.CategoryName` | src/pages/Index.tsx:20 | a stored category name is never the filters' `all` sentinel |
| `TodoModel.PriorityNameInjective` | src/components/TodoItem.tsx:14 | two priorities have the same name iff they are equal |
| `TodoModel.CategoryNameInjective` | src/components/TodoItem.tsx:15 | two categories have the same name iff they are equal |
| `Text.LowerChar` | src/pages/Index.tsx:181-182 | no capital is left; a capital becomes the same letter in lower case; every other character is kept |
| `Text.Lower` | src/pages/Index.tsx:181-182 | lower-casing keeps the length |
| `Text.LowerAt` | src/pages/Index.tsx:181-182 | each character of the lowered text is the lowered character at that position |
| `Text.LowerIdempotent` | src/pages/Index.tsx:181-182 | lower-casing twice is the same as lower-casing once |
| `Text.IncludesIffOccurs` | src/pages/Index.tsx:181-182 | `includes` holds iff the query occurs in the text at some index |
| `Text.Includes` | src/pages/Index.tsx:181-182 | `s.includes(q)`: `q` is a prefix of `s` or of one of its suffixes; its meaning is stated by `Text.IncludesIffOccurs` |
| `IndexPage.MatchesSearch` | src/pages/Index.tsx:181-182 | the lowered query is included in the lowered title, or in the lowered description when it is not null (`?? false` otherwise); stated by `IndexPage.SearchMeaning` |
| `IndexPage.MatchesPriority` | src/pages/Index.tsx:183 | the selector is `all` or equals the record's stored priority name; stated by `IndexPage.PriorityFilter` |
| `IndexPage.MatchesCategory` | src/pages/Index.tsx:184 | the selector is `all` or equals the record's stored category name; stated by `IndexPage.CategoryFilter` |
| `IndexPage.MatchesStatus` | src/pages/Index.tsx:185-186 | the selector is `all`, or it is `completed` and the record is completed, or it is anything else and the record is open; stated by `IndexPage.StatusFilter` |
| `IndexPage.Keep` | src/pages/Index.tsx:180-188 | the filter callback: the conjunction of the search, priority, category and status tests; stated by `IndexPage.FilterMembership` |
| `IndexPage.FilterTodos` | src/pages/Index.tsx:180-189 | the result is no longer than the list; each shown record passes all four tests and comes from the list |
| `IndexPage.FilterMembership` | src/pages/Index.tsx:180-189 | a record is shown iff it is in the list and matches the search, priority, category and status |
| `IndexPage.FilterIsSubsequence` | src/pages/Index.tsx:180-189 | the shown list is a subsequence of the list, so the relative order is kept |
| `IndexPage.FilterCount` | src/pages/Index.tsx:180-189 | a kept record is shown as often as it occurs in the list; a dropped one is never shown |
| `IndexPage.FilterConcat` | src/pages/Index.tsx:180-189 | filtering a concatenation gives the concatenation of the filtered parts |
| `IndexPage.FilterKeepsPassing` | src/pages/Index.tsx:180-189 | a list whose records all pass is returned unchanged |
| `IndexPage.FilterDropsFailing` | src/pages/Index.tsx:180-189 | a list whose records all fail is filtered to nothing |
| `IndexPage.FilterIdempotent` | src/pages/Index.tsx:180-189 | filtering the shown list again with the same inputs returns it unchanged |
| `IndexPage.UnfilteredKeepsAll` | src/pages/Index.tsx:36-39 | with an empty search and every selector at `all`, every record is shown (the filter's lines are 180-189) |
| `IndexPage.SearchMeaning` | src/pages/Index.tsx:181-182 | the search matches iff the lowered query occurs in the lowered title or in the lowered non-null description; with a null description only the title can match |
| `IndexPage.SearchIgnoresQueryCase` | src/pages/Index.tsx:181-182 | lower-casing the query first does not change the outcome |
| `IndexPage.SearchIgnoresRecordCase` | src/pages/Index.tsx:181-182 | lower-casing the title and the description first does not change the outcome |
| `IndexPage.StatusFilter` | src/pages/Index.tsx:185-186 | status `completed` shows exactly the completed records; any other value except `all` (`active` included) shows exactly the open ones |
| `IndexPage.PriorityFilter` | src/pages/Index.tsx:183 | selecting a priority's name shows exactly the records with that priority |
| `IndexPage.CategoryFilter` | src/pages/Index.tsx:184 | selecting a category's name shows exactly the records with that category |
| `IndexPage.UnknownSelectionHidesAll` | src/pages/Index.tsx:183-184 | a priority or category value that is not `all` and names no member of the enumeration hides every record |
| `IndexPage.ExampleSearch` | src/pages/Index.tsx:180-189 | with "Buy milk" (open, low, shopping) and "Write report" (completed, high, work), searching "milk" shows only "Buy milk" |
| `IndexPage.ExampleStatusAndPriority` | src/pages/Index.tsx:180-189 | in the same example, status `completed` shows only "Write report", and so does priority `high` |
| `IndexPage.Content` | src/pages/Index.tsx:277-306 | the empty state appears iff no record is shown; otherwise there is one row per shown record, rendered by the row component |
| `IndexPage.EmptyStateChoice` | src/pages/Index.tsx:282-291 | the message is "Try adjusting your filters" iff a search, priority or category is set, and otherwise the create-first message; the add-first button is shown exactly with the create-first message |
| `IndexPage.EmptyStateIgnoresStatus` | src/pages/Index.tsx:282-291 | the status filter does not change the empty state |
| `IndexPage.AddFirstButtonMeansNoRecords` | src/pages/Index.tsx:277-291 | with status `all`, the add-first button appears only when the list has no records at all |
| `IndexPage.AddFirstButtonDespiteRecords` | src/pages/Index.tsx:277-291 | with status `completed`, a list holding only an open record shows the create-first message and the button |
| `IndexPage.SaveRouteFor` | src/pages/Index.tsx:312 | a save goes through update iff there is an edit target, and then that record is the target; otherwise it goes through create |
| `IndexPage.CreateRequest` | src/pages/Index.tsx:87-94 | nothing is sent without a user; otherwise the draft is inserted with the user's id as owner |
| `IndexPage.UpdateRequest` | src/pages/Index.tsx:112-119 | nothing is sent without an edit target; otherwise every draft field is updated for the target's id |
| `IndexPage.RowRequest` | src/pages/Index.tsx:138-158 | toggle sends a completion update for the given id and value; delete sends a delete for the id; edit sends nothing |
| `IndexPage.UpdateRouteAlwaysSends` | src/pages/Index.tsx:113 | on the update route the early return never fires, and the update names the target's id |
| `IndexPage.RowRequestsNameTheirRecord` | src/pages/Index.tsx:294-299 | every request sent from a row's callbacks is a toggle or a delete of that row's record |
| `IndexPage.Page.constructor` | src/pages/Index.tsx:32-39 | the page starts with no records, no search, every selector at `all`, the dialog closed, no edit target and the loading spinner showing |
| `IndexPage.Page.ReceiveTodos` | src/pages/Index.tsx:75-83 | a fetched list replaces the records; a null list gives none; the spinner ends; nothing else changes |
| `IndexPage.Page.FetchFailed` | src/pages/Index.tsx:76-83 | a failed fetch keeps the records and still ends the spinner (the `finally` block); nothing else changes |
| `IndexPage.Page.SetSearchQuery` | src/pages/Index.tsx:222 | only the search input changes |
| `IndexPage.Page.SetFilterStatus` | src/pages/Index.tsx:237 | only the status input changes |
| `IndexPage.Page.SetFilterPriority` | src/pages/Index.tsx:246 | only the priority input changes |
| `IndexPage.Page.SetFilterCategory` | src/pages/Index.tsx:259 | only the category input changes |
| `IndexPage.Page.AddTodo` | src/pages/Index.tsx:226-228 | "Add Todo" clears the edit target and opens the dialog, so the next save creates |
| `IndexPage.Page.AddFirstTodo` | src/pages/Index.tsx:286-287 | "Add Your First Todo" (shown only once loading is over and the empty state offers it) opens the dialog and keeps whatever edit target there was |
| `IndexPage.Page.AddFirstTodoCorrected` | src/pages/Index.tsx:286-287 | the corrected button clears the edit target as well, so the next save creates |
| `IndexPage.Page.SetDialogOpen` | src/pages/Index.tsx:311 | opening or closing the dialog leaves the edit target as it is |
| `IndexPage.Page.OnRowEvent` | src/pages/Index.tsx:298-303 | edit makes that record the target and opens the dialog, so the next save updates it; toggle and delete send their request and leave the page state alone |
| `IndexPage.Page.Save` | src/pages/Index.tsx:112-136 | with a target, the draft updates the target's id and a successful update clears the target (a failed one keeps it); without a target, it is the create request for the user; the dispatch is line 312 |
| `IndexPage.EditThenAddFirst` | src/pages/Index.tsx:286-291 | as written: edit an open record, close the dialog, switch to the empty completed tab, press "Add Your First Todo" and save; the request overwrites that record |
| `IndexPage.EditThenAddFirstCorrected` | src/pages/Index.tsx:286-291 | the same steps with the corrected button insert the draft for the user |
| `TodoModel.Truthy` | src/components/TodoItem.tsx:59 | JavaScript truthiness of a nullable string: not null and not empty; it guards the description (line 59) and the due-date badge (line 92) |
| `TodoItem.PriorityColors` | src/components/TodoItem.tsx:29-33 | the `priorityColors` map: the three badge classes of each priority; stated by `TodoItem.PriorityColorsDistinct` and `TodoItem.AccentIsPriorityBadgeColour` |
| `TodoItem.CategoryColors` | src/components/TodoItem.tsx:35-41 | the `categoryColors` map: the three badge classes of each category; stated by `TodoItem.CategoryColorsDistinct` |
| `TodoItem.BorderAccent` | src/components/TodoItem.tsx:46 | the nested ternary choosing the left border's theme colour from the priority; stated by `TodoItem.BorderAccentByPriority` |
| `TodoItem.TitleClass` | src/components/TodoItem.tsx:56 | `font-semibold`, plus `line-through text-muted-foreground` when completed; stated by `TodoItem.TitleStruckIffCompleted` |
| `TodoItem.DescriptionClass` | src/components/TodoItem.tsx:60 | `text-sm mt-1`, plus `line-through text-muted-foreground` when completed and `text-muted-foreground` otherwise; stated by `TodoItem.DescriptionStruckIffCompleted` |
| `TodoItem.Render` | src/components/TodoItem.tsx:43-103 | the checkbox shows the completion flag and the title is the record's title; the badge labels are the priority and category names, and their classes are `priorityColors[priority]` and `categoryColors[category]`; the description paragraph and the due-date badge appear iff those fields are truthy, and show their values |
| `TodoItem.BorderAccentByPriority` | src/components/TodoItem.tsx:46 | the border accent is `destructive` iff the priority is high, `warning` iff medium, and `success` iff low |
| `TodoItem.AccentIsPriorityBadgeColour` | src/components/TodoItem.tsx:29-46 | the priority badge's classes are built from the border accent's colour |
| `TodoItem.PriorityColorsDistinct` | src/components/TodoItem.tsx:29-33 | the three priorities have three different badge classes |
| `TodoItem.CategoryColorsDistinct` | src/components/TodoItem.tsx:35-41 | the five categories have five different badge classes |
| `TodoItem.BadgesIdentifyFields` | src/components/TodoItem.tsx:85-88 | two rows draw their priority badges in the same classes iff their records have the same priority, and likewise for the category badges |
| `TodoItem.TitleStruckIffCompleted` | src/components/TodoItem.tsx:56 | the title has `line-through` and `text-muted-foreground` iff the record is completed |
| `TodoItem.DescriptionStruckIffCompleted` | src/components/TodoItem.tsx:59-62 | a shown description is non-null and non-empty; it is always muted, and struck through iff the record is completed |
| `TodoItem.Callback` | src/components/TodoItem.tsx:48-81 | the checkbox calls `onToggle(id, checked)`, delete calls `onDelete(id)`, and edit calls `onEdit` with the unchanged record |
| `TodoItem.ToggleTwiceRestores` | src/components/TodoItem.tsx:48-50 | once the record shows the first click's value, a second click asks `onToggle` for the original value again; this is the checkbox's argument only, not the stored record |

## Findings

| source | as written | input that shows it | evidently intended | confidence | as-written member | corrected member |
|---|---|---|---|---|---|---|
| src/pages/Index.tsx:287 | "Add Your First Todo" only calls `setDialogOpen(true)`. `editTodo` is cleared only by "Add Todo" (226-228) and by a successful update (127), so it can still hold a record whose edit was cancelled | edit an open record; close the dialog without saving; switch to the Completed tab with no completed records; press "Add Your First Todo"; save a draft. The save goes through `handleUpdateTodo` and overwrites the record instead of creating one | like "Add Todo", the button clears the edit target, so the save creates a new record owned by the user | medium, not executed | `IndexPage.EditThenAddFirst` | `IndexPage.EditThenAddFirstCorrected` |

## Left out

- Sign-in and session handling (src/pages/Index.tsx:41-59, 176-178) is left out. It consists of backend client subscriptions and the redirect to the sign-in page.
- The network side of fetch, insert, update, toggle and delete (src/pages/Index.tsx:67-174) is left out, and so are the success and error toasts and the re-fetch after every success. A request is modelled as a value, and its outcome as a boolean. Only the state changes the page makes on a result are modelled (lines 75 and 127).
- The order in which overlapping re-fetches resolve is not modelled. It is a race between asynchronous calls.
- `IndexPage.Page.Save`: the update request and its answer are modelled as one step. In the source `setEditTodo(null)` (src/pages/Index.tsx:127) runs only after the awaited update (lines 116-119), so a success that lands after "Add Todo" or another row's edit has set a new target clears that newer target, and the next save then creates. The model does not capture this interleaving.
- The effect of a request on the stored records belongs to the backend. So the round trip of toggling twice is stated only at the row level (`TodoItem.ToggleTwiceRestores`).
- The due date's `format(new Date(...), "MMM dd, yyyy")` text is left out. It uses a foreign date library and depends on the time zone. Only whether the badge is present, and its raw value, are modelled.
- `Text.Lower`, `Text.LowerChar`: they lower-case only the ASCII letters. JavaScript's `toLowerCase` maps all of Unicode, so the search model is exact only for ASCII text.
- `TodoItem.Render`: class strings are modelled as lists of classes. The exact spacing of the template strings (a trailing space after `font-semibold`) is not kept.
- The `checked as boolean` cast of the checkbox callback is modelled as a plain boolean. The checkbox's third, indeterminate state is never produced here.
- The editor dialog (`TodoDialog`) is not part of this model. It decides when `onSave` and `onOpenChange` are called and whether it closes after a save, so `IndexPage.Page.Save` leaves `dialogOpen` unchanged.
- The JSX layout, the icons and the classes outside the two colour maps and the struck-through and muted styling are left out. They have no behaviour to state.
