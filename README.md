# Task dashboard core, modelled in Dafny

This project models the list logic of a React task dashboard with Kanban and Gantt views
and Arabic/English localisation. It covers:

- the **task store** of the dashboard page: an ordered list of tasks with create, update,
  delete and status change, loaded from and saved to the browser-storage entry `tasks`;
- the **derived views** over that list: the three Kanban columns and their count badges,
  the dashboard counters, and the Gantt projection;
- the **notification log**: a most-recent-first list with read flags and its own
  storage entry;
- the **task form**: six fields, prefilled when editing, validated and turned into a
  draft on submit, reset after a create;
- the **translation lookup** `t` with its dot-separated keys, the initial language and
  the document direction;
- the **task card helpers**: priority class, icon and label, status label, attachment
  badge and collaborator avatars.

Where the source changes state, the model is a class whose fields are that state:
`IndexPage.TaskStore`, `NotificationSystem.NotificationLog`, `TaskForm.TaskFormState` and
`LanguageContext.LanguageProvider`. Each method's `ensures` gives the new state as a pure
function of the old state. The lemmas beside those functions state what the source
promises. Loops in the source stay loops: the segment walk of `t`, and the `forEach` that
fills each Gantt row. The `ganttData` `map` that builds those rows is a loop method too
(`GanttChart.GanttData`), and the fourteen-day `dateArray` is a sequence comprehension
(`GanttChart.DateWindow`). The other `map`/`filter`/`reduce`/`sort` expressions are
recursive functions with contracts.

Modelling conventions:

- Statuses and priorities are the strings the source compares. Values other than the
  three known ones can come out of storage, and the helpers have a branch for them.
- Instants are integer milliseconds. A day is `1000 * 3600 * 24` ms, and `Math.ceil` of a
  duration in days is an exact integer ceiling (`Time.CeilDays`).
- Nondeterministic inputs are parameters: the clock (`now`), the random id suffix of a
  new task and the random start offsets of the Gantt bars (each 0..4 days).
- A storage entry is a `Persistence.Blob`: missing, malformed, or the decoded records.

Behaviours worth knowing:

- On a missing or bad entry, the task store falls back to the five sample tasks. The
  notification log keeps its empty list.
- New task ids are `task-` plus a random suffix. Nothing checks that they are unique, and
  the model makes no uniqueness claim.
- The notification log prepends new entries (most recent first).
- `t` also indexes into strings: a key segment such as `0` applied to a string value
  gives its first character.

## Model

| member | source | states |
|---|---|---|
| `Persistence.AfterSave` | src/pages/Index.tsx:90-95 | a non-empty list overwrites the stored entry with the whole list; an empty list leaves the entry as it was (the same rule guards the notifications entry) |
| `IndexPage.LoadedTasks` | src/pages/Index.tsx:69-88 | a parsed entry gives its records; a missing or malformed entry gives the five sample tasks |
| `IndexPage.ReplaceById` | src/pages/Index.tsx:97-101 | same length and order; each task whose id is the update's id becomes the update, every other task is unchanged |
| `IndexPage.ReplaceAbsentId` | src/pages/Index.tsx:99 | an update whose id no task has leaves the list unchanged |
| `IndexPage.ReplaceThenRead` | src/pages/Index.tsx:97-101 | after an update every task with that id equals the update, and every other task was already in the list |
| `IndexPage.CreateTask` | src/pages/Index.tsx:103-107 | the new task carries the draft's fields under the id `task-` followed by the random suffix |
| `IndexPage.RemoveById` | src/pages/Index.tsx:111-113 | no remaining task has the deleted id |
| `IndexPage.RemoveByIdKeepsOthers` | src/pages/Index.tsx:112 | delete keeps exactly the tasks with another id, in their original relative order and with every duplicate copy (multiset count per task); deleting an absent id changes nothing |
| `IndexPage.SetStatus` | src/pages/Index.tsx:115-121 | same length and order; tasks with the id get the new status with all other fields kept; other tasks are unchanged |
| `IndexPage.SetStatusAbsentId` | src/pages/Index.tsx:117-119 | a status change for an absent id leaves the list unchanged |
| `IndexPage.SetStatusOnlyStatus` | src/pages/Index.tsx:118 | a status change touches no field but `status`; the id and all draft fields are identical |
| `IndexPage.SaveThenLoad` | src/pages/Index.tsx:69-95 | a non-empty list that was saved loads back unchanged |
| `IndexPage.EmptyListReloadsSnapshot` | src/pages/Index.tsx:92 | after the last task is deleted, a reload gives the previous snapshot (or the sample tasks), not an empty list, unless the stored entry itself is an empty list |
| `IndexPage.CardStatusChangeTargetsCard` | src/components/TaskCard.tsx:58-59 | the card's status-change call sets its own task's status and leaves every task with another id unchanged; since ids are not checked for uniqueness, a task sharing the card's id changes too |
| `IndexPage.BoardEditReplacesTask` | src/components/KanbanBoard.tsx:31-34 | a board edit passed to the store replaces the edited task under its own id by the submitted data and leaves tasks with other ids alone |
| `IndexPage.CreateCompleteDeleteScenario` | src/pages/Index.tsx:90-121 | driving a `TaskStore` that starts empty: create a task due in two days (total 1, upcoming 1), mark it done (upcoming 0, completed 1), delete it (total 0, stored snapshot still the one completed task) |
| `IndexPage.TaskStore.constructor` | src/pages/Index.tsx:66 | the first render has no tasks, and storage holds the given entry |
| `IndexPage.TaskStore.SetTasks` | src/pages/Index.tsx:90-95 | the list is replaced wholesale and the save rule is applied to storage |
| `IndexPage.TaskStore.Load` | src/pages/Index.tsx:69-88 | the list becomes the loaded tasks, then the save rule runs |
| `IndexPage.TaskStore.Update` | src/pages/Index.tsx:97-101 | the list becomes `ReplaceById` of the old list, then the save rule runs |
| `IndexPage.TaskStore.Create` | src/pages/Index.tsx:103-109 | the new task is appended after all previous tasks, and the list is written to storage |
| `IndexPage.TaskStore.Delete` | src/pages/Index.tsx:111-113 | the list becomes `RemoveById` of the old list, then the save rule runs |
| `IndexPage.TaskStore.ChangeStatus` | src/pages/Index.tsx:115-121 | the list becomes `SetStatus` of the old list, then the save rule runs |
| `KanbanBoard.Column` | src/components/KanbanBoard.tsx:23-25 | every task in a column has that column's status |
| `KanbanBoard.ColumnIsStableFilter` | src/components/KanbanBoard.tsx:23-25 | a column holds exactly the tasks of its status, in their original relative order and with every duplicate copy (multiset count per task) |
| `KanbanBoard.Partition` | src/components/KanbanBoard.tsx:23-25 | the three columns hold only tasks of their own status |
| `KanbanBoard.PartitionIsExact` | src/components/KanbanBoard.tsx:23-25 | when all statuses are known, the three columns together hold every task exactly once (multiset equality) and their lengths sum to the list length |
| `KanbanBoard.UnknownStatusHidden` | src/components/KanbanBoard.tsx:23-25 | a task with an unknown status appears in no column |
| `KanbanBoard.Badges` | src/components/KanbanBoard.tsx:68-122 | the three header badges equal the three column lengths |
| `KanbanBoard.EditSubmission` | src/components/KanbanBoard.tsx:31-34 | with a task being edited, the result carries that task's id and exactly the submitted data; with none, nothing is passed on |
| `KanbanBoard.UnchangedEditIsIdentity` | src/components/KanbanBoard.tsx:31-34 | for a task whose title is not whitespace only and whose status is not empty, opening the edit dialog and saving without changes gives back the same task (a blank title is rejected, and an empty status is resubmitted as `todo`) |
| `DashboardStats.Compute` | src/components/DashboardStats.tsx:11-22 | the total is the list length; completed <= total; upcoming + completed <= total, because the two filters are disjoint |
| `DashboardStats.CompletedIsDoneColumn` | src/components/DashboardStats.tsx:12 | the completed counter equals the length of the board's done column |
| `DashboardStats.IsUpcoming` | src/components/DashboardStats.tsx:14-19 | a task is upcoming exactly when it is not done and its due date is not in the past and at most three whole days ahead |
| `DashboardStats.UpcomingCountsDueSoon` | src/components/DashboardStats.tsx:13-20 | the upcoming counter is 0 for no tasks, and a task in front adds one exactly when it is upcoming |
| `DashboardStats.UpcomingIsAdditive` | src/components/DashboardStats.tsx:13-20 | the upcoming counter of two lists together is the sum of their counters |
| `DashboardStats.TotalIsSumOfColumns` | src/components/DashboardStats.tsx:11 | with known statuses, the total equals the sum of the three column badges |
| `DashboardStats.Attachments` | src/components/DashboardStats.tsx:39 | the attachments sum is 0 for no tasks, a single task's own `attachments`, and not negative when no task has a negative count |
| `DashboardStats.Collaborators` | src/components/DashboardStats.tsx:22 | the collaborators sum is 0 for no tasks, a single task's own `collaborators`, and not negative when no task has a negative count |
| `DashboardStats.SumsAreAdditive` | src/components/DashboardStats.tsx:22-39 | the attachment and collaborator counters are 0 for no tasks, equal one task's own `attachments` and `collaborators`, and add up over concatenation |
| `DashboardStats.SumsCons` | src/components/DashboardStats.tsx:22-39 | a task in front adds its own `attachments` to the attachments counter and its own `collaborators` to the collaborators counter |
| `NotificationSystem.UnreadCount` | src/components/NotificationSystem.tsx:49 | the unread count never exceeds the number of entries |
| `NotificationSystem.UnreadCountCounts` | src/components/NotificationSystem.tsx:49 | the unread count is at most the length, and it is zero exactly when every entry is read |
| `NotificationSystem.MarkAll` | src/components/NotificationSystem.tsx:51-57 | same length and order; every entry becomes read, with all its other fields kept |
| `NotificationSystem.MarkAllClearsUnread` | src/components/NotificationSystem.tsx:51-57 | after marking all, the unread count is 0; marking all twice equals marking once |
| `NotificationSystem.MarkOne` | src/components/NotificationSystem.tsx:59-64 | entries with the id become read and nothing else changes |
| `NotificationSystem.MarkOneNeverIncreases` | src/components/NotificationSystem.tsx:59-64 | marking one never raises the unread count, and lowers it when an unread entry has that id |
| `NotificationSystem.RemoveById` | src/components/NotificationSystem.tsx:66-69 | no remaining entry has the removed id |
| `NotificationSystem.RemoveByIdKeepsOthers` | src/components/NotificationSystem.tsx:67 | removal keeps exactly the entries with another id, in their original order and with every duplicate copy (multiset count per entry) |
| `NotificationSystem.NewNotification` | src/components/NotificationSystem.tsx:81-87 | the new entry is unread, stamped `now`, with id `notification-` followed by the decimal `now` |
| `NotificationSystem.AddGrowsUnread` | src/components/NotificationSystem.tsx:89 | prepending grows the length and the unread count by one each and keeps the old list behind the head |
| `NotificationSystem.AddedIdsDiffer` | src/components/NotificationSystem.tsx:82 | notifications added at different instants have different ids |
| `NotificationSystem.LoadedNotifications` | src/components/NotificationSystem.tsx:25-40 | a parsed entry gives its records; a missing or malformed entry keeps the current list |
| `NotificationSystem.NotificationLog.constructor` | src/components/NotificationSystem.tsx:20 | the log starts empty, and storage holds the given entry |
| `NotificationSystem.NotificationLog.SetNotifications` | src/components/NotificationSystem.tsx:43-47 | the list is replaced and the save rule is applied |
| `NotificationSystem.NotificationLog.Load` | src/components/NotificationSystem.tsx:25-40 | only a parsed entry sets the list (and triggers the save rule); otherwise state and storage are unchanged |
| `NotificationSystem.NotificationLog.MarkAllAsRead` | src/components/NotificationSystem.tsx:51-57 | the list becomes `MarkAll` of the old list, then the save rule runs |
| `NotificationSystem.NotificationLog.MarkAsRead` | src/components/NotificationSystem.tsx:59-64 | the list becomes `MarkOne` of the old list, then the save rule runs |
| `NotificationSystem.NotificationLog.Remove` | src/components/NotificationSystem.tsx:66-69 | the list becomes `RemoveById` of the old list, then the save rule runs |
| `NotificationSystem.NotificationLog.Add` | src/components/NotificationSystem.tsx:80-97 | the new entry is prepended, its id is returned, and the list is written |
| `TaskForm.Prefilled` | src/components/TaskForm.tsx:29-38 | with an edit task, its title, description, due date, priority, attachments and collaborators are copied in; without one, nothing changes |
| `TaskForm.SubmittedStatus` | src/components/TaskForm.tsx:52 | the edited task's status, or `todo` when creating or when that status is empty |
| `TaskForm.Submission` | src/components/TaskForm.tsx:40-55 | nothing is submitted exactly when the title is whitespace only; otherwise the draft holds the current fields, no id, the date defaulting to now, and the status as above |
| `TaskForm.AfterSubmit` | src/components/TaskForm.tsx:57-65 | after a create the fields reset to "", "", now, medium, 0, 0; after an edit or a rejected submit they stay as they were |
| `TaskForm.UnchangedEditResubmits` | src/components/TaskForm.tsx:29-55 | for a task whose title is not whitespace only and whose status is not empty, a prefilled form submitted unchanged yields exactly the edited task's draft and keeps its fields (a blank title is rejected, and an empty status is resubmitted as `todo`) |
| `TaskForm.BlankTitleRejected` | src/components/TaskForm.tsx:43 | a title of spaces is rejected and changes no field, when creating and when editing |
| `TaskForm.TaskFormState.constructor` | src/components/TaskForm.tsx:22-38 | the initial field values, then the prefill from the edit task |
| `TaskForm.TaskFormState.SetEditTask` | src/components/TaskForm.tsx:29-38 | a new edit task prefills the fields |
| `TaskForm.TaskFormState.Submit` | src/components/TaskForm.tsx:40-66 | returns `Submission` of the old fields and leaves the fields as `AfterSubmit` says |
| `Text.TrimEmptyIffBlank` | src/components/TaskForm.tsx:43 | `title.trim()` is empty exactly when every character is ECMAScript whitespace or a line terminator |
| `Text.SplitJoin` | src/contexts/LanguageContext.tsx:32 | splitting a dot-joined key on `.` gives back its segments |
| `Text.CanonicalIndex` | src/contexts/LanguageContext.tsx:36 | a key names a string index only when it is that index's canonical decimal form |
| `Text.CanonicalIndexOfDecimal` | src/contexts/LanguageContext.tsx:36 | every index's decimal form is read back as that index |
| `LanguageContext.ChildIndexesString` | src/contexts/LanguageContext.tsx:36-37 | on a string value, the segment naming position i gives the one-character string at i |
| `LanguageContext.TranslateIndexesString` | src/contexts/LanguageContext.tsx:31-44 | `t("k.i")`, where `k` names a string in the language's table and `i` one of its positions, gives the character at that position |
| `LanguageContext.Translate` | src/contexts/LanguageContext.tsx:31-44 | `t` gives back either the key itself or a non-empty string, and the key whenever the language has no table |
| `LanguageContext.LanguageProvider.T` | src/contexts/LanguageContext.tsx:31-44 | the loop with its early return computes `Translate`: the value reached by the key's segments if it is a string, else the key |
| `LanguageContext.TranslateFollowsPath` | src/contexts/LanguageContext.tsx:35-43 | a key whose segments name nested tables that end in a non-empty string translates to that string |
| `LanguageContext.TranslateMissingSegment` | src/contexts/LanguageContext.tsx:36-39 | a missing segment, or one whose value is the empty string, gives back the key |
| `LanguageContext.TranslateNonStringFallsBack` | src/contexts/LanguageContext.tsx:43 | a key that ends on a subtree, or a language with no table, gives back the key |
| `LanguageContext.InitialLanguage` | src/contexts/LanguageContext.tsx:16-19 | the saved language if present and non-empty, otherwise `ar` |
| `LanguageContext.Direction` | src/contexts/LanguageContext.tsx:26 | the direction is `rtl` if and only if the language is `ar`, and `ltr` otherwise |
| `LanguageContext.LanguageProvider.constructor` | src/contexts/LanguageContext.tsx:16-50 | the initial language, its direction and `lang` are set on mount |
| `LanguageContext.LanguageProvider.ChangeLanguage` | src/contexts/LanguageContext.tsx:21-28 | the language is set and saved, and the direction and `lang` follow it |
| `Time.CeilDays` | src/components/GanttChart.tsx:37 | the least whole number of days covering a span of milliseconds |
| `GanttChart.Project` | src/components/GanttChart.tsx:32-53 | end is the due date, start is now minus the offset in days, duration is the ceiling of the span in days when that is positive and exactly 1 otherwise, and `daysFromNow` is the ceiling of the days to the due date |
| `GanttChart.ChartData` | src/components/GanttChart.tsx:32-53 | one projected entry per task, in the tasks' order |
| `GanttChart.SortByEnd` | src/components/GanttChart.tsx:56 | the sorted data is a permutation (multiset equality) of the projection, ordered by non-decreasing end |
| `GanttChart.SortedPairwise` | src/components/GanttChart.tsx:56 | in the sorted data an earlier entry never ends after a later one |
| `GanttChart.SortByEndStable` | src/components/GanttChart.tsx:56 | entries with equal end keep their relative order (the sort is stable) |
| `GanttChart.SortedIsPermutation` | src/components/GanttChart.tsx:32-56 | every task's projection appears in the sorted data, which has one entry per task |
| `GanttChart.DateWindow` | src/components/GanttChart.tsx:59-63 | exactly fourteen instants, at offsets of 0 to 13 days from now |
| `GanttChart.BuildRow` | src/components/GanttChart.tsx:75-88 | one cell per day; a cell is active if and only if start <= day <= end, its bar is 1 exactly then, and its status and priority are present exactly on active days |
| `GanttChart.GanttData` | src/components/GanttChart.tsx:74-90 | one row per task, the i-th row projecting the i-th sorted entry over the date window |
| `GanttChart.BarColor` | src/components/GanttChart.tsx:93-104 | done is green whatever the priority, in progress is blue, otherwise red/orange/grey for high/medium/low, and grey by default |
| `GanttChart.BarColorDistinct` | src/components/GanttChart.tsx:93-104 | the priority matters only for statuses other than done and in progress, where the three known priorities get different colours |
| `GanttChart.FormatYAxisTick` | src/components/GanttChart.tsx:125-128 | a name of 15 characters or fewer is unchanged; a longer one becomes its first 15 characters followed by `...` |
| `TaskCard.WithId` | src/components/KanbanBoard.tsx:33 | the spread `{ ...draft, id }` carries the id and exactly the draft's fields |
| `TaskCard.PriorityClass` | src/components/TaskCard.tsx:34-45 | a known priority maps to `priority-` followed by its name, and any other value to the empty class |
| `TaskCard.PriorityClassInjective` | src/components/TaskCard.tsx:34-45 | the three known priorities get three distinct classes |
| `TaskCard.PriorityIconOf` | src/components/TaskCard.tsx:47-56 | there is an icon for low and high only: none for medium or unknown values |
| `TaskCard.StatusLabel` | src/components/TaskCard.tsx:68-79 | todo, in progress and done get their own labels (waiting, in progress, completed); an unknown status is returned unchanged |
| `TaskCard.StatusLabelInjective` | src/components/TaskCard.tsx:68-79 | the three statuses get three distinct labels |
| `TaskCard.PriorityLabel` | src/components/TaskCard.tsx:129 | low and medium have their own labels; every other value, unknown ones included, gets the high label |
| `TaskCard.Badges` | src/components/TaskCard.tsx:132-161 | the attachment badge shows only when attachments > 0; `min(collaborators, 3)` avatars are drawn when collaborators > 0; the overflow appears only beyond 3; avatars plus overflow equal the collaborators when that count is not negative (a negative count draws no avatars and no overflow); the status badge, priority label, priority class and priority icon are those of the task's own status and priority |
| `TaskCard.OverflowText` | src/components/TaskCard.tsx:161 | the text `+` followed by the decimal `collaborators - 3`, exactly when collaborators > 3 |
| `TaskCard.OnStatusChange` | src/components/TaskCard.tsx:58-59 | the card forwards its own task's id with the chosen status |

## Left out

- Error logging: the `console.error` calls in the two load effects (src/pages/Index.tsx:82, src/components/NotificationSystem.tsx:37) are console output; only the fallback they accompany is modelled.
- Rendering: JSX, styling, dialogs, popovers, tabs, and the recharts chart itself (`BarChart`, `Bar`, `Tooltip`, `Legend`, `CustomBar`). These are presentation and foreign library calls.
- Toasts are not modelled, and neither is the global `window.addNotification` registration with its `addNotification` wrapper (src/components/NotificationSystem.tsx:100-107, 186-191). They are side effects through ambient globals.
- `localStorage` and `JSON.parse`/`JSON.stringify`: a storage entry is a `Blob` (missing, malformed or records). The ISO date text and its conversion back to a `Date` are folded into the decoded records. A parsed entry is taken to hold records of the right shape. Storage write failures (quota) are not modelled.
- Date formatting with `Intl.DateTimeFormat`, `formatDistance` and `format` (GanttChart formatDate, TaskCard getTimeRemaining, the form's date button, NotificationSystem formatDate). This is locale formatting in foreign libraries. The Gantt cells are indexed by day position instead of by formatted date.
- Clock and randomness: `Date.now()`, `new Date()` and `Math.random()` are parameters. Where the source reads the clock several times in one operation, the model uses one `now`. Daylight-saving effects of `setDate` are not modelled, and neither is the browser's time zone: the sample tasks are due at midnight UTC.
- Numbers: `attachments` and `collaborators` are integers. The non-integer or `NaN` values that `Number(e.target.value)` can produce are not modelled.
- Characters: Dafny strings are sequences of Unicode scalar values, while JavaScript counts UTF-16 code units. `FormatYAxisTick` and the string indexing of `t` differ from the source for characters outside the Basic Multilingual Plane.
- `LanguageContext.Child`: the lookup sees only a table's own entries and a string's indexed characters. Inherited JavaScript properties such as `length` or `constructor` are not modelled. Table values other than strings and nested tables are not modelled either.
- React scheduling: each state update is followed at once by the save effect it triggers. Batching and stale closures are not modelled. The Kanban board's `editingTask` and dialog flags and the card's detail-dialog flag are UI state. The form's input change handlers are plain assignments to the public fields of `TaskFormState`.
- The Gantt chart is modelled although the page does not render it (src/pages/Index.tsx:154-157 shows a placeholder).
- Theme context and toggles (src/contexts/ThemeContext.tsx, src/components/ThemeToggle.tsx, src/components/LanguageToggle.tsx), layout and sidebar (src/components/Layout.tsx, src/components/AppSidebar.tsx) are not modelled. They are DOM manipulation, storage wiring and static markup.
- The translation tables (src/localization/translations) are not part of this model. `t` takes any table tree as a parameter.
