# Mission tracker: the day-tracking state machine

The mission tracker is a one-page habit tracker. Three daily tasks
(`task-tuf`, `task-cp31`, `task-vc`) are checkboxes; their state, the day of
the last visit and a history of per-day statuses live in the browser's local
storage. This project models the page script's logic without the DOM:

- **Load reconciliation.** When the page loads, the stored last visit is
  compared with today. On a new day every task flag is cleared, the previous
  visit day is written FAILED if it has no history entry, the last visit
  becomes today and the badge reads PENDING. On the same day the checkboxes
  are restored from the stored flags and the badge shows today's saved status,
  if any.
- **Checkbox persistence.** Each change stores that task's flag.
- **Complete day.** The day's status is SUCCESS when all three tasks are
  checked and FAILED otherwise; it replaces the history entry for the day.
- **Rendering.** The calendar is a 28-cell strip, oldest first, ending today.
  Each cell is shaded from the history. The badge colour follows the status.

Layout:

- `domain.dfy` (module `Domain`): days, task ids, status strings, the history
  map, the "every task checked" status choice, badge colours and cell shades.
- `reconcile.dfy` (module `Reconcile`): the persisted state as a value, the
  transitions each handler makes to it, and lemmas about them.
- `calendar.dfy` (module `Calendar`): the rendering loop and lemmas about the
  strip it builds.
- `tracker.dfy` (module `Tracker`): local storage as a class `Storage` and one
  page load as a class `Page`. The methods update fields step by step as the
  script does. Each is proved to perform the matching `Reconcile` transition.

Modelling choices:

- A day is an integer that stands for its `YYYY-MM-DD` key. Consecutive days
  are consecutive integers. "Today" is a parameter of the load.
- The page keeps the day key it computed at load. The save handler records
  under that key even if the clock has since passed midnight.
- History values are strings. `history[key]` counts as present when the key
  exists and its string is non-empty (the script's truthiness test). This is
  `Domain.Logged`.
- An absent `mission_history` key is kept apart from an empty map
  (`Option<History>`). It reads as `{}`. The key stays absent through a first
  visit (which skips the auto-fail step) and through same-day loads. A new-day
  load after an earlier visit always writes it, since `{}` has no entry for
  the previous day.
- A badge of `None` means the script has not touched the page's initial
  badge. This happens on a same-day load with nothing saved for today. As a
  result, the second of two loads on the same day can show a different badge
  than the first: PENDING the first time, the initial badge the second time.
  `Reconcile.ReloadIsSameDay` states this exactly.

## Model

| member | source | states |
|---|---|---|
| `Domain.Every` | script.js:82 | `every` over a list of task ids holds iff each listed task is checked |
| `Domain.EveryTaskChecked` | script.js:3 | walking `TASK_IDS` covers all three tasks: `every` over it holds iff each task is checked |
| `Domain.DayStatus` | script.js:82-83 | the saved status is SUCCESS iff every task is checked, FAILED iff some task is unchecked, and never empty |
| `Domain.BadgeFor` | script.js:139-148 | the badge shows the status text; green iff SUCCESS, red iff FAILED, muted for anything else including PENDING |
| `Domain.ShadeOf` | script.js:124-128 | a cell is "success" iff its day's entry is SUCCESS, "failed" iff it is FAILED, uncoloured for a missing day or any other string |
| `Domain.ShadeMatchesBadge` | script.js:124-128 | a missing day is uncoloured; a present day's cell shade matches the badge colour its status would get |
| `Reconcile.AutoFailed` | script.js:151-157 | afterwards the previous day is logged; an existing logged entry leaves the blob unchanged; an unlogged one becomes FAILED; no other day changes |
| `Reconcile.Reconciled` | script.js:39-69 | the load sets the last visit to today; it never changes today's history entry; the same day leaves the store unchanged; a new day clears every flag |
| `Reconcile.Restored` | script.js:59-62 | each checkbox gets a state, checked iff its stored flag is true (a missing flag reads as unchecked) |
| `Reconcile.LoadedChecks` | script.js:44-62 | the load gives every box a state: all unchecked on a new day; on the same day a box is checked iff its stored flag is true |
| `Reconcile.LoadedBadge` | script.js:56-68 | the load sets the badge iff it is a new day or today is logged; on a new day it is PENDING in the muted colour; on the same day its text is today's logged status |
| `Reconcile.Toggled` | script.js:74-78 | a change stores the task's new flag; other flags, the last visit and the history are unchanged |
| `Reconcile.Completed` | script.js:81-88 | today's entry becomes SUCCESS iff all tasks are checked, FAILED iff one is not, replacing any earlier value; every other day, the flags and the last visit are unchanged |
| `Reconcile.NewDayResets` | script.js:41-56 | on a new day all checkboxes and flags end up unchecked, the last visit is today, and the badge is PENDING in the muted colour |
| `Reconcile.AutoFailOnlyPreviousDay` | script.js:50-52 | a first visit or a same-day load leaves history unchanged; otherwise only the last visit day can change, a logged entry is never overwritten, and an unlogged one becomes FAILED |
| `Reconcile.ReloadIsSameDay` | script.js:39-69 | a second load on the same day takes the same-day branch; store and checkboxes stay as the first load left them; the badge is today's logged status, or untouched |
| `Reconcile.ToggleThenReload` | script.js:59-78 | a same-day reload restores the toggled task as set by its change handler and every other task as before |
| `Reconcile.ResaveOverwrites` | script.js:86-88 | saving twice on a day leaves the second status (SUCCESS flips to FAILED after unchecking); no other day changes |
| `Reconcile.ReconciledKeepsVerdicts` | script.js:39-69 | if history holds only SUCCESS and FAILED, it still does after the load (auto-fail writes only FAILED; PENDING is never stored) |
| `Reconcile.ToggledKeepsVerdicts` | script.js:74-78 | a checkbox change keeps a history of only SUCCESS and FAILED as it was |
| `Reconcile.CompletedKeepsVerdicts` | script.js:81-88 | a save keeps a history of only SUCCESS and FAILED, since it writes one of the two |
| `Reconcile.SaveThenReload` | script.js:64-68 | after a save, a same-day reload shows the saved status on the badge and keeps the store as saved |
| `Calendar.RenderCalendar` | script.js:102-132 | builds 28 cells for days today-27 to today in order; a cell is marked today iff its day is today; each cell is shaded from the history, which it cannot modify |
| `Calendar.CalendarOrder` | script.js:108-121 | the strip runs from today-27 to today in consecutive increasing days, and only the last cell is marked today |
| `Calendar.CalendarShades` | script.js:123-128 | a cell is "success" iff its entry is SUCCESS, "failed" iff it is FAILED, and uncoloured for a missing or any other value |
| `Calendar.CalendarUnique` | script.js:108-131 | the strip is determined by the history and today |
| `Calendar.CalendarSeesOnlyWindow` | script.js:105-128 | histories that agree on the 28 window days render the same strip |
| `Tracker.Storage.GetHistory` | script.js:135-137 | returns the stored history, or the empty map when the key is absent |
| `Tracker.Storage.SetFlag` | script.js:76 | writes one task flag |
| `Tracker.Storage.SetLastVisit` | script.js:55 | writes the last-visit day |
| `Tracker.Storage.SetHistory` | script.js:88 | replaces the whole history blob |
| `Tracker.Page.Load` | script.js:39-69 | the load leaves the store equal to `Reconciled`, the checkboxes to `LoadedChecks`, the badge to `LoadedBadge`, and a calendar of the reconciled history |
| `Tracker.Page.StartNewDay` | script.js:41-56 | the new-day branch leaves the store equal to `Reconciled`, every box unchecked and a PENDING badge |
| `Tracker.Page.RestoreSameDay` | script.js:57-69 | the same-day branch restores the boxes from the flags and shows today's logged status, leaving the badge untouched otherwise |
| `Tracker.Page.ClearTasks` | script.js:44-47 | the loop over the task ids leaves every box unchecked and every stored flag false |
| `Tracker.Page.RestoreTasks` | script.js:59-62 | the loop over the task ids sets every box from its stored flag |
| `Tracker.Page.CheckAndAutoFailPreviousDay` | script.js:151-157 | the stored blob becomes `AutoFailed` of the old blob |
| `Tracker.Page.Toggle` | script.js:74-78 | the checkbox and the stored flag take the new value; the calendar stays consistent with the history |
| `Tracker.Page.CompleteDay` | script.js:81-92 | the store becomes `Completed`; the badge shows the saved status; the calendar is re-rendered from the new history; the result says whether every task was checked |
| `Tracker.CompleteDayScenario` | script.js:81-92 | opening the page, checking all three tasks and completing the day saves SUCCESS, shows a green SUCCESS badge, and shades today's cell "success" |

## Left out

- DOM wiring, the profile modal, `alert` dialogs and CSS mutation (script.js:6-29, 91-98). These are presentation with no further logic. `Page.CompleteDay` returns which alert would be shown.
- Serialisation with `JSON.stringify`/`JSON.parse`. The store holds maps directly. A corrupt `mission_history` blob would make `JSON.parse` throw; that failure is not modelled.
- History values that are not strings (numbers, `null`, objects in a hand-edited blob) are not modelled.
- A stored last visit that is the empty string is not modelled. The script itself only ever writes day keys.
- `Date`, `toISOString`, `setDate`, `getDate` and `toLocaleDateString`. Days are integer indices, so the following are not modelled: the day-of-month label on each cell, the UTC key versus local `setDate` mismatch, and a re-render that happens in a different month from the load.
- Task flags are stored as booleans, not as the strings `"true"`/`"false"`. The restore test `=== "true"` becomes "present and true".
