# My Life Dashboard — a verified model of its logic

My Life Dashboard is a single-page React application with six pages: an overview, a
to-do list, a Pomodoro timer, a sleep log, an expense tracker and a medicine list. Each
page keeps a collection (tasks, Pomodoro sessions, sleep records, expenses, medicines)
and changes it only by handing a new array to its parent. This project models the logic
behind those pages in Dafny:

- the Pomodoro state machine: a countdown over work, short-break and long-break
  sessions, which records each finished session and takes a long break after every
  fourth work session. It is a class whose methods are proved against pure transitions;
- the sleep arithmetic: the duration of a night that may wrap past midnight, the
  "<h>h <m>m" display, the quality tiers, and the rounded averages;
- the three list managers (tasks, expenses, medicines). Each offers a validated append,
  a flag toggle by id and a delete by id;
- the aggregations: paid/unpaid, completed/pending and active/inactive splits with their
  totals, and the per-category totals behind the expense pie charts. The per-category
  totals are built by a loop over a dictionary, as in the source;
- the overview page's summary figures, its "completed/total" label and its short
  "recent" and "trend" lists.

One module per source file: `PomodoroTimer`, `SleepTracker`, `TodoList`,
`ExpenseTracker`, `MedicineTracker`, `Dashboard`. Three further modules hold what those
share:
- `Types` holds the record types of `src/types/index.ts`;
- `Seqs` holds `filter`, the summing `reduce`, `slice` and `reverse`, with their laws;
- `Text` holds number-to-string conversion, `padStart(2, '0')` and `trim`.

Representation choices:
- A clock time ("HH:MM") is a minute of the day, 0..1439.
- An ISO timestamp is an `Instant` (day number and milliseconds into the day). "Same
  `toDateString()`" is equality of the day number.
- Money is an integer number of cents.
- An empty time or amount input, which the model reads as a number, is `None`; the other text fields stay strings and are compared with `""` (the task title and a new category name after trimming).
- Ids and timestamps, which the source takes from `Date.now()` and `new Date()`, are
  parameters.

## Model

| member | source | states |
|---|---|---|
| PomodoroTimer.Duration | src/components/PomodoroTimer.tsx:16-20 | each session length is a positive multiple of five minutes, at most 25 minutes, and 25 minutes exactly for work (exact values in `InitialState`) |
| PomodoroTimer.AfterTick | src/components/PomodoroTimer.tsx:22-57 | one run of the effect; its properties are stated by `TickCountsDown`, `PausedTickIsNoop`, `CompletionFiresOnce` and `TransitionsKeepInvariant` |
| PomodoroTimer.Completed | src/components/PomodoroTimer.tsx:29-52 | the completion branch; its properties are stated by `CompletionRecordsOneSession`, `CompletingWork` and `CompletingBreak` |
| PomodoroTimer.AfterToggle | src/components/PomodoroTimer.tsx:59-61 | `toggleTimer`; its properties are stated by `ResetAndToggle` |
| PomodoroTimer.AfterReset | src/components/PomodoroTimer.tsx:63-66 | `resetTimer`; its properties are stated by `ResetAndToggle` |
| PomodoroTimer.AfterSwitch | src/components/PomodoroTimer.tsx:68-72 | `switchSession`; its properties are stated by `SwitchSetsType` |
| PomodoroTimer.LongBreakEveryFourth | src/components/PomodoroTimer.tsx:41-46 | after a work session, a long break follows exactly when the new completed count is a multiple of four; a work session is never followed by another work session |
| PomodoroTimer.InitialState | src/components/PomodoroTimer.tsx:11-20 | the timer starts paused on a 1500-second work session with no completions; the three session lengths are 1500, 300 and 900 seconds |
| PomodoroTimer.TransitionsKeepInvariant | src/components/PomodoroTimer.tsx:22-72 | every transition keeps the countdown between 0 and the current session's length |
| PomodoroTimer.TickCountsDown | src/components/PomodoroTimer.tsx:25-28 | a running countdown with time left loses exactly one second and nothing else changes |
| PomodoroTimer.PausedTickIsNoop | src/components/PomodoroTimer.tsx:25-29 | while paused with time left, the effect changes nothing |
| PomodoroTimer.CompletionRecordsOneSession | src/components/PomodoroTimer.tsx:29-39 | reaching zero appends exactly one session of the current type and full length, keeps earlier sessions as a prefix, and pauses |
| PomodoroTimer.CompletingWork | src/components/PomodoroTimer.tsx:41-46 | finishing work increments the count and moves to a full long break iff the new count is a multiple of four, else to a full short break |
| PomodoroTimer.CompletingBreak | src/components/PomodoroTimer.tsx:47-51 | finishing a break returns to a full work session and leaves the count unchanged |
| PomodoroTimer.CompletionFiresOnce | src/components/PomodoroTimer.tsx:29-51 | after a completion time is left again, so the next run of the effect records nothing |
| PomodoroTimer.SwitchSetsType | src/components/PomodoroTimer.tsx:68-72 | switching selects the type at its full length, paused, without recording or counting anything |
| PomodoroTimer.ResetAndToggle | src/components/PomodoroTimer.tsx:59-66 | reset pauses and refills the current type; toggle flips only the run flag and is its own inverse |
| PomodoroTimer.CountDown | src/components/PomodoroTimer.tsx:25-28 | while running, k runs of the effect take exactly k seconds off and record nothing |
| PomodoroTimer.FullWorkSession | src/components/PomodoroTimer.tsx:22-52 | a running work session from 1500 seconds records exactly one 1500-second work session after 1501 runs and moves to the break the count calls for |
| PomodoroTimer.Timer.constructor | src/components/PomodoroTimer.tsx:11-14 | the component's initial state |
| PomodoroTimer.Timer.Tick | src/components/PomodoroTimer.tsx:22-57 | one run of the effect: the new state is the tick transition of the old one, and the invariant is kept |
| PomodoroTimer.Timer.CompleteSession | src/components/PomodoroTimer.tsx:29-52 | the completion branch: the new state is the completion transition of the old one |
| PomodoroTimer.Timer.ToggleTimer | src/components/PomodoroTimer.tsx:59-61 | the new state is the toggle transition of the old one |
| PomodoroTimer.Timer.ResetTimer | src/components/PomodoroTimer.tsx:63-66 | the new state is the reset transition of the old one |
| PomodoroTimer.Timer.SwitchSession | src/components/PomodoroTimer.tsx:68-72 | the new state is the switch transition of the old one |
| PomodoroTimer.FormatTime | src/components/PomodoroTimer.tsx:74-78 | below 100 minutes the display is "MM:SS", two digits each; the seconds part is under 60, and minutes × 60 + seconds reads back as the input |
| PomodoroTimer.TodaySessions | src/components/PomodoroTimer.tsx:80-82 | exactly the sessions completed on the given day, taken from the list |
| PomodoroTimer.WorkPlusBreakIsToday | src/components/PomodoroTimer.tsx:84-85 | the work and break counts of the day add up to the day's sessions |
| PomodoroTimer.TotalFocus | src/components/PomodoroTimer.tsx:177 | the focus figure is 25 minutes per work session of the day, so at most 25 minutes per session of the day |
| PomodoroTimer.RecentSessions | src/components/PomodoroTimer.tsx:188 | the last five of the day's sessions, newest first |
| SleepTracker.SleepDuration | src/components/SleepTracker.tsx:22-31 | the duration is the unique span in [0, 1440) that takes the bedtime to the wake time; it is zero exactly when the two times are equal |
| SleepTracker.SleepDurationUnique | src/components/SleepTracker.tsx:26-31 | any span in [0, 1440) leading from the bedtime to the wake time is the computed duration |
| SleepTracker.SleepDurationExamples | src/components/SleepTracker.tsx:26-31 | 23:00 to 07:00 is 480 minutes; 09:00 to 10:30 is 90 minutes |
| SleepTracker.AddSleepRecord | src/components/SleepTracker.tsx:19-43 | with a time missing nothing changes; otherwise one record is appended with the form's fields, the computed duration and the notes absent when empty |
| SleepTracker.FormatDuration | src/components/SleepTracker.tsx:53-57 | "<h>h <m>m" reads back as the pair (minutes div 60, minutes mod 60): the shown minutes are under 60 and hours × 60 + minutes is the duration; neither number is zero-padded, the length being the two unpadded decimal forms plus three |
| SleepTracker.QualityTier | src/components/SleepTracker.tsx:59-63 | good iff the quality is at least 4, fair iff it is 3, poor iff it is at most 2 |
| SleepTracker.AverageDuration | src/components/SleepTracker.tsx:69-71 | 0 with no records; otherwise the mean rounded to the nearest minute, halves up |
| SleepTracker.AverageQuality | src/components/SleepTracker.tsx:65-67 | 0 with no records; otherwise the mean, which lies between 1 and 5 |
| SleepTracker.QualitySumBounds | src/components/SleepTracker.tsx:66 | the sum of n qualities lies between n and 5n |
| TodoList.AddTask | src/components/TodoList.tsx:19-32 | a blank title (whitespace only) changes nothing; otherwise one uncompleted task is appended with the form's fields, the due date absent when empty |
| TodoList.ToggleTask | src/components/TodoList.tsx:36-40 | the tasks with that id have their completed flag flipped; nothing else changes |
| TodoList.ToggleTaskTwice | src/components/TodoList.tsx:36-40 | toggling twice restores the list; toggling an absent id changes nothing |
| TodoList.DeleteTask | src/components/TodoList.tsx:42-44 | the result holds exactly the tasks whose id differs |
| TodoList.DeleteTaskKeepsOrder | src/components/TodoList.tsx:42-44 | deleting distributes over concatenation and drops a single task iff its id matches, so order is kept |
| TodoList.DeleteAbsentTask | src/components/TodoList.tsx:42-44 | deleting an id no task has changes nothing |
| TodoList.PriorityColor | src/components/TodoList.tsx:46-53 | the gray fallback is returned exactly for strings other than "low", "medium" and "high" |
| TodoList.PriorityColorsDistinct | src/components/TodoList.tsx:46-53 | the three priorities get three distinct colours, none of them the gray fallback every other string gets |
| TodoList.AddTaskCounts | src/components/TodoList.tsx:19-32 | a new task adds one to the pending count and none to the completed count |
| TodoList.CompletedPendingPartition | src/components/TodoList.tsx:55-56 | the completed and pending lists split the tasks |
| ExpenseTracker.AddExpense | src/components/ExpenseTracker.tsx:32-45 | with title, amount or category missing nothing changes; otherwise one expense is appended with the form's fields and the current instant |
| ExpenseTracker.ToggleExpenseStatus | src/components/ExpenseTracker.tsx:49-53 | the expenses with that id have their paid flag flipped; nothing else changes |
| ExpenseTracker.ToggleExpenseTwice | src/components/ExpenseTracker.tsx:49-53 | toggling twice restores the list; toggling an absent id changes nothing |
| ExpenseTracker.ToggleKeepsTotal | src/components/ExpenseTracker.tsx:49-53 | toggling leaves the total of all amounts unchanged |
| ExpenseTracker.DeleteExpense | src/components/ExpenseTracker.tsx:55-57 | the result holds exactly the expenses whose id differs |
| ExpenseTracker.DeleteExpenseKeepsOrder | src/components/ExpenseTracker.tsx:55-57 | deleting distributes over concatenation and drops a single expense iff its id matches |
| ExpenseTracker.DeleteAbsentExpense | src/components/ExpenseTracker.tsx:55-57 | deleting an id no expense has changes nothing |
| ExpenseTracker.AddedCategoryColors | src/components/ExpenseTracker.tsx:11-18 | starting from the six default categories, the first two added categories get "#FF6B6B" and "#4ECDC4" and the third wraps round to "#FF6384", Food's colour |
| ExpenseTracker.AddCategory | src/components/ExpenseTracker.tsx:59-72 | a blank name changes nothing; otherwise a category is appended, coloured by the registry size modulo the eight palette colours |
| ExpenseTracker.PaidUnpaidPartition | src/components/ExpenseTracker.tsx:74-78 | the paid and unpaid lists split the expenses; their totals add up to the total of all amounts |
| ExpenseTracker.AddExpenseTotals | src/components/ExpenseTracker.tsx:32-45 | a new expense raises the total of its own side (paid or unpaid) by its amount and leaves the other side unchanged |
| ExpenseTracker.CategoryNamesSpec | src/components/ExpenseTracker.tsx:83-87 | the chart's categories are exactly those the expenses use, each once |
| ExpenseTracker.CategoryTotalUnused | src/components/ExpenseTracker.tsx:84 | a category no expense uses totals zero |
| ExpenseTracker.SumOfCategoryTotalsSnoc | src/components/ExpenseTracker.tsx:83-85 | one more expense raises the summed per-category totals by its amount exactly when its category is listed |
| ExpenseTracker.CategoryTotalsSumToTotal | src/components/ExpenseTracker.tsx:80-91 | the per-category totals add up to the total of all amounts |
| ExpenseTracker.FindCategory | src/components/ExpenseTracker.tsx:90 | the first registered category with that name, or none iff no category has it |
| ExpenseTracker.CategoryColor | src/components/ExpenseTracker.tsx:90 | the colour of the first registered category with that name when it is non-empty; the fallback "#8884d8" when no category has the name or the first one's colour is empty |
| ExpenseTracker.AccumulateStep | src/components/ExpenseTracker.tsx:84 | one step of the loop keeps the dictionary equal to the category totals of the expenses seen so far |
| ExpenseTracker.TotalsByCategory | src/components/ExpenseTracker.tsx:81-85 | the dictionary maps exactly the used categories, in first-use order, to their totals |
| ExpenseTracker.PieChartData | src/components/ExpenseTracker.tsx:80-92 | one slice per used category, in first-use order, valued at its total and coloured from the registry; the slices add up to the list's total |
| ExpenseTracker.ExpenseExample | src/components/ExpenseTracker.tsx:74-95 | paid 10.00 food and 20.00 transport with unpaid 5.00 food give totals 30.00 and 5.00, and pie charts Food 10.00 and Transport 20.00, and Food 5.00 |
| MedicineTracker.AddMedicine | src/components/MedicineTracker.tsx:19-32 | with name, dosage or frequency missing nothing changes; otherwise one active medicine is appended with the form's fields |
| MedicineTracker.ToggleMedicineStatus | src/components/MedicineTracker.tsx:42-46 | the medicines with that id have their active flag flipped; nothing else changes |
| MedicineTracker.ToggleMedicineTwice | src/components/MedicineTracker.tsx:42-46 | toggling twice restores the list; toggling an absent id changes nothing |
| MedicineTracker.DeleteMedicine | src/components/MedicineTracker.tsx:48-50 | the result holds exactly the medicines whose id differs |
| MedicineTracker.DeleteMedicineKeepsOrder | src/components/MedicineTracker.tsx:48-50 | deleting distributes over concatenation and drops a single medicine iff its id matches |
| MedicineTracker.DeleteAbsentMedicine | src/components/MedicineTracker.tsx:48-50 | deleting an id no medicine has changes nothing |
| MedicineTracker.TimingColor | src/components/MedicineTracker.tsx:52-59 | the gray fallback is returned exactly for strings other than the three timing names |
| MedicineTracker.TimingText | src/components/MedicineTracker.tsx:61-68 | a string is shown unchanged exactly when it is not one of the three timing names |
| MedicineTracker.TimingLabels | src/components/MedicineTracker.tsx:52-68 | the three timings get their labels and three distinct colours; any other string is shown unchanged in the gray fallback colour |
| MedicineTracker.AddMedicineCounts | src/components/MedicineTracker.tsx:19-32 | a new medicine adds one to the active count and none to the inactive count |
| MedicineTracker.ActiveInactivePartition | src/components/MedicineTracker.tsx:70-71 | the active and inactive lists split the medicines |
| Dashboard.Summarize | src/components/Dashboard.tsx:14-22 | the completed, today's-session and active-medicine figures count the positions that meet their conditions, each bounded by its list and complementary to the tracker page's other count; the last sleep is absent iff there are no records and otherwise the final one; unpaid is the total minus the paid total |
| Dashboard.CompletedLabel | src/components/Dashboard.tsx:27 | "completed/total" reads back as the two numbers; neither is zero-padded, the length being the two unpadded decimal forms plus one |
| Dashboard.RecentTasks | src/components/Dashboard.tsx:96 | the first min(5, n) tasks in insertion order |
| Dashboard.RecentExpenses | src/components/Dashboard.tsx:114 | the last min(5, n) expenses, newest first |
| Dashboard.SleepTrend | src/components/Dashboard.tsx:135-139 | the last min(7, n) records in logged order, each with its tier |
| Dashboard.SleepTrendSlides | src/components/Dashboard.tsx:135 | one more record ends the trend, and a full trend drops its oldest record |
| Types.Optional | src/components/TodoList.tsx:28 | `value \|\| undefined`: absent exactly when the input is empty, else the input |
| Text.TrimEmptyIffBlank | src/components/TodoList.tsx:20 | trimming leaves nothing exactly when the text is all whitespace |
| Text.ParseNatToString | src/components/SleepTracker.tsx:56 | a number's decimal text reads back as the number |
| Text.PadTwo | src/components/PomodoroTimer.tsx:77 | two digits for numbers below 100, reading back as the number |
| Seqs.Filter | src/components/TodoList.tsx:43 | the kept elements come from the list and satisfy the condition, and every satisfying element is kept |
| Seqs.FilterAppend | src/components/TodoList.tsx:43 | filtering distributes over concatenation |
| Seqs.FilterCountsPositions | src/components/Dashboard.tsx:14 | the length of a filter is the number of positions that satisfy the condition |
| Seqs.SumFilterComplement | src/components/ExpenseTracker.tsx:77-78 | sums over two complementary filters add up to the sum over the list |
| Seqs.TakeLast | src/components/Dashboard.tsx:114 | `slice(-k)`: the last min(k, n) elements in order |
| Seqs.Reverse | src/components/Dashboard.tsx:114 | `reverse()`: element i is element n-1-i of the input |

## Left out

- Rendering: the JSX, the CSS class strings and the recharts pie charts. The colour
  functions `getPriorityColor`, `getTimingColor` and `getTimingText` are modelled.
  `getQualityColor` and the trend colours are modelled as the three-valued tier.
- The page shell: `src/App.tsx`, including the `useLocalStorage` persistence and the
  routing between pages, and `src/components/Sidebar.tsx`. The collections are
  parameters of the model.
- Scheduling: the one-second `setInterval`, its clean-up and React's batching of state
  updates. One run of the Pomodoro effect is one call of `Timer.Tick`. The timer
  completes when the countdown is at zero, whether or not it is running, because the
  source's branch does not test `isActive`.
- Ids and timestamps come from the clock (`Date.now()`, `new Date()`). They are
  parameters, so their uniqueness is not modelled. The toggle and delete lemmas hold for
  any ids.
- Calendar arithmetic, time zones and daylight-saving time. `SleepTracker.SleepDuration`
  counts a day as exactly 1440 minutes, so a night that crosses a clock change is off by
  the shift. An unparseable date, which makes the source's duration `NaN`, is not
  modelled.
- Floating point: money is in integer cents, so `parseFloat` of the amount text (and its
  `NaN` case), the `toFixed(2)` display and rounding of binary fractions are not modelled.
- SleepTracker.AverageQuality: the mean is an exact rational. Its `toFixed(1)` text is
  not modelled.
- The dashboard's last-night figure `(duration / 60).toFixed(1)` is not modelled.
  `Dashboard.Summarize` returns the record itself.
- Key order of `Object.entries`: JavaScript lists integer-like keys (such as a category
  named "2024") first, in ascending order. The model keeps first-use order for every key.
- ExpenseTracker.TotalsByCategory: the `categoryTotals` dictionary is a plain object,
  modelled as a map. Category names that are also names on `Object.prototype`
  (`__proto__`, `constructor`, `toString` and the like) are not modelled. With such a
  name the source adds the amount to an inherited value, or assigns through the
  `__proto__` setter and so drops the slice. The model gives an ordinary slice. The pie
  chart agrees with the source only for category names that are neither canonical array
  indices nor inherited property names.
- Task description: the source stores the description as typed, even when empty. The
  model keeps it always present (`Some`), unlike the due date and the notes fields.
- Editing a task: `editingTask` is declared in the source but never used.
