# Planner client: a verified model of its views

The planner client is a React front end for a project and task planner backed by
a REST store. Projects hold tasks. Tasks can have subtasks, a priority, a state and
a deadline. Time records log the minutes spent on a task on a given day. This
project models the logic of six views in Dafny and proves what each promises:

- **Work timer** (`WorkTimer`, `timer.dfy`): a stopwatch bound to one task.
  - It can be started, paused, stopped and ticked once a second.
  - Saving submits the whole elapsed minutes as a time record.
  - It shows the elapsed time as `HH:MM:SS`.
- **Time record list** (`TimeRecordList`, `time_record_list.dfy`):
  - records are sorted newest first, in place;
  - durations are shown as `Xh Ym`;
  - there are today and last-seven-days totals;
  - the list is capped at 20 entries, with a footer when records are hidden.
- **Analytics page** (`Analytics`): minutes per project (pie chart), minutes per
  day over the last days (bar chart), task counts per state (doughnut chart) and
  the overall total in hours and minutes.
- **Search page** (`Search`): a case-insensitive text query over project and task
  names and descriptions, plus project, state and priority filters on the tasks.
- **Task list** (`TaskList`): the top-level tasks accepted by the project and
  state selectors, and the badge colours of priorities and states.
- **Calendar page** (`Calendar`): tasks with a deadline become all-day events,
  coloured by priority unless completed. Selecting an event opens a detail modal.

Shared modules:

- `Domain`: the entities `Project`, `Task`, `TimeRecord` and the select-box
  `Choice`.
- `Seqs`: `Filter` and its laws.
- `Totals`: sums of minutes, per-day totals, disjoint-filter bounds and the
  hours/minutes split.
- `Text`: lower-casing, substring search, decimal printing and parsing,
  zero padding, and JavaScript's truncating `%`.
- `Wrappers`: `Option`.

**Modelling conventions**

- Component state that the source updates in place is a Dafny `class`. Every
  modelled handler is a `method` whose `ensures` gives its new state; a field
  outside its `modifies` clause is unchanged.
- The results of the REST calls (success or failure, and the data returned) are
  method parameters. So are the clock (`now`, `today`) and the one-second
  interval (one `Tick` call per firing).
- Dates (`fecha`, `deadline`) are whole days since 1970-01-01 UTC. `now` is a
  JavaScript millisecond timestamp.
- Ids are `Option<int>`, since `id?` can be absent and `undefined === undefined`
  holds in JavaScript.

**Where the model follows the code rather than the design**

- The timer's task selector and notes box are disabled only while the clock runs,
  not whenever time is on it.
- The "last seven days" window is computed from millisecond timestamps. It covers
  seven calendar days up to today, or eight when `now` is exactly a UTC midnight
  (`TimeRecordList.WeekWindowDays`).
- A project filter on the search page and task list compares
  `proyecto.id?.toString()` with the chosen id. So a task whose project has no id
  matches no chosen project.

## Model

| member | source | states |
|---|---|---|
| Seqs.Filter | src/components/tasks/TaskList.tsx:64-68 | the `Array.filter` used by every view: the result is no longer than the input, holds exactly the input elements the predicate accepts, and every element satisfies it |
| Seqs.FilterIsSubsequence | src/pages/SearchPage.tsx:47-56 | filtering keeps the input order: the result is a subsequence of the input |
| Seqs.FilterMonotone | src/pages/SearchPage.tsx:58-73 | a stricter predicate gives a subsequence of a looser one's result |
| Seqs.FilterIdempotent | src/pages/SearchPage.tsx:47-56 | filtering twice by the same predicate changes nothing |
| Seqs.FilterKeepsAll | src/pages/SearchPage.tsx:47-56 | a predicate that accepts everything returns the input unchanged |
| Seqs.FilterFilter | src/pages/SearchPage.tsx:58-73 | filtering by p and then by q equals filtering once by their conjunction |
| Seqs.FilterExtensional | src/pages/SearchPage.tsx:53-56 | predicates that agree on every element give the same result |
| Seqs.FilterPermutation | src/components/timer/TimeRecordList.tsx:60-79 | filtering two permutations of each other gives permutations of each other |
| Seqs.SubsequenceTransitive | src/components/tasks/TaskList.tsx:64 | a subsequence of a subsequence is a subsequence |
| Text.LowerIdempotent | src/pages/SearchPage.tsx:48 | lower-casing twice is lower-casing once |
| Text.Lower | src/pages/SearchPage.tsx:48 | `toLowerCase` on ASCII: same length, and no upper-case letter is left |
| Text.Includes | src/pages/SearchPage.tsx:48 | `includes` holds exactly when the needle occurs at some index of the haystack |
| Text.IncludesStep | src/pages/SearchPage.tsx:48 | when the needle is not a prefix, it occurs in the text exactly when it occurs after the first character |
| Text.Decimal | src/components/timer/Timer.tsx:120 | `String(n)` of a natural: non-empty and all digits, one digit exactly below 10, at most two below 100 |
| Text.DecimalRoundTrip | src/components/timer/Timer.tsx:120 | `String(n)` of a natural parses back to n |
| Text.IntToString | src/components/timer/TimeRecordList.tsx:55-57 | `${n}` of an integer: non-empty, all digits when non-negative, and starting with '-' exactly when negative |
| Text.ParseNatLeadingZero | src/components/timer/Timer.tsx:120 | a leading zero does not change a digit string's value |
| Text.PadStart | src/components/timer/Timer.tsx:120 | `padStart`: the longer of the text and the width, the text at the end and only fill characters before it |
| Text.PadZerosValue | src/components/timer/Timer.tsx:120 | padding digits with zeros keeps them all digits and keeps their value |
| Text.FindCharAt | src/components/timer/TimeRecordList.tsx:57 | the first occurrence of a character after a prefix free of it is at the prefix's length |
| Text.JsRem | src/components/timer/TimeRecordList.tsx:52 | JavaScript's `%`: equal to the mathematical remainder for a non-negative dividend, the negated remainder of the negation otherwise, and always strictly between -b and b |
| Totals.SumNonNegative | src/components/timer/TimeRecordList.tsx:63 | the `reduce` sum of non-negative minutes is non-negative |
| Totals.SumMinutes | src/pages/AnalyticsPage.tsx:147-150 | the `reduce` sum of `tiempoDedicado` (also `tiempoTotal`); its laws are SumNonNegative, SumConcat and SumPermutation |
| Totals.SumConcat | src/pages/AnalyticsPage.tsx:147-150 | the sum of a concatenation is the sum of the parts |
| Totals.SumPermutation | src/pages/AnalyticsPage.tsx:147-150 | the sum of minutes depends only on the multiset of records, not their order |
| Totals.SumFilterMonotone | src/components/timer/TimeRecordList.tsx:60-79 | with non-negative minutes, a stricter filter never sums to more |
| Totals.DayTotalOrderIndependent | src/pages/AnalyticsPage.tsx:109-113 | a day's total does not depend on record order |
| Totals.DayTotal | src/pages/AnalyticsPage.tsx:109-113 | the minutes of the records dated exactly on a day; its laws are DayTotalOrderIndependent, DayTotalNoRecords and DayTotalStep |
| Totals.DayTotalNoRecords | src/pages/AnalyticsPage.tsx:109-113 | a day without records totals 0 |
| Totals.DayTotalStep | src/pages/AnalyticsPage.tsx:109-113 | a day's total over a record prepended to a list: the record's minutes counted when its date is that day |
| Totals.DisjointFiltersBound | src/pages/AnalyticsPage.tsx:77-90 | with non-negative minutes, totals under pairwise disjoint filters add up to at most the overall sum |
| Totals.HoursAndMinutes | src/pages/AnalyticsPage.tsx:151-152 | `Math.floor(t/60)` and `t % 60`: for t >= 0, hours*60+minutes == t with 0 <= minutes < 60; for t < 0, negative hours and minutes in (-60, 0]; hours are 0 exactly when 0 <= t < 60 |
| WorkTimer.WholeMinutes | src/components/timer/Timer.tsx:87 | `Math.floor(segundos / 60)`: the largest m with m*60 <= seconds, and at least 1 exactly when seconds >= 60 |
| WorkTimer.WholeMinutesTruncates | src/components/timer/Timer.tsx:87 | 125 s gives 2 minutes, 59 s gives 0 and 60 s gives 1: the leftover seconds are dropped |
| WorkTimer.ClockFields | src/components/timer/Timer.tsx:115-118 | hours, minutes below 60 and seconds below 60 that spell the elapsed total |
| WorkTimer.PaddedDecimal | src/components/timer/Timer.tsx:120 | a zero-padded field is all digits, at least two wide, exactly two below 100, and reads back as the number |
| WorkTimer.PaddedClockValue | src/components/timer/Timer.tsx:120 | three zero-padded fields (minutes and seconds below 60) joined by colons read back as the time they spell |
| WorkTimer.FormatClock | src/components/timer/Timer.tsx:115-121 | `formatearTiempo`: the display is never shorter than `00:00:00` and loses nothing, since parsing it gives back the elapsed seconds |
| WorkTimer.Timer.constructor | src/components/timer/Timer.tsx:13-19 | initial state: no task selected, empty notes, zero seconds, not running, no message |
| WorkTimer.Timer.LoadTasks | src/components/timer/Timer.tsx:40-55 | on success offers exactly the non-completed tasks and, when none was selected, selects the first one's id (0 when it has none); a failure changes nothing |
| WorkTimer.Timer.SelectTask | src/components/timer/Timer.tsx:139-140 | the selector changes the selected task only while the clock is not running |
| WorkTimer.Timer.EditNotes | src/components/timer/Timer.tsx:217-218 | the notes box changes the notes only while the clock is not running |
| WorkTimer.Timer.Start | src/components/timer/Timer.tsx:57-64 | without a selected task only the "selecciona una tarea" message is set; otherwise running with the message cleared |
| WorkTimer.Timer.Pause | src/components/timer/Timer.tsx:66-68 | stops the clock and keeps the elapsed seconds |
| WorkTimer.Timer.Stop | src/components/timer/Timer.tsx:70-74 | stops the clock, discards the elapsed seconds and clears the message |
| WorkTimer.Timer.Tick | src/components/timer/Timer.tsx:28-38 | one interval firing adds a second while running and nothing otherwise |
| WorkTimer.Timer.Save | src/components/timer/Timer.tsx:76-112 | no task: only the select message; under 60 s: only the minimum message; otherwise the clock stops and a record of the whole minutes, today's date and the notes (absent when empty) is submitted; on success the counter and notes reset, the saved message shows and `onRecordSaved` is called once per created record; on failure the counter and notes are kept and the error message shows |
| WorkTimer.Timer.StartLabel | src/components/timer/Timer.tsx:181 | "Iniciar" with no time on the clock, "Reanudar" otherwise; ControlsAgree ties it to the paused state |
| WorkTimer.Timer.StartEnabled | src/components/timer/Timer.tsx:174-178 | the start button is shown while not running and enabled when a task is selected |
| WorkTimer.Timer.PauseShown | src/components/timer/Timer.tsx:184-187 | the pause button is shown while running; ControlsAgree shows it excludes the inputs |
| WorkTimer.Timer.StopEnabled | src/components/timer/Timer.tsx:193 | the stop button is enabled with time on the clock |
| WorkTimer.Timer.SaveEnabled | src/components/timer/Timer.tsx:202 | the save button is enabled with at least 60 s and the clock stopped; ControlsAgree shows that means a whole minute to save |
| WorkTimer.Timer.InputsEnabled | src/components/timer/Timer.tsx:140 | the task selector and notes box are enabled while the clock is stopped |
| WorkTimer.ControlsAgree | src/components/timer/Timer.tsx:174-218 | the start button reads "Reanudar" exactly when paused; saving is enabled only with a stoppable clock of at least one whole minute; the inputs are locked exactly while the pause button shows |
| TimeRecordList.FormatMinutesNat | src/components/timer/TimeRecordList.tsx:50-58 | for a non-negative count, minutes alone below an hour, otherwise hours and the leftover minutes |
| TimeRecordList.FormatMinutes | src/components/timer/TimeRecordList.tsx:50-58 | `formatearTiempo(minutos)`; FormatMinutesNat, the examples and DurationRoundTrip state what it prints |
| TimeRecordList.FormatMinutesExamples | src/components/timer/TimeRecordList.tsx:50-58 | 0 gives "0m", 59 "59m", 65 "1h 5m", 120 "2h 0m" |
| TimeRecordList.FormatMinutesNegative | src/components/timer/TimeRecordList.tsx:50-58 | a negative count shows both parts negative: -30 gives "-1h -30m" |
| TimeRecordList.ParseMinutesOnly | src/components/timer/TimeRecordList.tsx:55 | an `Xm` display reads back as X minutes |
| TimeRecordList.ParseHoursMinutes | src/components/timer/TimeRecordList.tsx:57 | an `Xh Ym` display reads back as X*60+Y minutes |
| TimeRecordList.DurationRoundTrip | src/components/timer/TimeRecordList.tsx:50-58 | `formatearTiempo` loses nothing for a non-negative count: its output reads back as the same minutes |
| TimeRecordList.TodayTotalOrderIndependent | src/components/timer/TimeRecordList.tsx:60-65 | today's total depends only on the multiset of records |
| TimeRecordList.TodayTotal | src/components/timer/TimeRecordList.tsx:60-65 | `calcularTotalHoy`: the day total of the UTC day of `now`; TodayTotalOrderIndependent and WeekCoversToday state its properties |
| TimeRecordList.InWeek | src/components/timer/TimeRecordList.tsx:72-75 | the window test on the record's midnight in milliseconds; WeekWindowDays restates it in calendar days |
| TimeRecordList.WeekTotal | src/components/timer/TimeRecordList.tsx:67-79 | `calcularTotalSemana`: the minutes inside the window; WeekCoversToday and WeekTotalOrderIndependent state its properties |
| TimeRecordList.WeekWindowDays | src/components/timer/TimeRecordList.tsx:67-75 | a record is in the week window exactly when its date is between today-6 (today-7 when `now` is a UTC midnight) and today |
| TimeRecordList.WeekCoversToday | src/components/timer/TimeRecordList.tsx:60-79 | with non-negative minutes the week total is at least today's total |
| TimeRecordList.WeekTotalOrderIndependent | src/components/timer/TimeRecordList.tsx:67-79 | the week total depends only on the multiset of records |
| TimeRecordList.SwapDown | src/components/timer/TimeRecordList.tsx:26-28 | exchanges two neighbours, leaves every other slot alone and keeps the multiset |
| TimeRecordList.InsertNewestFirst | src/components/timer/TimeRecordList.tsx:26-28 | extends a newest-first prefix by the next element: the first i+1 slots become ordered newest first and hold the same multiset as before, and the slots after them are unchanged |
| TimeRecordList.SortNewestFirst | src/components/timer/TimeRecordList.tsx:26-28 | the in-place sort leaves the array ordered by date, newest first, and a permutation of the input |
| TimeRecordList.Displayed | src/components/timer/TimeRecordList.tsx:117 | `slice(0, 20)`: a prefix of the list of length min(n, 20) |
| TimeRecordList.ShowsFooter | src/components/timer/TimeRecordList.tsx:154-158 | the "últimos 20 registros" footer shows exactly when records are left out of the list |
| TimeRecordList.DisplayedAreNewest | src/components/timer/TimeRecordList.tsx:117 | on a sorted list every shown record is at least as recent as every hidden one |
| TimeRecordList.RecordList.constructor | src/components/timer/TimeRecordList.tsx:13-15 | initially no records, loading, no error |
| TimeRecordList.RecordList.LoadRecords | src/components/timer/TimeRecordList.tsx:21-37 | on success the list is the fetched array sorted newest first (a permutation of it) and the error is cleared; on failure the list is kept and the error set; loading ends either way |
| TimeRecordList.Mount | src/pages/TimerPage.tsx:23 | mounting (and each remount on a new `refreshKey`) starts from an empty, loading list and loads once: on success the records are the fetched ones sorted newest first; on failure the list is empty and the error shows |
| Analytics.SumValuesPositive | src/pages/AnalyticsPage.tsx:90 | with no negative value, dropping the entries of value 0 keeps the sum |
| Analytics.ProjectEntries | src/pages/AnalyticsPage.tsx:77-89 | one entry per project, in project order, each carrying the minutes of the records worked on that project's tasks |
| Analytics.TimePerProject | src/pages/AnalyticsPage.tsx:77-90 | `tiempoPorProyecto`: at most one entry per project, every value positive |
| Analytics.ProjectFilterMeaning | src/pages/AnalyticsPage.tsx:79-81 | a record counts for a project exactly when some task of that project has the record's task id |
| Analytics.TimePerProjectEntries | src/pages/AnalyticsPage.tsx:77-90 | every pie entry has time and comes from a listed project; every project with time is shown; project order is kept |
| Analytics.ProjectFiltersDisjoint | src/pages/AnalyticsPage.tsx:79-81 | with distinct project ids and consistent task ids, no record counts for two projects |
| Analytics.TimePerProjectBound | src/pages/AnalyticsPage.tsx:77-90 | under those conditions the pie values add up to at most the overall total |
| Analytics.EntriesAreFilterTotals | src/pages/AnalyticsPage.tsx:77-89 | the entries' sum is the sum of per-project filter totals |
| Analytics.LastDays | src/pages/AnalyticsPage.tsx:95-106 | `obtenerUltimosDias(n)`: max(n, 0) consecutive days, oldest first, the last one today |
| Analytics.ConsecutiveDays | src/pages/AnalyticsPage.tsx:99-103 | those days end today, rise by one and are strictly increasing, hence distinct |
| Analytics.DailySeries | src/pages/AnalyticsPage.tsx:108-123 | one point per day, in day order, carrying that day's total minutes |
| Analytics.SeriesAreFilterTotals | src/pages/AnalyticsPage.tsx:108-123 | the bars' sum is the sum of per-day filter totals |
| Analytics.DailySeriesBound | src/pages/AnalyticsPage.tsx:108-123 | over distinct days with non-negative minutes, the bars add up to at most the overall total |
| Analytics.DailySeriesOrderIndependent | src/pages/AnalyticsPage.tsx:108-113 | the series does not depend on record order |
| Analytics.CountStatus | src/pages/AnalyticsPage.tsx:129 | the number of tasks in a state: at most the number of tasks, and positive exactly when some task has that state |
| Analytics.TasksByStatus | src/pages/AnalyticsPage.tsx:126-142 | `tareasPorEstado`: at most three entries, each value positive and at most the number of tasks |
| Analytics.StatusCountsSum | src/pages/AnalyticsPage.tsx:126-141 | the three per-state counts add up to the number of tasks |
| Analytics.TasksByStatusTotal | src/pages/AnalyticsPage.tsx:126-142 | the doughnut values add up to the number of tasks |
| Analytics.TasksByStatusShown | src/pages/AnalyticsPage.tsx:126-142 | a state's bucket is shown exactly when some task has that state, and buckets keep their order |
| Analytics.TotalSplit | src/pages/AnalyticsPage.tsx:147-152 | a non-negative total splits into whole hours and fewer than 60 leftover minutes that recombine to it |
| Analytics.TotalOrderIndependent | src/pages/AnalyticsPage.tsx:147-150 | the overall total does not depend on record order |
| TaskList.FilteredTasks | src/components/tasks/TaskList.tsx:64-68 | `filteredTasks`: no longer than the input, and every listed task is an input task without a parent that both selectors accept |
| TaskList.FilteredTasksMeaning | src/components/tasks/TaskList.tsx:64-68 | a task is listed exactly when it is a top-level input task that both selectors accept; no subtask is listed |
| TaskList.AllSelectorsListTopLevel | src/components/tasks/TaskList.tsx:64-68 | with both selectors on 'all' the list is the top-level tasks in input order |
| TaskList.FilteredTasksSubsequence | src/components/tasks/TaskList.tsx:64-68 | the list keeps input order |
| TaskList.PriorityVariant | src/components/tasks/TaskList.tsx:71-77 | `getPrioridadColor`: danger, warning, info; VariantsDistinct shows the map is injective |
| TaskList.StatusVariant | src/components/tasks/TaskList.tsx:80-86 | `getEstadoColor`: secondary, primary, success; VariantsDistinct shows the map is injective |
| TaskList.VariantsDistinct | src/components/tasks/TaskList.tsx:71-86 | each of the priority and state badge maps is injective, so the colour tells the value back |
| Search.TextMatches | src/pages/SearchPage.tsx:47-56 | the name-or-description test; DescriptionGuardRedundant and MatchIgnoresTermCase state its properties |
| Search.ProjectResults | src/pages/SearchPage.tsx:47-50 | the projects `applyFilters` keeps: no more than the input, each an input project matching the term |
| Search.TaskResults | src/pages/SearchPage.tsx:53-73 | the tasks `applyFilters` keeps: no more than the input, each an input task matching the term and every filter not on 'all' |
| Search.EmptyOccursEverywhere | src/pages/SearchPage.tsx:48 | the empty term occurs in every text |
| Search.DescriptionGuardRedundant | src/pages/SearchPage.tsx:47-56 | the `descripcion &&` guard changes nothing: matching is name-or-description inclusion |
| Search.MatchIgnoresTermCase | src/pages/SearchPage.tsx:48 | lower-casing the term first does not change the match |
| Search.ProjectResultsMeaning | src/pages/SearchPage.tsx:47-50 | a project is listed exactly when it is an input project matching the term; the select filters take no part |
| Search.TaskResultsMeaning | src/pages/SearchPage.tsx:53-73 | a task is listed exactly when it is an input task matching the term and every filter not on 'all' |
| Search.EmptySearchListsAll | src/pages/SearchPage.tsx:45-77 | an empty term with every filter on 'all' lists every project and every task |
| Search.ResultsStable | src/pages/SearchPage.tsx:45-77 | both result lists keep input order, and searching them again changes nothing |
| Search.ExtraFilterNarrows | src/pages/SearchPage.tsx:58-73 | setting a filter never lists a task that was not listed before |
| Search.NarrowTasks | src/pages/SearchPage.tsx:53-73 | the step-by-step text match and filters compute exactly the tasks matching all conditions |
| Search.SearchPage.constructor | src/pages/SearchPage.tsx:13-22 | empty term, every filter on 'all', no data and no results, the results in step with the inputs |
| Search.SearchPage.LoadData | src/pages/SearchPage.tsx:28-43 | on success both data lists are replaced and the effect re-runs the search, so the listed results match the new data; a failure changes nothing |
| Search.SearchPage.ApplyFilters | src/pages/SearchPage.tsx:45-77 | the listed projects and tasks become exactly the search results for the current term, filters and data, which it leaves unchanged |
| Search.SearchPage.ChangeInputs | src/pages/SearchPage.tsx:28-30 | changing the term or a filter re-runs the search, so the lists are the results for the new inputs |
| Search.SearchPage.ClearFilters | src/pages/SearchPage.tsx:79-84 | the term back to empty and every filter back to 'all'; the effect then lists every loaded project and task |
| Search.SearchPage.TotalResults | src/pages/SearchPage.tsx:96 | zero exactly when both lists are empty, and at least each list's length |
| Search.SearchPage.ShowsNoResults | src/pages/SearchPage.tsx:275 | the "no results" card shows exactly when both lists are empty and the term is not |
| Search.NoResultsMeansNoMatch | src/pages/SearchPage.tsx:275 | when the card shows, no loaded project matches the term and no loaded task matches the term and the filters |
| Calendar.Events | src/pages/CalendarPage.tsx:59-66 | one event per task with a deadline, in order, starting and ending on the deadline and titled by the task name |
| Calendar.EventsOnePerDatedTask | src/pages/CalendarPage.tsx:59-66 | reading the tasks back off the events gives exactly the tasks with a deadline |
| Calendar.TaskOnCalendar | src/pages/CalendarPage.tsx:59-66 | a task appears on the calendar exactly when it is one of the tasks and has a deadline |
| Calendar.EventColor | src/pages/CalendarPage.tsx:69-88 | `eventStyleGetter`'s background: by priority, green when completed; EventColorMeaning states what the colour tells |
| Calendar.EventColorMeaning | src/pages/CalendarPage.tsx:69-88 | green exactly when completed; otherwise the colour tells the priority back; the default colour never shows |
| Calendar.CalendarPage.constructor | src/pages/CalendarPage.tsx:28-32 | no tasks, loading, no error, no selection, modal closed |
| Calendar.CalendarPage.LoadTasks | src/pages/CalendarPage.tsx:39-56 | on success the fetched tasks replace the list and the error is cleared; on failure the list is kept and the error set; loading ends; selection and modal unchanged |
| Calendar.CalendarPage.SelectEvent | src/pages/CalendarPage.tsx:102-105 | selects the event's task and opens the modal, which is only open on a selection |
| Calendar.CalendarPage.CloseModal | src/pages/CalendarPage.tsx:208 | closes the modal and keeps the selection |

## Left out

- The REST client (`services/api.ts`) is not part of this model. Its outcomes are parameters, and loading spinners and console logging are not modelled.
- Rendering: markup, icons, chart components and the badge text `replace('_', ' ')`. Only the data and the colour choices fed to them are modelled.
- The 3-second `setTimeout` that clears the timer's message after a save is not modelled.
- The `onRecordSaved` callback is modelled as a ghost counter of notifications. The refresh it triggers is a remount of the list through `key={refreshKey}`, which is `TimeRecordList.Mount`: a fresh `RecordList` followed by `LoadRecords`, so after a failed fetch the list is empty.
- Time zones and daylight saving:
  - `obtenerUltimosDias` is modelled as `today - i` in UTC days;
  - the week window subtracts exactly 7 × 86400000 ms;
  - `new Date(fecha)` is the record's UTC midnight.
- Day labels (`toLocaleDateString`), the modal's date display and the calendar's view/date state are not modelled.
- Floating point: the bar chart's `horas` (`toFixed(1)`) and the pie labels' percentages are not modelled.
- `toLowerCase` is modelled on ASCII letters only; Unicode case mapping is not.
- Minutes (`tiempoDedicado`) are integers; fractional minutes are not modelled.
- An empty `deadline` string is modelled as `None`, matching its falsy test.
- TimeRecordList.SortNewestFirst: its contract states an order by date and a permutation, not stability. The insertion moves a record only past strictly older ones, so equal dates keep their input order as JavaScript's stable `sort` does, but no `ensures` says so. Invalid dates (NaN comparisons) are not modelled.
- `handleDelete` in the time record list (a confirm dialog and a delete call) is not modelled.
- The analytics `loadData`, with its error card, is not modelled. The views are functions of the loaded `projects`, `tasks` and `timeRecords`.
- The chart's day count `diasGrafico` (default 7) is a parameter of `LastDays`.
- WorkTimer.Timer.LoadTasks: the first task's `id || 0` is modelled as `GetOr(0)`, so an id of 0 also yields 0, as in JavaScript.
- The task list's data loading, deletion and form, `SubtaskList`, the project views, the navigation and the routing are outside the modelled views.
