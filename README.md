# Paskal dashboard — a verified model of its core logic

Paskal is a manufacturing dashboard. Its centre is the alert centre
(`app/alertas/AlertasClient.tsx`). There, a simulator advances a production
counter for every active machine. A detector watches those counters and
raises one "production without progress" rule alert per stalled machine,
refreshing it in place. The user can mark alerts as read, dismiss them,
clear the read ones or resolve them. The same alert-list operations appear
on the alerts page, in the header and in the notification dropdown.

Around it sit the pages that edit small lists and classify values:
- the metrics page's CSV export;
- the machine comparison (a bounded selection, best/worst machine);
- production goals (status from the percentage reached, progress, stats);
- shift assignments (create, edit, delete, status, day and weekly views);
- the production floor (machine data patches, SKU codes, numeric-name sort,
  diagram columns);
- the operations leaderboard (podium and two rank columns);
- the employee roster;
- attendance and rotation (filters, de-duplication of employees,
  aggregates);
- the home chart's 12-hour axis label.

The model has one Dafny module per source file:

| module | models |
|---|---|
| `AlertEngine` | `app/alertas/AlertasClient.tsx` |
| `Alerts` | the alert record and list operations shared by the alert pages |
| `AlertsPage` | `app/alertas/page.tsx` |
| `Header` | `components/dashboard/header.tsx` |
| `AlertsDropdown` | `components/notifications/alerts-dropdown.tsx` |
| `Metricas` | `app/metricas/page.tsx` |
| `Comparativa` | `app/comparativa/page.tsx` |
| `Metas` | `app/metas/page.tsx` |
| `Turnos` | `app/turnos/page.tsx` |
| `PisoProduccion` | `app/piso-produccion/page.tsx` |
| `Tablero` | `app/tablero-operativo/page.tsx` |
| `Empleados` | `app/empleados/page.tsx` |
| `Asistencias` | `app/asistencias-rotacion/page.tsx` |
| `Home` | `app/page.tsx` |

There are also helper modules:
- `Wrappers`: `Option`.
- `Seqs`: `filter`, subsequences, sums, and a stable insertion sort standing
  for JavaScript's `Array.prototype.sort`.
- `Strings`: decimal rendering with its parse-back, ASCII case mapping,
  `includes`, `join`.
- `Records`: the machine, operator and employee records of `lib/mock-data.ts`.

Each piece of React state a page updates in place is a field of a class.
Each handler is a method whose `ensures` gives the new state as a
specification function of the old one. The properties are proved about those
functions. The timers become explicit calls
(`AlertCentre.SimulatorTick(now, increments)`, `AlertCentre.DetectorTick(now)`).
The clock and the random draws become parameters.

## Model

| member | source | states |
|---|---|---|
| AlertEngine.Round | app/alertas/AlertasClient.tsx:102 | `Math.round` yields the integer within half a unit of its argument (halves round up) |
| AlertEngine.InitialThreshold | app/alertas/AlertasClient.tsx:100-103 | the `idleMin` query is used, rounded to the nearest integer, only when it is a finite number above 0; otherwise the threshold is 10 |
| AlertEngine.LiveThreshold | app/alertas/AlertasClient.tsx:348 | a live edit stores `max(1, Number(v) \|\| 1)`: NaN, 0, negative or sub-1 input gives 1, a number ≥ 1 is kept, and only `Infinity` gives an unbounded threshold |
| AlertEngine.EffectiveMinutes | app/alertas/AlertasClient.tsx:158 | the detector's `Math.max(1, threshold)` is at least 1 and at least the threshold, and equals one of the two |
| AlertEngine.StagnantBoundary | app/alertas/AlertasClient.tsx:158-166 | a machine is stagnant iff `now − lastIncreaseAt ≥ max(1, t)·60000`; the boundary is inclusive |
| AlertEngine.StagnantMinutes | app/alertas/AlertasClient.tsx:171 | the minutes in the message are `floor(stagnantMs / 60000)`, clamped at 0 |
| AlertEngine.StagnantMinutesReachThreshold | app/alertas/AlertasClient.tsx:165-171 | when a machine is stagnant, the minutes in its message are at least 1 and at least the floor of the effective threshold |
| AlertEngine.UnrecordedNeverStagnant | app/alertas/AlertasClient.tsx:164-166 | a machine with no recorded last increase counts from `now` and is never stagnant |
| AlertEngine.RuleId | app/alertas/AlertasClient.tsx:167 | the rule alert id is `rule-stagnant-production-` followed by the machine id |
| AlertEngine.RuleIdInjective | app/alertas/AlertasClient.tsx:167 | distinct machines get distinct rule alert ids |
| AlertEngine.TemplateInjective | app/alertas/AlertasClient.tsx:174 | two messages from the template agree only if their digit fields agree |
| AlertEngine.MessageDetermines | app/alertas/AlertasClient.tsx:171-174 | a machine's message is equal for two ticks iff the minutes and the counter are equal, so "message changed" means "minutes or counter changed" |
| AlertEngine.StagnationTitle | app/alertas/AlertasClient.tsx:173-183 | no contract of its own: the title with the upper-cased machine label; DetectOne states that new rule alerts carry it |
| AlertEngine.StagnationMessage | app/alertas/AlertasClient.tsx:171-175 | no contract of its own: the message template; MessageDetermines states that it determines the minutes and the counter |
| AlertEngine.CurrentMessage | app/alertas/AlertasClient.tsx:164-175 | no contract of its own: the message for the machine's readings now; DetectOne and DetectSettles state that the rule alert carries it after a step |
| AlertEngine.FindIndex | app/alertas/AlertasClient.tsx:168 | `findIndex` gives the first index holding the id, or −1 exactly when the id is absent |
| AlertEngine.FindIndexCons | app/alertas/AlertasClient.tsx:168-190 | after an alert with another id is prepended, an existing id's index moves by one |
| AlertEngine.RefreshSpec | app/alertas/AlertasClient.tsx:177-206 | with the message already written: a first detection prepends exactly one new rule alert; a later one changes only the first alert with the rule id, keeps its identity, leaves it alone when it already carries that message unread and awaiting action, and otherwise stamps it with `now` |
| AlertEngine.Refresh | app/alertas/AlertasClient.tsx:177-206 | no contract of its own: the refresh of one stagnant machine once its message is written; RefreshSpec states each branch in full |
| AlertEngine.RefreshStep | app/alertas/AlertasClient.tsx:177-206 | the loop body's branches (prepend, or copy with the slices around the refreshed alert) compute exactly the refresh |
| AlertEngine.DetectOne | app/alertas/AlertasClient.tsx:163-207 | one loop step: a non-stagnant machine leaves the list alone. A stagnant machine with no rule alert gets one new unread, action-required production warning prepended. An existing rule alert that is read, not action-required or carries another message is replaced at its index with the new message, `now`, unread and action-required, keeping id, title, type and category. Every other index is unchanged |
| AlertEngine.DetectOneUnfold | app/alertas/AlertasClient.tsx:163-207 | a step is the refresh with the current message for a stagnant machine, and no change otherwise |
| AlertEngine.DetectorStep | app/alertas/AlertasClient.tsx:164-206 | the loop body for one machine (look up the rule alert, test stagnation, write the message, refresh) computes exactly one detector step |
| AlertEngine.DetectStep | app/alertas/AlertasClient.tsx:163-207 | looping over one more machine id is one more detector step on the list built so far |
| AlertEngine.Detect | app/alertas/AlertasClient.tsx:160-210 | no contract of its own: `DetectOne` folded over the active ids; DetectKeepsOld, DetectSettles and DetectIdempotent state what it does to the list |
| AlertEngine.RefreshIds | app/alertas/AlertasClient.tsx:177-206 | a refresh keeps the id list, or prepends the rule id exactly when it was missing |
| AlertEngine.DetectOneIds | app/alertas/AlertasClient.tsx:163-207 | one step either keeps the id list or prepends exactly the machine's rule id when it was absent |
| AlertEngine.KeepsOldWiden | app/alertas/AlertasClient.tsx:160-209 | the "old alerts kept in order, only rule alerts of looped machines touched" relation survives widening the set of looped machines |
| AlertEngine.KeepsOldPrepend | app/alertas/AlertasClient.tsx:176-190 | it survives prepending a fresh rule alert of a looped, stagnant machine |
| AlertEngine.SurvivorsKeepIds | app/alertas/AlertasClient.tsx:195-206 | alerts that survive the old list, identity for identity, carry its ids in order |
| AlertEngine.KeepsOldReplace | app/alertas/AlertasClient.tsx:195-206 | it survives replacing a rule alert in place with a refreshed copy of the same identity |
| AlertEngine.DetectKeepsOld | app/alertas/AlertasClient.tsx:160-210 | a detector pass never removes or reorders existing alerts; non-rule alerts and alerts of non-stagnant machines stay as they were; every other change is a prepended or refreshed rule alert of a stagnant active machine |
| AlertEngine.DetectKeepsIdsUnique | app/alertas/AlertasClient.tsx:163-193 | an id that occurs at most once before a pass occurs at most once after it |
| AlertEngine.DetectSettles | app/alertas/AlertasClient.tsx:160-210 | after a pass, every stagnant active machine has a rule alert, and the first one with its id is unread, action-required and carries the current message |
| AlertEngine.DetectFixpoint | app/alertas/AlertasClient.tsx:160-210 | a pass over a list in which every stagnant machine is already settled returns the list unchanged |
| AlertEngine.DetectIdempotent | app/alertas/AlertasClient.tsx:155-214 | a second detector tick at the same `now` and with the same counters changes nothing |
| AlertEngine.AdvanceSpec | app/alertas/AlertasClient.tsx:130-138 | only active machines with a positive increment change, and their counters rise (by exactly the increment when the active ids are distinct); no counter decreases; every other entry is untouched |
| AlertEngine.Advance | app/alertas/AlertasClient.tsx:130-138 | no contract of its own: the counter loop as a fold over the active ids; AdvanceSpec states its effect |
| AlertEngine.Stamp | app/alertas/AlertasClient.tsx:140-148 | no contract of its own: the timestamp loop as a fold over the active ids; StampSpec states its effect |
| AlertEngine.StampSpec | app/alertas/AlertasClient.tsx:140-148 | `lastIncreaseAt` becomes `now` for exactly the active machines with a positive increment; the other entries are unchanged |
| AlertEngine.ZeroTickIsIdentity | app/alertas/AlertasClient.tsx:124-148 | a tick with no positive increment leaves both maps unchanged |
| AlertEngine.OverThresholdAsWrittenDisagrees | app/alertas/AlertasClient.tsx:357-361 | with `?idleMin=0.4` the monitor card calls a machine stalled at 0 ms while the detector does not (see Findings) |
| AlertEngine.OverThresholdAgrees | app/alertas/AlertasClient.tsx:158-166 | with the detector's clamp, the card's badge agrees with the detector for every whole-minute threshold |
| AlertEngine.OverThresholdFractionalLags | app/alertas/AlertasClient.tsx:357-361 | even with the clamp, a live threshold of 1.5 minutes makes the detector fire at 90 s while the card's whole-minute comparison waits until 120 s |
| AlertEngine.OverThresholdAsWritten | app/alertas/AlertasClient.tsx:359-361 | no contract of its own: the card's badge as written; OverThresholdAsWrittenDisagrees states where it parts from the detector |
| AlertEngine.OverThreshold | app/alertas/AlertasClient.tsx:359-361 | no contract of its own: the badge with the detector's clamp; OverThresholdAgrees and OverThresholdFractionalLags state when it agrees with the detector |
| AlertEngine.ComparatorIsOrder | app/alertas/AlertasClient.tsx:246-269 | the priority comparator is a total, transitive order, so sorting by it is well defined |
| AlertEngine.Compare | app/alertas/AlertasClient.tsx:254-268 | no contract of its own: the comparator; ComparatorIsOrder states it is a total preorder and ShownBeforeMeans what its order means |
| AlertEngine.ShownBeforeMeans | app/alertas/AlertasClient.tsx:254-268 | an alert placed first is actionable-unread if the later one is; then unread if the later one is; then of equal or higher severity (error > warning > info > success); then no older |
| AlertEngine.SortedView | app/alertas/AlertasClient.tsx:246-269 | the sorted view is a permutation of its input, ordered by the comparator |
| AlertEngine.Scoped | app/alertas/AlertasClient.tsx:220-224 | the production view keeps exactly the production alerts, the operations view exactly the others, in list order |
| AlertEngine.InScope | app/alertas/AlertasClient.tsx:220-224 | no contract of its own: the scope test of one alert; Scoped and Visible state the lists it selects |
| AlertEngine.Visible | app/alertas/AlertasClient.tsx:220-244 | the visible list is exactly the in-scope alerts that pass tab, type, category and search, as a subsequence of the list |
| AlertEngine.ActiveMachineIds | app/alertas/AlertasClient.tsx:115-117 | the looped ids are the ids of the active machines, one entry per active machine, in registry order |
| AlertEngine.ActiveMachineIdsMembers | app/alertas/AlertasClient.tsx:115-117 | an id is looped iff some active machine has it |
| AlertEngine.AlertCentre.constructor | app/alertas/AlertasClient.tsx:100-117 | seed alerts; every machine's counter 0 and last increase `now`; threshold from the query |
| AlertEngine.AlertCentre.SimulatorTick | app/alertas/AlertasClient.tsx:120-152 | both maps are advanced by the loops' specification; alerts and threshold unchanged |
| AlertEngine.AlertCentre.DetectorTick | app/alertas/AlertasClient.tsx:155-214 | the alert list becomes the detector fold over the active ids, and nothing else changes |
| AlertEngine.AlertCentre.SetIdleThreshold | app/alertas/AlertasClient.tsx:348 | the threshold becomes the clamped live value |
| AlertEngine.AlertCentre.MarkAsRead | app/alertas/AlertasClient.tsx:271-273 | the alert list becomes `Alerts.MarkAsRead` of the old list |
| AlertEngine.AlertCentre.MarkAllAsRead | app/alertas/AlertasClient.tsx:275-277 | the alert list becomes every alert read |
| AlertEngine.AlertCentre.Dismiss | app/alertas/AlertasClient.tsx:279-281 | the alert list loses exactly the alerts with that id |
| AlertEngine.AlertCentre.ClearAll | app/alertas/AlertasClient.tsx:283-285 | the alert list keeps exactly the unread alerts |
| AlertEngine.AlertCentre.Resolve | app/alertas/AlertasClient.tsx:287-291 | the matching alerts become read and no longer action-required |
| Alerts.Ids | lib/mock-data.ts:149-160 | the ids of the alerts, in list order |
| Alerts.MarkAsRead | app/alertas/page.tsx:125-127 | only `isRead` changes, and only on alerts with the id; length, order and every other field are kept |
| Alerts.MarkAllAsRead | app/alertas/page.tsx:129-131 | every alert becomes read; length, order and every other field are kept |
| Alerts.Dismiss | app/alertas/page.tsx:133-135 | removes exactly the alerts with the id; the rest keep their relative order and multiplicity |
| Alerts.ClearRead | app/alertas/page.tsx:137-139 | keeps exactly the unread alerts in their order; no read alert remains and the length is the unread count |
| Alerts.Resolve | app/alertas/page.tsx:141-145 | sets `isRead` and clears `actionRequired` on the matching alerts only; nothing else changes |
| Alerts.MarkAsReadIdempotent | app/alertas/page.tsx:125-127 | marking the same id twice is marking it once |
| Alerts.MarkAllAsReadIdempotent | app/alertas/page.tsx:129-131 | marking all as read is idempotent |
| Alerts.CountersOrdered | app/alertas/page.tsx:106-109 | action-required ≤ unread ≤ total, and errors + warnings ≤ unread |
| Alerts.UnreadCount | app/alertas/page.tsx:106 | no contract of its own: the number of unread alerts; CountersOrdered and MarkAllAsReadClearsUnread bound it |
| Alerts.ActionRequiredCount | app/alertas/page.tsx:107 | no contract of its own: the number of unread action-required alerts; CountersOrdered bounds it by the unread count |
| Alerts.ErrorCount | app/alertas/page.tsx:108 | no contract of its own: the number of unread errors; CountersOrdered bounds it with the warnings by the unread count |
| Alerts.WarningCount | app/alertas/page.tsx:109 | no contract of its own: the number of unread warnings; CountersOrdered bounds it with the errors by the unread count |
| Alerts.MarkAllAsReadClearsUnread | app/alertas/page.tsx:129-131 | after marking all as read the unread count is 0 |
| Alerts.FilterAlerts | app/alertas/page.tsx:111-123 | the shown alerts are exactly those that pass tab, type, category and search, as a subsequence of the list |
| Alerts.MatchesSearch | app/alertas/page.tsx:118-121 | no contract of its own: the case-insensitive search on title and message; FilterAlerts and NoFilterShowsAll state the lists it selects |
| Alerts.TabsNested | app/alertas/page.tsx:111-123 | the action tab's list is a subsequence of the unread tab's, which is a subsequence of the all tab's |
| Alerts.NoFilterShowsAll | app/alertas/page.tsx:111-123 | with the all tab, no type or category filter and an empty search, every alert is shown in order |
| Alerts.ElapsedMinutes | app/alertas/page.tsx:77 | the elapsed minutes are the floor of the elapsed milliseconds over 60000 |
| Alerts.AgoOf | app/alertas/page.tsx:75-83 | under 1 minute is "now"; under 60 shows the minutes; under 1440 the floored hours; otherwise the floored days |
| Alerts.AgoRanges | app/alertas/page.tsx:81-82 | the hours shown lie in 1..23 and the days shown are at least 1 |
| Alerts.RenderAgo | app/alertas/page.tsx:79-82 | no contract of its own: the four texts of the buckets; AgoOf states which bucket applies |
| Alerts.FormatTimeAgo | app/alertas/page.tsx:75-83 | no contract of its own: `formatTimeAgo` as the rendered bucket of the elapsed minutes; ElapsedMinutes, AgoOf and AgoRanges state its parts |
| AlertsPage.Page.constructor | app/alertas/page.tsx:100 | the page starts from the seed alerts |
| AlertsPage.Page.HandleMarkAsRead | app/alertas/page.tsx:125-127 | the page's list becomes `MarkAsRead` of the old one |
| AlertsPage.Page.HandleMarkAllAsRead | app/alertas/page.tsx:129-131 | the page's list becomes `MarkAllAsRead` of the old one |
| AlertsPage.Page.HandleDismiss | app/alertas/page.tsx:133-135 | the page's list becomes `Dismiss` of the old one |
| AlertsPage.Page.HandleClearAll | app/alertas/page.tsx:137-139 | the page's list becomes `ClearRead` of the old one |
| AlertsPage.Page.HandleResolve | app/alertas/page.tsx:141-145 | the page's list becomes `Resolve` of the old one |
| AlertsPage.MarkAllThenClearEmpties | app/alertas/page.tsx:129-139 | "mark all as read" followed by "clear" empties the list |
| AlertsPage.ResolveRemovesFromCounters | app/alertas/page.tsx:141-145 | resolving never raises the unread or action counts, and the resolved alerts count in neither |
| Header.HeaderAlerts.constructor | components/dashboard/header.tsx:19 | the header holds its own list, starting from the seed alerts |
| Header.HeaderAlerts.HandleMarkAsRead | components/dashboard/header.tsx:21-23 | only the header's list changes, to `MarkAsRead` of the old one |
| Header.HeaderAlerts.HandleDismiss | components/dashboard/header.tsx:25-27 | only the header's list changes, to `Dismiss` of the old one |
| Header.HeaderAlerts.HandleMarkAllAsRead | components/dashboard/header.tsx:29-31 | only the header's list changes, to `MarkAllAsRead` of the old one |
| AlertsDropdown.Badge | components/notifications/alerts-dropdown.tsx:63-66 | the bell badge is hidden iff nothing is unread, shows "9+" iff more than 9 are unread, and otherwise the exact count |
| AlertsDropdown.ClickRequest | components/notifications/alerts-dropdown.tsx:105 | a click requests mark-as-read, of that alert's id, iff the alert is unread |
| AlertsDropdown.ClickEffect | components/notifications/alerts-dropdown.tsx:105 | clicking a read alert changes nothing; clicking an unread one marks that id read and changes nothing else |
| AlertsDropdown.DropdownCounters | components/notifications/alerts-dropdown.tsx:55-77 | action-required ≤ unread; the action note appears only with the mark-all button; after marking all, the badge and the button disappear |
| Metricas.FormatDate | app/metricas/page.tsx:41-46 | the text is the year, "-", the 1-based month in two digits, "-", the day in two digits, and each field reads back as its value |
| Metricas.DashedParts | app/metricas/page.tsx:41-46 | in a dashed date with two-character month and day, the year, month and day stand at fixed offsets from the end |
| Metricas.FormatYearMonth | app/metricas/page.tsx:48-52 | the text is the year, "-", and the 1-based month in two digits, each reading back as its value |
| Metricas.RenderQuarters | app/metricas/page.tsx:126-133 | a whole number of quarters renders as an integer, and any other number of quarters as a decimal ending in 5 |
| Metricas.Escape | app/metricas/page.tsx:54-59 | a field is quoted iff it holds CR, LF, `"` or `,` (section 2, rule 6 of RFC 4180); an unquoted field is the text itself |
| Metricas.CsvEscape | app/metricas/page.tsx:54-59 | no contract of its own: `csvEscape` of a value's text; Escape and FieldRoundTrip state the escaping and its read-back |
| Metricas.ParseQuoted | app/metricas/page.tsx:57-58 | reading a quoted field consumes input |
| Metricas.ParseUnquoted | app/metricas/page.tsx:56-58 | reading an unquoted field never grows the input |
| Metricas.ParseField | app/metricas/page.tsx:54-59 | reading a field never grows the input |
| Metricas.ParseRecord | app/metricas/page.tsx:64-66 | reading a record never grows the input |
| Metricas.UnquotedRoundTrip | app/metricas/page.tsx:56-58 | a field without special characters reads back as itself |
| Metricas.QuotedRoundTrip | app/metricas/page.tsx:57-58 | stripping the outer quotes and undoubling `""` recovers the text exactly (section 2, rule 7 of RFC 4180) |
| Metricas.FieldRoundTrip | app/metricas/page.tsx:54-59 | every escaped field reads back as the original text |
| Metricas.ParseLastField | app/metricas/page.tsx:64-66 | a field followed by a line feed or the end is a record of one field |
| Metricas.ParseFieldThenRecord | app/metricas/page.tsx:64-66 | a field, a comma and a record read back as a record one field longer |
| Metricas.ConsRoundTrip | app/metricas/page.tsx:64-66 | an escaped field, a comma and a record that reads back read back as that record with the field in front |
| Metricas.JoinedRoundTrip | app/metricas/page.tsx:64-66 | any comma-joined list of escaped fields reads back as the field list |
| Metricas.RecordRoundTrip | app/metricas/page.tsx:64-66 | a comma-joined record of escaped fields reads back as the field list |
| Metricas.RecordsConsRoundTrip | app/metricas/page.tsx:67 | an escaped record, a line feed and records that read back read back as one record more |
| Metricas.LinesRoundTrip | app/metricas/page.tsx:67 | escaped records joined by line feeds read back as the records |
| Metricas.DocumentRoundTrip | app/metricas/page.tsx:67 | records joined by `"\n"` read back as the record list |
| Metricas.Get | app/metricas/page.tsx:66 | `row[key]` is the stored value, or undefined for a missing key |
| Metricas.Cells | app/metricas/page.tsx:66 | a row yields one field per header, and a missing key yields the empty field |
| Metricas.ToCsv | app/metricas/page.tsx:62 | no rows give the empty text |
| Metricas.HeaderLineIsRecord | app/metricas/page.tsx:64-65 | the header line is the escaped record of the first row's keys |
| Metricas.BodyLineIsRecord | app/metricas/page.tsx:66 | a row's line is the escaped record of its cells under the headers |
| Metricas.BodyLinesAreRecords | app/metricas/page.tsx:66 | the rows' lines are, in order, the escaped records of their cells |
| Metricas.DocumentLines | app/metricas/page.tsx:67 | a document's lines are its first record's line followed by the others' lines |
| Metricas.ToCsvIsDocument | app/metricas/page.tsx:61-68 | the export is the escaped document of the header record followed by one record of cells per row |
| Metricas.ToCsvRoundTrip | app/metricas/page.tsx:61-68 | the export reads back as `rows.length + 1` records: the first row's keys, then each row's fields in header order |
| Metricas.Productions | app/metricas/page.tsx:88 | the production figures of the hourly data, in order |
| Metricas.UnitsColumn | app/metricas/page.tsx:89-99 | the `unidades` of each row, in order |
| Metricas.DailyReportRows | app/metricas/page.tsx:84-102 | one row per hour with date, hour and units, then one TOTAL row with the same three keys, the date, and units equal to the sum of the rows above it |
| Metricas.MonthlyReportRows | app/metricas/page.tsx:104-120 | one row per month with the four columns in order, the month as period, actual and target, and `desviacion = actual − target` |
| Metricas.BonusReportRows | app/metricas/page.tsx:122-137 | one row per operator with the six columns in order: the period, the operator's name, machine, SKU and units, and the estimated bonus (a quarter per unit) |
| Comparativa.Toggled | app/comparativa/page.tsx:45-53 | a selected machine is removed; an unselected one is appended when fewer than 5 are selected; otherwise the selection is unchanged |
| Comparativa.ToggleKeepsValid | app/comparativa/page.tsx:45-53 | a selection of at most 5 without duplicates stays so after any toggle |
| Comparativa.ToggleTwiceRestores | app/comparativa/page.tsx:45-53 | toggling an absent machine twice, with room for it, restores the selection |
| Comparativa.Selection.constructor | app/comparativa/page.tsx:42 | the selection starts as M1, M2, M3, which is a valid selection |
| Comparativa.Selection.ToggleMachine | app/comparativa/page.tsx:45-53 | the selection becomes the toggled one |
| Comparativa.PerformanceBadge | app/comparativa/page.tsx:65-85 | "Excelente" iff value ≥ threshold + 5, "En meta" iff threshold ≤ value < threshold + 5, "Bajo meta" iff value < threshold |
| Comparativa.BadgeMonotone | app/comparativa/page.tsx:65-85 | a higher value never gets a lower badge |
| Comparativa.BestIndex | app/comparativa/page.tsx:87-89 | the reduce picks the first entry with the highest OEE |
| Comparativa.WorstIndex | app/comparativa/page.tsx:91-93 | the reduce picks the first entry with the lowest OEE |
| Comparativa.BestMachine | app/comparativa/page.tsx:87-89 | the best machine has an OEE no lower than any entry's, and exists iff the data is non-empty |
| Comparativa.WorstMachine | app/comparativa/page.tsx:91-93 | the worst machine has an OEE no higher than any entry's, and exists iff the data is non-empty |
| Comparativa.OeeSumBounds | app/comparativa/page.tsx:95 | the OEE sum lies between n·lowest and n·highest |
| Comparativa.MeanWithin | app/comparativa/page.tsx:95 | when every OEE lies between two bounds, so does their average |
| Comparativa.MeanBetween | app/comparativa/page.tsx:95 | the average OEE lies between the worst and the best machine's OEE |
| Comparativa.MeanBounds | app/comparativa/page.tsx:95 | a mean of values within bounds lies within the bounds |
| Comparativa.AvgOee | app/comparativa/page.tsx:95 | the average OEE lies between the worst and the best machine's OEE |
| Comparativa.TableRows | app/comparativa/page.tsx:252-254 | the table is a permutation of the selected machines' rows, in non-increasing OEE |
| Metas.CalculateStatus | app/metas/page.tsx:198-204 | a goal status is never "completed" |
| Metas.StatusThresholds | app/metas/page.tsx:198-204 | for a positive target, "exceeded" iff ≥ 100 %, "on-track" iff in [90, 100) %, "at-risk" iff in [70, 90) %, "behind" below 70 %; for a zero target, "exceeded" iff current > 0 and "behind" otherwise |
| Metas.PercentageCompare | app/metas/page.tsx:199 | comparing the percentage with a cut-off is comparing current·100 with cut-off·target |
| Metas.StatusMonotone | app/metas/page.tsx:198-204 | for a fixed positive target the status never falls as current rises (behind < at-risk < on-track < exceeded) |
| Metas.Progress | app/metas/page.tsx:63 | a card's progress is capped at 100, defined for every non-zero target, and not negative for a positive target and non-negative current |
| Metas.ProgressFullIffExceeded | app/metas/page.tsx:198-204 | progress is 100 iff the computed status is "exceeded" |
| Metas.ProgressSum | app/metas/page.tsx:257-258 | the sum of capped progress values is defined iff every term is, and is at most 100·n |
| Metas.OverallProgress | app/metas/page.tsx:257-258 | the overall progress is defined iff there are goals and each has a progress, and it is at most 100 |
| Metas.CardFooter | app/metas/page.tsx:130-139 | "Meta alcanzada" iff the status is exceeded or completed; a remaining amount shown is positive and is target − current |
| Metas.SavedGoalFooter | app/metas/page.tsx:198-204 | for a goal whose status was computed on save, the footer shows what remains iff current < target, and "Meta alcanzada" iff current ≥ target |
| Metas.Edited | app/metas/page.tsx:210-223 | an edited goal keeps its id, machine and SKU, takes the form's name, description, period, unit and dates and the parsed target and current, and gets its status recomputed |
| Metas.EditGoals | app/metas/page.tsx:210-223 | only the goals with the edited id are replaced; length and the other goals are unchanged |
| Metas.EditKeepsIds | app/metas/page.tsx:210-223 | editing keeps every goal's id in place |
| Metas.NewGoal | app/metas/page.tsx:224-238 | a created goal gets id `g<now>`, the form's name, description, period, unit and dates, the parsed numbers, no machine or SKU, and the computed status |
| Metas.DeleteGoal | app/metas/page.tsx:244-246 | removes exactly the goals with the id, keeping the others in order |
| Metas.FilteredGoals | app/metas/page.tsx:248 | "all" shows every goal; a period shows exactly its goals, in order |
| Metas.StatsPartition | app/metas/page.tsx:250-255 | on-track + exceeded + at-risk counts equal the total |
| Metas.GoalStats | app/metas/page.tsx:250-255 | no contract of its own: the four counters; StatsPartition states that the three groups add up to the total |
| Metas.GoalBoard.constructor | app/metas/page.tsx:149-163 | seed goals, no goal being edited, the empty form, no period filter and a closed dialog |
| Metas.GoalBoard.OpenDialog | app/metas/page.tsx:179-196 | a goal becomes the goal being edited and loads its name, description, period, unit and dates into the form, with target and current as `toText` of the goal's values; no goal clears the goal being edited and resets the form; either way the dialog opens |
| Metas.GoalBoard.SaveGoal | app/metas/page.tsx:206-242 | editing replaces the edited goal through `EditGoals`; creating appends exactly one `NewGoal`; the form then resets and the dialog closes |
| Metas.GoalBoard.CancelDialog | app/metas/page.tsx:390 | the cancel button closes the dialog |
| Metas.GoalBoard.Delete | app/metas/page.tsx:244-246 | the goals become `DeleteGoal` of the old ones |
| Metas.GoalBoard.SetFilterPeriod | app/metas/page.tsx:248 | the period filter becomes the chosen one |
| Turnos.ResolveNames | app/turnos/page.tsx:99-103 | the names resolve iff the employee, shift and machine ids are all found, and they are those of the first match |
| Turnos.Reassigned | app/turnos/page.tsx:105-121 | an edited assignment keeps its id and status and takes the form's ids, date and looked-up names |
| Turnos.EditAssignments | app/turnos/page.tsx:105-121 | only the assignment with the edited id changes |
| Turnos.NewAssignment | app/turnos/page.tsx:122-135 | a created assignment gets id `sa<now>`, status "scheduled", and the form's ids, date and names |
| Turnos.DeleteAssignment | app/turnos/page.tsx:139-141 | removes exactly the assignments with the id, keeping the others in order |
| Turnos.ChangeStatus | app/turnos/page.tsx:143-147 | only the status of the matching assignments changes |
| Turnos.ChangeStatusIdempotent | app/turnos/page.tsx:143-147 | setting the same status twice is setting it once |
| Turnos.ForDate | app/turnos/page.tsx:72 | the day's list is exactly the assignments on that date, with their multiplicity, in list order |
| Turnos.SummaryBounded | app/turnos/page.tsx:229-241 | the per-shift counts sum to at most the day's total, and to exactly the total when every assignment is in a listed shift |
| Turnos.Summary | app/turnos/page.tsx:229-241 | no contract of its own: the per-shift counters of the day; SummaryBounded bounds them by the day's total |
| Turnos.TodayCountersBounded | app/turnos/page.tsx:73-75 | today's in-progress and scheduled counts together do not exceed today's assignments |
| Turnos.FirstWords | app/turnos/page.tsx:366-370 | the first word of each assignment's employee name, in order |
| Turnos.GridCell | app/turnos/page.tsx:359-373 | a weekly cell is empty iff no assignment falls on that shift and day; otherwise it shows the first words of the first two, plus "+(n−2) más" iff n > 2 |
| Turnos.GridDate | app/turnos/page.tsx:360 | no contract of its own: the grid's date text `2026-01-<day>`; GridDateInjective states that different days read different dates |
| Turnos.GridDateInjective | app/turnos/page.tsx:360 | two days of the grid with the same date text are the same day |
| Turnos.GridCellAccounts | app/turnos/page.tsx:359-373 | a cell shows 1 or 2 names, and the names plus the "más" count equal the number of assignments |
| Turnos.ShiftPlanner.constructor | app/turnos/page.tsx:60-70 | seed assignments, closed modal, selected date and form date 2026-01-20 |
| Turnos.ShiftPlanner.OpenModal | app/turnos/page.tsx:77-96 | an assignment loads its ids and date into the form; no assignment gives an empty form on the selected date |
| Turnos.ShiftPlanner.Save | app/turnos/page.tsx:98-137 | unresolved ids change nothing; otherwise the edited assignment is replaced or one new assignment appended, and the modal closes |
| Turnos.ShiftPlanner.Delete | app/turnos/page.tsx:139-141 | the assignments become `DeleteAssignment` of the old ones |
| Turnos.ShiftPlanner.StatusChange | app/turnos/page.tsx:143-147 | the assignments become `ChangeStatus` of the old ones |
| Turnos.ShiftPlanner.SelectDate | app/turnos/page.tsx:64-72 | the selected date becomes the chosen one |
| PisoProduccion.OrAbsent | app/piso-produccion/page.tsx:91-93 | an empty input is stored as undefined, anything else as itself |
| PisoProduccion.Seeded | app/piso-produccion/page.tsx:47-54 | a machine's initial data copies its registry fields and has no SKU code |
| PisoProduccion.Merge | app/piso-produccion/page.tsx:117-119 | `{...m, ...patch}`: each field the patch names takes the patch's value; the others are kept |
| PisoProduccion.QuickUpdate | app/piso-produccion/page.tsx:117-119 | only the machines with the id are merged; the others and the order are unchanged |
| PisoProduccion.QuickUpdateIdempotent | app/piso-produccion/page.tsx:117-119 | applying the same patch twice is applying it once |
| PisoProduccion.DialogPatch | app/piso-produccion/page.tsx:88-95 | the dialog's save writes all three fields, each through the empty-to-undefined rule |
| PisoProduccion.DialogSaveMakesRowOk | app/piso-produccion/page.tsx:84-104 | after a dialog save the row is "OK" iff the code, operator and packer inputs were all non-empty |
| PisoProduccion.ToUpperIsUpperCased | app/piso-produccion/page.tsx:433 | an entered code, once upper-cased, holds no lower-case letter |
| PisoProduccion.StatusCountsPartition | app/piso-produccion/page.tsx:122-124 | the active, waiting and inactive counts add up to the number of machines |
| PisoProduccion.NonDigitPrefix | app/piso-produccion/page.tsx:129 | the position of the first digit, or the length when there is none |
| PisoProduccion.ByNumericName | app/piso-produccion/page.tsx:128-131 | the sort key is +∞ iff the name has no digit, and otherwise the value of the first maximal run of digits |
| PisoProduccion.SortedMachines | app/piso-produccion/page.tsx:127-133 | the sorted list is a permutation of the machines, in non-decreasing key order |
| PisoProduccion.NumberedFirst | app/piso-produccion/page.tsx:127-133 | every machine with a number in its name comes before every machine without one |
| PisoProduccion.Column | app/piso-produccion/page.tsx:66-72 | a diagram column holds exactly the machines with that `position.col`, ordered by `position.row` |
| PisoProduccion.Columns | app/piso-produccion/page.tsx:66-72 | there are five columns, column `c` holding the machines of column `c` |
| PisoProduccion.ColumnsPlaceEachMachine | app/piso-produccion/page.tsx:66-72 | each machine appears in its own column as often as in the list, and in no other |
| PisoProduccion.Names | app/piso-produccion/page.tsx:38-45 | the names of the employees, in order |
| PisoProduccion.FloorPlan.constructor | app/piso-produccion/page.tsx:38-61 | the operator and packer lists are the names of the employees with that role; machine data is seeded from the registry; nothing is selected |
| PisoProduccion.FloorPlan.MachineClick | app/piso-produccion/page.tsx:74-82 | clicking selects and focuses the machine, opens the dialog, and loads its fields (or "") into the inputs |
| PisoProduccion.FloorPlan.TypeCode | app/piso-produccion/page.tsx:433 | the code input holds the typed text upper-cased |
| PisoProduccion.FloorPlan.ChooseOperator | app/piso-produccion/page.tsx:440 | the operator input holds the chosen name |
| PisoProduccion.FloorPlan.ChoosePacker | app/piso-produccion/page.tsx:457 | the packer input holds the chosen name |
| PisoProduccion.FloorPlan.Save | app/piso-produccion/page.tsx:84-104 | with no machine selected nothing changes; otherwise only the selected machine is patched from the inputs, and the dialog closes and clears |
| PisoProduccion.FloorPlan.QuickSetCode | app/piso-produccion/page.tsx:117-119 | a code typed in the table is stored upper-cased on the matching machines only |
| PisoProduccion.FloorPlan.QuickSetOperator | app/piso-produccion/page.tsx:117-119 | the chosen operator is stored on the matching machines only |
| PisoProduccion.FloorPlan.QuickSetPacker | app/piso-produccion/page.tsx:117-119 | the chosen packer is stored on the matching machines only |
| PisoProduccion.FloorPlan.Reset | app/piso-produccion/page.tsx:106-115 | every machine is re-seeded from the registry, and no machine keeps a SKU code |
| Tablero.SortedOperators | app/tablero-operativo/page.tsx:9 | the board is a permutation of the operators with units never increasing |
| Tablero.LeaderHasMostUnits | app/tablero-operativo/page.tsx:9 | the first operator on the board has at least the units of every operator |
| Tablero.SplitIsWholeBoard | app/tablero-operativo/page.tsx:10-11 | podium followed by the rest is the whole board, and the podium has min(3, n) operators |
| Tablero.TopThree | app/tablero-operativo/page.tsx:10 | no contract of its own: `slice(0, 3)` of the board; SplitIsWholeBoard and PodiumPlaces state it |
| Tablero.Rest | app/tablero-operativo/page.tsx:11 | no contract of its own: `slice(3)` of the board; SplitIsWholeBoard states it |
| Tablero.EvenPositions | app/tablero-operativo/page.tsx:14 | the left column holds the elements at even positions: element `i` is element `2i`, and there are ⌈n/2⌉ of them |
| Tablero.OddPositions | app/tablero-operativo/page.tsx:15 | the right column holds the elements at odd positions: element `i` is element `2i+1`, and there are ⌊n/2⌋ of them |
| Tablero.ColumnsPartition | app/tablero-operativo/page.tsx:14-15 | the two columns together hold every element once, and the left is as long as the right or one longer |
| Tablero.LeftColumn | app/tablero-operativo/page.tsx:14 | no contract of its own: the even positions of the rest; RanksArePlaces states which operators they are |
| Tablero.RightColumn | app/tablero-operativo/page.tsx:15 | no contract of its own: the odd positions of the rest; RanksArePlaces states which operators they are |
| Tablero.LeftRank | app/tablero-operativo/page.tsx:57 | the left column's ranks are the even numbers from 4 |
| Tablero.RightRank | app/tablero-operativo/page.tsx:67 | the right column's ranks are the odd numbers from 5 |
| Tablero.RanksArePlaces | app/tablero-operativo/page.tsx:57-67 | the rank printed beside an operator is its 1-based place on the board |
| Tablero.Podium | app/tablero-operativo/page.tsx:35-43 | the podium shows ranks 2, 1, 3 from left to right |
| Tablero.PodiumPlaces | app/tablero-operativo/page.tsx:35-43 | each podium place shows the operator of its rank, and is empty iff there are fewer operators than its rank |
| Empleados.NextIdAsWritten | app/empleados/page.tsx:30 | the page's new id is the decimal text of the list length plus one |
| Empleados.AsWrittenRepeatsId | app/empleados/page.tsx:28-44 | from ids 1, 2, 3, deleting 1 and adding gives two employees with id 3 (see Findings) |
| Empleados.AddedAsWritten | app/empleados/page.tsx:28-40 | `handleAddEmployee` as written: an incomplete draft changes nothing; a complete one appends one employee with the draft's fields whose id reads as the new length (see Findings) |
| Empleados.MaxNumericId | app/empleados/page.tsx:30 | no numeric id exceeds it |
| Empleados.NextId | app/empleados/page.tsx:30 | the corrected id differs from every existing id |
| Empleados.Added | app/empleados/page.tsx:28-40 | an incomplete draft changes nothing; a complete one appends exactly one employee with the draft's name, role and NFC id under a fresh id |
| Empleados.AddedKeepsIdsDistinct | app/empleados/page.tsx:28-40 | adding keeps employee ids distinct |
| Empleados.Deleted | app/empleados/page.tsx:42-44 | removes exactly the employees with the id, keeping the others in order |
| Empleados.DeletedKeepsIdsDistinct | app/empleados/page.tsx:42-44 | deleting keeps employee ids distinct |
| Empleados.RoleCountsPartition | app/empleados/page.tsx:46-47 | operators + packers = employees |
| Empleados.Roster.constructor | app/empleados/page.tsx:20-26 | the roster starts from the seed list, an empty operator draft and a closed dialog |
| Empleados.Roster.EditDraft | app/empleados/page.tsx:22-26 | the draft becomes the edited one |
| Empleados.Roster.AddEmployee | app/empleados/page.tsx:28-40 | the list becomes `AddedAsWritten` (the new id is the new length, which may repeat an existing id, see `AsWrittenRepeatsId`); after a successful add the draft resets to an empty operator and the dialog closes, and an incomplete draft changes nothing |
| Empleados.Roster.DeleteEmployee | app/empleados/page.tsx:42-44 | the list becomes `Deleted`: no employee with the id remains, every other employee keeps its multiplicity, and the result is a subsequence of the old list |
| Asistencias.DeleteRecord | app/asistencias-rotacion/page.tsx:38-40 | removes exactly the records with the id, keeping the others in order |
| Asistencias.DeleteRotation | app/asistencias-rotacion/page.tsx:42-44 | removes exactly the rotations with the id, keeping the others in order |
| Asistencias.FilteredRecords | app/asistencias-rotacion/page.tsx:46-53 | the shown records are exactly those whose name or status contains the search, case-insensitively, and whose employee matches unless "todos", in order |
| Asistencias.FilteredRotations | app/asistencias-rotacion/page.tsx:55-64 | the shown rotations match the search on name or machine, the employee and the shift unless "todos", in order |
| Asistencias.NoFilterListsAll | app/asistencias-rotacion/page.tsx:46-64 | an empty search with "todos" filters shows every record and rotation |
| Asistencias.EmployeeFilterNarrows | app/asistencias-rotacion/page.tsx:46-53 | choosing an employee never shows more than "todos" does |
| Asistencias.PositionOf | app/asistencias-rotacion/page.tsx:66-70 | where the Map holds an id, or its size when the id is new |
| Asistencias.Upsert | app/asistencias-rotacion/page.tsx:66-70 | no contract of its own: `Map.set` on the entry list; UpsertSpec states it |
| Asistencias.UpsertSpec | app/asistencias-rotacion/page.tsx:66-70 | setting a key grows the list only when the key is new, leaves every other entry in place, and the key then holds the new name |
| Asistencias.Employees | app/asistencias-rotacion/page.tsx:66-70 | no contract of its own: the Map built from the records; EmployeesDescribed states its entries, order and names |
| Asistencias.SeenBeforeExtends | app/asistencias-rotacion/page.tsx:66-70 | first-sight order is kept when records are appended |
| Asistencias.LastNameExtends | app/asistencias-rotacion/page.tsx:66-70 | a record for another employee leaves an employee's last name as it was |
| Asistencias.CoversStep | app/asistencias-rotacion/page.tsx:66-70 | one Map insertion keeps one entry per distinct employee id |
| Asistencias.NamedStep | app/asistencias-rotacion/page.tsx:66-70 | one Map insertion keeps each entry's name equal to the last record's name |
| Asistencias.OrderStep | app/asistencias-rotacion/page.tsx:66-70 | one Map insertion keeps the entries in order of first appearance |
| Asistencias.EmployeesDescribed | app/asistencias-rotacion/page.tsx:66-70 | the employee list has one entry per distinct employee id, in order of first appearance, named by the last record for that id |
| Asistencias.InsertKeepsTotals | app/asistencias-rotacion/page.tsx:312-320 | inserting a row adds exactly its absences and lates to the totals |
| Asistencias.TotalAbsences | app/asistencias-rotacion/page.tsx:312 | no contract of its own: the absence total; InsertKeepsTotals and SortKeepsTotals state how it behaves |
| Asistencias.TotalLates | app/asistencias-rotacion/page.tsx:320 | no contract of its own: the late total; InsertKeepsTotals and SortKeepsTotals state how it behaves |
| Asistencias.SortKeepsTotals | app/asistencias-rotacion/page.tsx:312-333 | sorting the stats keeps the absence and late totals |
| Asistencias.AttendancePage.constructor | app/asistencias-rotacion/page.tsx:30-36 | seed records, rotations and stats; empty search; "todos" filters |
| Asistencias.AttendancePage.DeleteRecordWithId | app/asistencias-rotacion/page.tsx:38-40 | the records become `DeleteRecord` of the old ones |
| Asistencias.AttendancePage.DeleteRotationWithId | app/asistencias-rotacion/page.tsx:42-44 | the rotations become `DeleteRotation` of the old ones |
| Asistencias.AttendancePage.SetFilters | app/asistencias-rotacion/page.tsx:30-36 | the search and the two filters become the chosen ones |
| Asistencias.AttendancePage.BestAttendance | app/asistencias-rotacion/page.tsx:312-334 | the shared stats are sorted in place into a permutation with non-increasing attendance, whose totals are unchanged, and the top is its first min(4, n) entries |
| Strings.BeforeFirst | app/page.tsx:96 | `split(sep)[0]`: the longest prefix free of the separator, which is followed by the separator when it is not the whole text (the home chart splits at ":", the shift grid at " ") |
| Home.TrimStart | app/page.tsx:96 | the result is a suffix of the text, everything dropped is white space, and it does not start with white space |
| Home.ParseInt | app/page.tsx:96 | empty text is NaN; text of digits only is its decimal value |
| Home.ParseSigned | app/page.tsx:96 | after the white space: empty text is NaN; text of digits only is its decimal value |
| Home.ParseIntSkipsSpace | app/page.tsx:96 | a leading white-space character (space, tab, line feed, vertical tab, form feed, carriage return) does not change what is parsed |
| Home.FormFeedThenDigit | app/page.tsx:96 | a form feed followed by 5 parses as 5 |
| Home.BeforeColonOf | app/page.tsx:96 | the part before the colon of "d:rest" is d, when d has no colon |
| Home.HourLabel | app/page.tsx:95-100 | tick "H:MM" is labelled H up to 12 and H − 12 after, with "PM" from 12 on ("12 PM", "0 AM"); the minutes play no part |
| Home.TickLabel | app/page.tsx:95-100 | no contract of its own: the axis tick formatter; HourLabel, PmIffAfterNoon and NoNumberLabel state its labels |
| Home.PmIffAfterNoon | app/page.tsx:96-97 | the label ends in "PM" iff the hour parsed before the colon is at least 12 |
| Home.NoNumberLabel | app/page.tsx:95-100 | a tick without a leading number is labelled "NaN AM" |

## Left out

- Rendering and UI-only state are not modelled: JSX, icons, colour and label maps, tab, dialog and select open state, and focus navigation. Dialog open flags are kept only where a handler sets them.
- Timers and React effects are not modelled. Each `setInterval` callback is one method call, and the interval periods (12 s, 3 s) are not modelled.
- The detector's effect reads the counter and timestamp maps captured when the effect was created. The model reads the current state at tick time.
- `Date.now()`, `new Date()` and `Math.random()` become parameters: `now` in milliseconds, a map of increments, and a draw per machine on the production floor.
- The range of the random draws (1..5 units, 80 % chance, the floor's random initial data) is not constrained.
- Locale formatting (`toLocaleString`, `toLocaleDateString`) is not modelled.
- The file download (Blob, object URL, anchor) and the XLSX export wrapper are not modelled.
- Floating-point presentation is not modelled: `toFixed`, radar values and chart data. The average attendance (`reduce` of percentages over the length) is left out as floating-point display arithmetic.
- `lib/mock-data.ts` is used only for the record shapes.
  - The shift, assignment, attendance, rotation, stats and machine-performance records are defined from their uses in the pages.
  - The records are not part of the shown data file.
- Case folding is ASCII only (`toLowerCase`, `toUpperCase`); Unicode folding is not modelled.
- `Home.ParseInt`: hexadecimal prefixes and non-ASCII white space (such as U+00A0 and U+FEFF) of `parseInt` are not modelled.
- `Metas.GoalBoard.OpenDialog`: JavaScript's number-to-text formatting is the parameter `toText`; its output for a given number is not modelled.
- `Metas.CalculateStatus`: it is defined over exact reals and for every target.
  - A zero target behaves as JavaScript's division does (a positive current gives "exceeded", otherwise "behind").
  - `parseFloat` of the form's text is not modelled: `SaveGoal` receives the parsed numbers.
  - Non-finite values (a NaN progress) are not modelled.
- `Metas.Progress`: it is `None` where the division by a zero target would not give a finite number, instead of JavaScript's Infinity or NaN.
- `PisoProduccion.Merge`: the patch type covers only the code, operator and packer fields, the only ones any handler patches.
- `Asistencias.AttendancePage.BestAttendance`: the attendance stats array is shared module data that the render sorts in place. The model holds it as a field of the page that the method replaces with the sorted sequence.
- `Seqs.SortBy`: the sort stands for JavaScript's stable `Array.prototype.sort`, but its contracts state only permutation and order; the relative order of ties is not stated.
- The alert engine does not take the registry's machine ids to be distinct; the maps are keyed by id as the source's records are.
- The detector never clears a rule alert when its machine recovers, and the model adds no such behaviour.

## Findings

| source | as written | input that shows it | evidently intended | confidence | as-written member | corrected member |
|---|---|---|---|---|---|---|
| app/empleados/page.tsx:30 | a new employee's id is `String(employees.length + 1)` | employees with ids "1", "2", "3"; delete "1", then add anyone: the new id is "3", the same as an existing employee | a new id that no current employee has (for example one more than the largest numeric id) | not executed; high | Empleados.AsWrittenRepeatsId | Empleados.Added |
| app/alertas/AlertasClient.tsx:359-361 | the monitor card compares the floored minutes with the raw threshold, without the detector's `Math.max(1, …)` | `?idleMin=0.4` rounds the threshold to 0. A machine that produced just now shows "Sin avance" while the detector waits a full minute | the card and the detector use the same clamped threshold. The clamp alone makes them agree for whole-minute thresholds; a fractional live threshold (1.5) still lets the card lag until the next whole minute (OverThresholdFractionalLags), so full agreement also needs the card to compare milliseconds | not executed; medium | AlertEngine.OverThresholdAsWrittenDisagrees | AlertEngine.OverThresholdAgrees |
