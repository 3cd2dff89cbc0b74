# Lead-tracking dashboard, modelled in Dafny

This project models the core of a React back-office used to follow e-mail
marketing leads. It covers the following parts:

- The reports screen (`Informes`). It loads events by status and filters them
  by a date range. It normalises collective names and groups events per day
  into a per-collective table and a per-source table, each with totals.
- The templates report (`Plantillas`). Templates are shown newest mailing
  first.
- The analytics dashboard:
  - the synthetic lead generator (`GenerateData`);
  - the date and collective filters (`AnalyticsData`);
  - the click counters per collective and source (`ClickStats`);
  - the conversion funnel (`ConversionFunnel`);
  - the clicks-over-time chart (`LineChart`).
- The events table (`EventTable`) and its detail popup (`Popup`).
- The local paginated and sortable table (`UtilsDataTable`).
- User management (`UserManagement`).
- The dashboard shell (`Dashboard`): the role-filtered menu, the role-gated
  routes and `classNames`.
- Authentication: the credential check with browser storage (`Auth`), and
  the context provider with e-mail roles, restore and logout (`AuthContext`).

Each source file is one module. The source takes three forms, and the model
follows it:

- Pure code becomes functions and lemmas.
- Component state becomes a class. The state is its fields and the handlers
  are methods with `modifies`.
- Loops become methods with invariants. Each method is proved against a
  specification function.

Five support modules are shared:

- `Common`: `Option`, JavaScript `||` on strings, counting, `filter`, and the
  distinct first-seen values that `Array.from(new Set(...))` gives.
- `Text`: ASCII case mapping, the regular-expression word class, string
  order and decimal printing.
- `Time`: milliseconds and local midnight at a fixed UTC offset.
- `Sorting`: a stable insertion sort, both as a function and in place on an
  array, proved against a total-preorder comparator.
- `Types`: the API records.

Conventions used throughout:

- A missing, `null` or `undefined` text field is `""`. The source only ever
  tests such fields for truthiness.
- `Date`s are integers of milliseconds.
- A backend request is a parameter that gives the outcome of the request,
  `Loaded(value)` or `Failed(failure)`.
- `navigate` calls are recorded in a `navigations` field.

## Model

| member | source | states |
|---|---|---|
| Informes.NormalizeName | src/components/informes/Informes.tsx:61-78 | a name whose lower-cased form is a synonym key maps to the canonical collective; any other name has each `-` turned into a space and the first letter of each word upper-cased, character by character |
| Informes.NormalizeFallbackIsFixedPoint | src/components/informes/Informes.tsx:71-77 | normalising a name outside the synonym table a second time changes nothing |
| Informes.NormalizeSynonymIgnoresCase | src/components/informes/Informes.tsx:62-73 | the lookup ignores case ("ENTIDADES-SOCIALES" gives "Entidades sociales") |
| Informes.AccentedLetterStartsWord | src/components/informes/Informes.tsx:75-77 | an accented letter is not a word character, so the letter after it is capitalised ("clínicas" gives "ClíNicas") |
| Informes.AccentedSynonymIsNotMerged | src/components/informes/Informes.tsx:62-77 | "Asesorías" with its accent misses the table and is not merged with "asesorias" |
| Informes.MissingLabelsAreUnknown | src/components/informes/Informes.tsx:83-86 | a missing collective or source is labelled "Desconocido"; a present collective is labelled by the name normaliser; a present source is kept as is |
| Informes.SynonymsShareColumn | src/components/informes/Informes.tsx:61-117 | two events whose collectives spell one synonym in any letter case get the same label, the table's spelling, which is a column of the collective table |
| Informes.Bump | src/components/informes/Informes.tsx:99-100 | one counter goes up by one from its previous value (0 when unseen); every other counter is unchanged |
| Informes.CountOne | src/components/informes/Informes.tsx:99-100 | the counting step of the loop is exactly `Bump` |
| Informes.GroupByDay | src/components/informes/Informes.tsx:80-105 | the loop builds one bucket per day, with days in first-seen order; each bucket counts exactly the events of that day per collective label and per source label |
| Informes.GroupingStep | src/components/informes/Informes.tsx:82-100 | processing one more event keeps the grouping invariant: either a new day with a fresh bucket, or the day's two counters bumped |
| Informes.EventDaysMembership | src/components/informes/Informes.tsx:82 | a day is listed exactly when some event falls on it |
| Informes.DayAbsentCountsZero | src/components/informes/Informes.tsx:88-97 | a day no event falls on counts zero for every label |
| Informes.Header | src/components/informes/Informes.tsx:111-121 | a header always has at least the "Fecha" and "TOTAL" columns |
| Informes.RowValues | src/components/informes/Informes.tsx:131-133 | one value per label column, each being the day's counter for that label or 0 |
| Informes.TableRows | src/components/informes/Informes.tsx:123-136 | one row per grouped day, in grouping order |
| Informes.TallyLookup | src/components/informes/Informes.tsx:133 | reading a label from a day's bucket gives the number of that day's events with that label |
| Informes.RowValuesSum | src/components/informes/Informes.tsx:134 | a row's total is the sum, over its columns, of the day's per-label counts |
| Informes.LabelsMembership | src/components/informes/Informes.tsx:113-118 | every event's label is a header column |
| Informes.RowIsDayCount | src/components/informes/Informes.tsx:123-136 | each row has one value per label column, each value counts that day's events with that label, and the total is the number of events that day |
| Informes.TotalsAreDayCounts | src/components/informes/Informes.tsx:134-135 | the sum of the totals over a list of days counts the events on those days |
| Informes.TotalsSumToEventCount | src/components/informes/Informes.tsx:123-160 | summed over all rows, the TOTAL column counts every unfiltered event exactly once |
| Informes.BuildTable | src/components/informes/Informes.tsx:111-160 | header = "Fecha", the distinct labels in first-seen order, then "TOTAL"; one row per distinct day; each cell counts that day's events for its column; the totals add up to the number of events |
| Informes.RowsFollowFirstSeenDay | src/components/informes/Informes.tsx:123-125 | rows follow first-seen day order, not date order: a later day seen first comes first |
| Informes.RangeFilterKeeps | src/components/informes/Informes.tsx:47-59 | with either bound missing every event is kept; otherwise an event is kept exactly when it lies between local midnight of the start day and the last millisecond of the end day; the order is kept |
| Informes.RangeStartDependsOnOffset | src/components/informes/Informes.tsx:52 | the start bound is local midnight of the calendar day that contains UTC midnight of the chosen date, which is the day before for offsets west of UTC |
| Informes.InformesScreen.constructor | src/components/informes/Informes.tsx:10-19 | initial state: no events, not loading, no error, status "pendiente", no dates |
| Informes.InformesScreen.CargarEventos | src/components/informes/Informes.tsx:21-45 | on success both event lists become the loaded events ("totales" is pending followed by managed); on failure the fixed message is set and the lists are kept; loading ends false |
| Informes.InformesScreen.SetStatus | src/components/informes/Informes.tsx:13-15 | setting the same status changes nothing; a new status reloads: on success both lists become what `Obtain` gives for it and the error is cleared, on failure both lists are kept and the fixed message is set; loading ends false and the dates are kept |
| Informes.InformesScreen.Tables | src/components/informes/Informes.tsx:107-160 | both tables are built from the unfiltered events: headers of the distinct labels, one row per distinct day in first-seen order, each cell the count of that day's events with that label, each row total the day's event count, and the totals adding up to the number of events |
| ClickStats.CountClick | src/components/dashboard/ClickStats.tsx:33-38 | a truthy source that is a key bumps its counter and the total, the key "total" thus counting twice; any other source leaves the entry unchanged; the keys never change |
| ClickStats.ClickData | src/components/dashboard/ClickStats.tsx:17-39 | the loop builds exactly the per-collective counters: one entry per collective in first-seen order, each counter counting that collective's rows from that source |
| ClickStats.ClickDataStep | src/components/dashboard/ClickStats.tsx:21-38 | one more row keeps the counter invariant: a fresh entry for a new collective, then the row applied |
| ClickStats.CountersOfNothing | src/components/dashboard/ClickStats.tsx:23-29 | a collective with no rows has the fresh all-zero entry |
| ClickStats.EntryCountsSources | src/components/dashboard/ClickStats.tsx:33-35 | each source counter counts the collective's rows from that source; the keys are the four sources and "total" |
| ClickStats.EntriesAreCollectives | src/components/dashboard/ClickStats.tsx:21-30 | a collective has an entry exactly when some row belongs to it, and no entry is listed twice |
| ClickStats.TotalIsSumOfSources | src/components/dashboard/ClickStats.tsx:35-37 | when no row has the source "total", an entry's total is the sum of its four source counters |
| ClickStats.TotalSourceCountsTwice | src/components/dashboard/ClickStats.tsx:33-37 | a row whose source is "total" passes the guard and adds 2 to the total with no source counted |
| ClickStats.AllTotalsAtMostRows | src/components/dashboard/ClickStats.tsx:17-39 | without such rows, the totals of all collectives add up to at most the number of rows |
| ConversionFunnel.FunnelData | src/components/dashboard/ConversionFunnel.tsx:13-27 | one stage per funnel name, in order, each valued by the number of rows with exactly that subject |
| ConversionFunnel.StageCounts | src/components/dashboard/ConversionFunnel.tsx:22 | the length of the filtered rows is that count |
| ConversionFunnel.FunnelSumAtMostRows | src/components/dashboard/ConversionFunnel.tsx:20-27 | the stage values add up to at most the number of rows |
| ConversionFunnel.OtherSubjectsIgnored | src/components/dashboard/ConversionFunnel.tsx:22 | a row whose subject is not a stage changes nothing |
| ConversionFunnel.EmptyFunnel | src/components/dashboard/ConversionFunnel.tsx:13-27 | no rows give the four stages at zero |
| GenerateData.RandomIndex | src/components/dataTable/generateData.ts:101-102 | a random draw in [0, 1) scaled and floored is a valid index |
| GenerateData.GenerateRandomClicks | src/components/dataTable/generateData.ts:14-16 | between 1 and 4 clicks |
| GenerateData.GenerateRandomDate | src/components/dataTable/generateData.ts:4-11 | a time in [2024-01-01, 2024-12-31) |
| GenerateData.GenerateClickSources | src/components/dataTable/generateData.ts:19-39 | as many clicks as asked (none for a non-positive count), click `i` being the source cycled `i` steps on from the first one |
| GenerateData.ClickSourcesCycle | src/components/dataTable/generateData.ts:25-36 | for a known first source the clicks run through the four sources from it, wrapping around |
| GenerateData.ClickSourcesUnknownFirst | src/components/dataTable/generateData.ts:25-36 | for an unknown first source the first click is undefined and the rest cycle from the first source |
| GenerateData.LeadClicks | src/components/dataTable/generateData.ts:79-81 | a lead has 1 to 4 clicks, the first one its own source |
| GenerateData.NewLead | src/components/dataTable/generateData.ts:84-93 | the pushed lead has the round's source and state, its collective, and the client code, e-mail and subject all numbered `n` |
| GenerateData.GenerateRound | src/components/dataTable/generateData.ts:78-96 | one pass over the collectives appends one lead per collective, in list order, and bumps each count by one |
| GenerateData.GenerateData | src/components/dataTable/generateData.ts:57-123 | 110 leads, lead `k` being round `k / 11` for collective `k % 11`, its client code, e-mail and subject numbered `k / 11 + 1`; every collective's count is 10 and equals its number of rows |
| GenerateData.AppendRandomLeads | src/components/dataTable/generateData.ts:100-120 | appends `max(extra, 0)` random leads and keeps the counts equal to the rows |
| GenerateData.ColectivosDistinct | src/components/dataTable/generateData.ts:42-54 | the eleven collectives are distinct |
| AnalyticsData.FilteredStatsDataKeeps | src/components/dashboard/AnalitycsData.tsx:18-32 | a row is kept exactly when it is not before the start, not after the end, and matches the selected collective, each check applying only when set; the order is kept |
| AnalyticsData.NoFilterKeepsAll | src/components/dashboard/AnalitycsData.tsx:19-31 | with nothing selected every row is shown |
| AnalyticsData.SelectedColectivoCount | src/components/dashboard/AnalitycsData.tsx:27-28 | selecting a collective shows exactly as many rows as it has |
| AnalyticsData.ColectivoOptionsDistinct | src/components/dashboard/AnalitycsData.tsx:35-38 | the options are exactly the collectives present, each once, in first-seen order |
| AnalyticsData.TodayRange | src/components/dashboard/AnalitycsData.tsx:47-51 | from local midnight to the last millisecond of the local day; contains now |
| AnalyticsData.YesterdayRange | src/components/dashboard/AnalitycsData.tsx:53-58 | a whole local day that ends before now |
| AnalyticsData.YesterdayIsTodayMovedBack | src/components/dashboard/AnalitycsData.tsx:53-58 | yesterday's range is today's moved back one day |
| AnalyticsData.Last7DaysRange | src/components/dashboard/AnalitycsData.tsx:60-66 | ends now and starts seven days earlier |
| AnalyticsData.LocalEndOfDayOfMidnight | src/components/dashboard/AnalitycsData.tsx:49-50 | setting 23:59:59.999 after setting midnight gives the end of the same day |
| AnalyticsData.AnalyticsFilters.constructor | src/components/dashboard/AnalitycsData.tsx:13-15 | nothing selected |
| AnalyticsData.AnalyticsFilters.SelectColectivo | src/components/dashboard/AnalitycsData.tsx:77-79 | sets only the collective |
| AnalyticsData.AnalyticsFilters.ClearDateFilters | src/components/dashboard/AnalitycsData.tsx:41-44 | clears both dates and keeps the collective |
| AnalyticsData.AnalyticsFilters.SetTodayRange | src/components/dashboard/AnalitycsData.tsx:47-51 | the dates become today's range |
| AnalyticsData.AnalyticsFilters.SetYesterdayRange | src/components/dashboard/AnalitycsData.tsx:53-58 | the dates become yesterday's range |
| AnalyticsData.AnalyticsFilters.SetLast7DaysRange | src/components/dashboard/AnalitycsData.tsx:60-66 | the dates become the last seven days |
| LineChart.PointOf | src/components/dashboard/LineChartComponent.tsx:21-24 | a point is the row's date with its number of clicks |
| LineChart.ChartPoints | src/components/dashboard/LineChartComponent.tsx:21-24 | one point per row, in order |
| LineChart.ByDateIsTotalPreorder | src/components/dashboard/LineChartComponent.tsx:27-29 | the date comparator is a consistent total preorder |
| LineChart.SortedChartDataIsSorting | src/components/dashboard/LineChartComponent.tsx:27-29 | the sorted points are a permutation of the points, in non-decreasing date order |
| LineChart.PointsComeFromRows | src/components/dashboard/LineChartComponent.tsx:21-29 | every plotted point comes from some row |
| LineChart.RowsArePlotted | src/components/dashboard/LineChartComponent.tsx:21-29 | every row is plotted |
| UserManagement.CreateUser | src/components/users/UserManagement.tsx:37-47 | the list grows by one user with id length+1 and the form's fields; earlier users are unchanged |
| UserManagement.EditUsers | src/components/users/UserManagement.tsx:30-46 | every user with the edited id is replaced, every other user is kept |
| UserManagement.EditKeepsIds | src/components/users/UserManagement.tsx:32-46 | editing keeps every id and changes only users carrying the edited id |
| UserManagement.EditIsIdempotent | src/components/users/UserManagement.tsx:46 | applying the same edit twice is applying it once |
| UserManagement.DeleteRemovesId | src/components/users/UserManagement.tsx:62-64 | a user remains exactly when present with another id; order is kept; the list shrinks by the number of users with that id |
| UserManagement.IdCollisionAfterDelete | src/components/users/UserManagement.tsx:38-63 | deleting user 1 from the initial list and creating a user gives two users with id 2 |
| UserManagement.UserManagementScreen.constructor | src/components/users/UserManagement.tsx:13-23 | the two initial users, the list tab, an empty form with the Editor role |
| UserManagement.UserManagementScreen.ResetForm | src/components/users/UserManagement.tsx:66-72 | empties the form and stops editing, keeps the users and the tab |
| UserManagement.UserManagementScreen.HandleCreateUser | src/components/users/UserManagement.tsx:26-52 | without a username, an e-mail, or a password when creating, nothing changes; otherwise the users are created or edited, the form is reset and the list tab shown |
| UserManagement.UserManagementScreen.HandleEditUser | src/components/users/UserManagement.tsx:54-60 | loads the user into the form (not the password) and shows the form tab |
| UserManagement.UserManagementScreen.HandleDeleteUser | src/components/users/UserManagement.tsx:62-64 | removes the users with that id and nothing else |
| UserManagement.UserManagementScreen.ShowList | src/components/users/UserManagement.tsx:80-84 | list tab with a reset form |
| UserManagement.UserManagementScreen.ShowForm | src/components/users/UserManagement.tsx:93-94 | form tab, everything else kept |
| UtilsDataTable.GenerateData | src/utils/DataTable.tsx:3-16 | 50 rows, row `i` numbered `i + 1`, "Activo" exactly on even rows and "Inactivo" exactly on odd ones |
| UtilsDataTable.NextSort | src/utils/DataTable.tsx:62-68 | sorts by the clicked column, descending exactly when it was already ascending on that column |
| UtilsDataTable.SortToggles | src/utils/DataTable.tsx:62-68 | clicking the same column twice flips the direction |
| UtilsDataTable.LeIsTotalPreorder | src/utils/DataTable.tsx:49-57 | the string comparator is a consistent total preorder in both directions |
| UtilsDataTable.SortedDataIsSorting | src/utils/DataTable.tsx:46-60 | without a sort the data is as is; otherwise a permutation ordered by the column, ascending or descending |
| UtilsDataTable.PageRows | src/utils/DataTable.tsx:102-103 | a page holds at most 25 rows, exactly the rows from `page * 25` onward, fewer on the last page and none past the end |
| UtilsDataTable.PageCount | src/utils/DataTable.tsx:141 | the number of pages is the length divided by 25, rounded up |
| UtilsDataTable.PagesCoverRows | src/utils/DataTable.tsx:102-145 | "next" is enabled exactly when another page exists; row `i` is at position `i % 25` of page `i / 25`; a page is non-empty exactly below the page count |
| UtilsDataTable.ValidPageIsNotEmpty | src/utils/DataTable.tsx:133-145 | a page reachable through the buttons is never empty |
| UtilsDataTable.LocalTable.constructor | src/utils/DataTable.tsx:19-44 | the 50 generated rows, no sort, the first page |
| UtilsDataTable.LocalTable.HandleSort | src/utils/DataTable.tsx:62-68 | updates only the sort configuration |
| UtilsDataTable.LocalTable.PreviousPage | src/utils/DataTable.tsx:70-134 | goes back one page, disabled on the first |
| UtilsDataTable.LocalTable.NextPage | src/utils/DataTable.tsx:70-145 | goes forward one page, disabled on the last |
| UtilsDataTable.LocalTable.HandleChangeStatus | src/utils/DataTable.tsx:74-78 | sets the state of row `index` of the unsorted data and changes nothing else |
| EventTable.FetchErrorMessage | src/components/dataTable/DataTable.tsx:45-49 | an `Error`'s message, otherwise the fixed unknown-error text |
| EventTable.RowOf | src/components/dataTable/DataTable.tsx:72-92 | nine cells: the date; seven text cells, cell `k` showing its own column's field when that is truthy and "N/A" when it is empty; and the button for the event's client code and subject |
| EventTable.TableRows | src/components/dataTable/DataTable.tsx:72-92 | one row per event, in order |
| EventTable.TextCellsShowFields | src/components/dataTable/DataTable.tsx:77-83 | for each of the seven text columns, the cell shows "N/A" exactly when its field is empty (or is itself "N/A"), and the field otherwise |
| EventTable.ViewOf | src/components/dataTable/DataTable.tsx:142-171 | the skeleton exactly while loading, then a non-empty error showing that error's text, otherwise the grid of the events' rows |
| EventTable.EmptyErrorMessageShowsGrid | src/components/dataTable/DataTable.tsx:45-146 | an `Error` with an empty message leaves the grid shown |
| EventTable.ButtonSelectsRowEvent | src/components/dataTable/DataTable.tsx:84-91 | the button of row `i` opens the popup for event `i` |
| EventTable.EventTableScreen.constructor | src/components/dataTable/DataTable.tsx:28-36 | no events, not loading, popup closed, tab "pendiente" |
| EventTable.EventTableScreen.FetchEvents | src/components/dataTable/DataTable.tsx:38-53 | on success the events are replaced; on failure the error message is set and the events kept; loading ends false |
| EventTable.EventTableScreen.Mount | src/components/dataTable/DataTable.tsx:55-57 | fetches the active tab: on success the events are replaced and the error cleared, on failure the events are kept and the failure's message set; loading ends false; the popup state is unchanged |
| EventTable.EventTableScreen.SelectTab | src/components/dataTable/DataTable.tsx:55-122 | the same tab changes nothing; a new tab becomes active and is fetched: on success the events are replaced and the error cleared, on failure the events are kept and the failure's message set; loading ends false; the popup state is unchanged |
| EventTable.EventTableScreen.Refresh | src/components/dataTable/DataTable.tsx:134 | refetches the active tab: on success the events are replaced and the error cleared, on failure the events are kept and the failure's message set; loading ends false; the popup state is unchanged |
| EventTable.EventTableScreen.OpenPopup | src/components/dataTable/DataTable.tsx:59-63 | selects the client and subject and opens the popup |
| EventTable.EventTableScreen.ClosePopup | src/components/dataTable/DataTable.tsx:65-182 | closes and unmounts the popup, clears the selection and refetches the active tab |
| Popup.NewestFirstIsTotalPreorder | src/components/dataTable/PopUpComponent.tsx:62-65 | the newest-first comparator is a consistent total preorder |
| Popup.ProcessEventData | src/components/dataTable/PopUpComponent.tsx:60-66 | sorts the given array in place, newest first, as a permutation that keeps equal dates in their old order, and returns that same array |
| Sorting.SortInPlace | src/components/dataTable/PopUpComponent.tsx:62-65 | the array ends as the stable insertion sort of its old contents, hence sorted by the comparator and a permutation of them |
| Popup.DetailErrorMessage | src/components/dataTable/PopUpComponent.tsx:48-51 | the response's message when present, otherwise the fixed text |
| Popup.ViewOf | src/components/dataTable/PopUpComponent.tsx:68-96 | the spinner exactly while loading; otherwise nothing exactly without details; with details, a truthy error replaces them and anything else shows them |
| Popup.MissingDataShowsNothingWithoutDetails | src/components/dataTable/PopUpComponent.tsx:33-68 | the missing-data error renders nothing on a fresh popup and replaces any earlier details |
| Popup.EventPopup.constructor | src/components/dataTable/PopUpComponent.tsx:26-28 | no details, loading, no error, and the props effect not yet run |
| Popup.EventPopup.FetchEventDetails | src/components/dataTable/PopUpComponent.tsx:32-55 | without both identifiers only the missing-data error is set; otherwise the details become the fetched events stably sorted newest first, or the failure's message is set; loading ends false |
| Popup.EventPopup.OnPropsChange | src/components/dataTable/PopUpComponent.tsx:57-58 | props equal to the effect's last run change nothing; otherwise they are recorded, and the effect fetches only when open with both identifiers; a fetch leaves the fetched events stably sorted newest first with no error, or the failure's message with the details kept |
| Plantillas.LatestStartFirstIsTotalPreorder | src/components/informes/Plantillas.tsx:20-24 | the comparator is a consistent total preorder |
| Plantillas.Datos | src/components/informes/Plantillas.tsx:42-46 | one grid row per template, in order: date, name, clicks |
| Plantillas.ViewOf | src/components/informes/Plantillas.tsx:38-39 | loading text first, then a non-empty error, then the grid |
| Plantillas.GridDatesDescend | src/components/informes/Plantillas.tsx:20-46 | after the sort, the grid's dates never increase |
| Plantillas.PlantillasScreen.constructor | src/components/informes/Plantillas.tsx:7-9 | no templates, not loading, no error |
| Plantillas.PlantillasScreen.CargarPlantillas | src/components/informes/Plantillas.tsx:12-33 | on success the templates are the response stably sorted newest first (a permutation); on failure the fixed message is set and the list kept; loading ends false |
| Dashboard.NavigationMembership | src/pages/Dashboard.tsx:59-61 | an item is in the menu exactly when it is a base item listing the user's role; order is kept |
| Dashboard.NavigationByRole | src/pages/Dashboard.tsx:19-61 | admin sees all four items; editor and viewer see Dashboard and LogOut; nobody else sees anything |
| Dashboard.Routes | src/pages/Dashboard.tsx:153-161 | "/" always; "/users" exactly for admin; "/informes" exactly for admin and editor |
| Dashboard.EditorReachesReportsWithoutLink | src/pages/Dashboard.tsx:36-160 | an editor has the reports route but no menu link to it |
| Dashboard.Split | src/pages/Dashboard.tsx:46-48 | splitting on spaces yields at least one piece |
| Dashboard.SplitJoin | src/pages/Dashboard.tsx:47 | joining words without spaces and splitting gives the words back |
| Dashboard.ClassNamesRoundTrip | src/pages/Dashboard.tsx:46-48 | when no class holds a space, the class string splits back into exactly the truthy classes, in order |
| Dashboard.DashboardShell.constructor | src/pages/Dashboard.tsx:54 | sidebar closed, nothing navigated |
| Dashboard.DashboardShell.HandleNavigationClick | src/pages/Dashboard.tsx:63-71 | "LogOut" logs out and goes to the login page, keeping the sidebar; any other item goes to its link and closes the sidebar |
| Dashboard.DashboardShell.OpenSidebar | src/pages/Dashboard.tsx:103 | the hamburger button opens the mobile menu; the navigation log and logout count are unchanged |
| Dashboard.DashboardShell.CloseSidebar | src/pages/Dashboard.tsx:109-126 | the menu's close button and the dialog's `onClose` close the mobile menu; the navigation log and logout count are unchanged |
| Auth.CheckCredentials | src/utils/auth.ts:7-18 | accepted exactly for admin/admin and user/user, with the username as the role |
| Auth.Login | src/utils/auth.ts:7-18 | true exactly for accepted credentials, which are stored under "user"; otherwise storage is unchanged |
| Auth.Logout | src/utils/auth.ts:21-23 | removes the "user" key and no other |
| Auth.LogoutIsIdempotent | src/utils/auth.ts:21-23 | logging out twice is logging out once |
| Auth.WrongPasswordRefused | src/utils/auth.ts:8-17 | a password other than the username is refused |
| Auth.LocalStorage.SetItem | src/utils/auth.ts:10 | the key maps to the value and every other key is unchanged |
| Auth.LocalStorage.RemoveItem | src/utils/auth.ts:22 | only the key is removed |
| AuthContext.LoginRole | src/utils/AuthContext.tsx:41 | the table's role for the username when truthy, otherwise "viewer"; never empty |
| AuthContext.RestoredRole | src/utils/AuthContext.tsx:29-30 | the table's role for the stored username, else the stored role, else "viewer" |
| AuthContext.LoginRecord | src/utils/AuthContext.tsx:42 | the record built on login has the role and no username |
| AuthContext.RoleAfterReload | src/utils/AuthContext.tsx:23-46 | after a reload the role is looked up under "undefined"; the login role survives exactly when that key has no truthy role |
| AuthContext.UseAuth | src/utils/AuthContext.tsx:9-15 | the context when provided, otherwise the fixed error |
| AuthContext.AuthProvider.constructor | src/utils/AuthContext.tsx:18-19 | nobody signed in, loading |
| AuthContext.AuthProvider.Restore | src/utils/AuthContext.tsx:23-34 | a stored user is signed in again with its role resolved anew; loading ends false |
| AuthContext.AuthProvider.Login | src/utils/AuthContext.tsx:37-49 | with accepted credentials, the user, the stored record and the result are the same role-only record; otherwise nothing changes and the result is none |
| AuthContext.AuthProvider.Logout | src/utils/AuthContext.tsx:52-56 | signs out, removes the stored user and goes to the login page |

## Left out

- Rendering, styling, icons, transitions and the chart and grid libraries are not modelled. The model keeps what is shown (cells, views, menus), not how it is drawn.
- Asynchrony is not modelled. Each request settles before the handler goes on, and only the final state of a handler is modelled, not its intermediate renders.
- React's re-rendering and `useMemo` caching are not modelled. Derived values are functions of the state.
- `console` logging is not modelled.
- Date formatting (`toLocaleString`, `toLocaleDateString`) is not modelled. Cells carry the millisecond value.
- JSON parsing of API responses and of stored records is not modelled. Storage holds parsed records.
- Local time uses one fixed UTC offset. Daylight-saving changes are not modelled, so `setDate(getDate() - 7)` is exactly seven days of milliseconds.
- Informes.GroupByDay: labels that name a property inherited from `Object.prototype` (such as "constructor" or "toString") are not modelled. In the source such a label finds the inherited value truthy, is never set to 0, and its `++` yields `NaN`. The model counts it like any other label.
- ClickStats.CountClick: a source that names a property inherited from `Object.prototype` (such as "toString") passes the source's `!== undefined` guard and corrupts that property and the total. The model treats it as an unknown source and leaves the entry unchanged.
- ClickStats.ClickData: a collective that names a property inherited from `Object.prototype` gets no entry of its own in the source, because the inherited value is truthy. The model gives it a fresh entry.
- ClickStats.ClickData: the cards are listed with `Object.entries`, which puts integer-like keys (such as "7") first in ascending order. The model's `order` is plain first-seen order, which is exact only when no collective is integer-like.
- GenerateData.GenerateRandomDate: `Math.random()` is an exact real in [0, 1) here. In double precision the product with the year's length can round up, so the source can return 2024-12-31 itself. The model's bound excludes it.
- Popup.DetailErrorMessage: the shipped API client rethrows every failure as a plain `Error`, which has no `response` (src/services/apiService.ts:93-97). Through that client the popup always shows the fixed text, and the branch that reads the response's message is unreachable. The model keeps that branch because the component handles it.
- Informes.NormalizeName: keys inherited from the object prototype (such as "constructor") are not modelled. Lower-casing is ASCII, which is exact for the synonym keys.
- The reports screen's filter panel toggle and its date inputs are plain state setters and are not modelled separately.
- The report tables group the unfiltered events. `eventosFiltrados` and its grouping are computed but not shown in the tables. The model keeps the range filter (`Informes.RangeFilter`) and proves its meaning on its own.
- GenerateData: `Math.random` is a parameter in [0, 1) where a value depends on it. The random clicks and dates of a lead are drawn but not pinned to particular values.
- GenerateData.AppendRandomLeads: the second loop's bound is 50 − 110, so it never runs. Its rows are specified only in shape.
- AnalyticsData.SetLast7DaysRange: the source reads the clock twice, which could give times one millisecond apart. The model uses one `now`.
- The dashboard's chart, cards and funnel receive their data from the analytics screen. Only the data each computes is modelled.
- UtilsDataTable.LocalTable.HandleChangeStatus: requires an index of the data. The page select passes the row's position on the visible (sorted) page, which the model does not translate. An index outside the data would throw in the source.
- UtilsDataTable.LocalTable.HandleChangeStatus: the source mutates the row objects it shares with the generated data. That aliasing is not modelled.
- UtilsDataTable: the unused `pageRows` slice of the generated data (src/utils/DataTable.tsx:34-37) is not modelled. `handleSort` is modelled for the six table columns only.
- UtilsDataTable.Le: compares strings by code point. JavaScript compares UTF-16 code units, and the two agree outside surrogate pairs.
- Popup: the popup's other buttons and its `fetchEvents` prop are not modelled. The prop is never called in the component.
- Popup.EventPopup.FetchEventDetails: a response without an `events` array makes the source's sort throw. That failure takes the generic error path, and the model folds it into a failed request.
- Dashboard.DashboardShell.HandleNavigationClick: it records the shell's own `navigate` call and counts `logout` calls. The provider's own navigation on logout is modelled in `AuthContext.AuthProvider.Logout`.
- src/utils/emailRoles is not part of this model. The e-mail role table is a parameter.
- Login page, private route and API client: these files are context, not core, and are not modelled.
