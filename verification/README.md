# JobHunter Pro dashboard — a Dafny model of its view logic

JobHunter Pro is a single-page React dashboard for an automated
job-application product. It has no backend. Every page holds in-memory
records (applications, templates, notifications, settings) and changes them
in event handlers. This project models those handlers as pure Dafny
functions over immutable datatypes and proves what each page promises.

The pages and components covered:

- **Application templates.** The filter-and-sort pipeline, duplicate, delete
  and save, the filter bar and its sort drop-down, the statistics cards, the
  editor (form, job types, placeholder insertion, stored preview), and the
  placeholder substitution of both preview dialogs.
- **Application history.** The five-stage filter, the export rows, the
  table (sort toggle, stable sort, selection), the salary text, notes, status
  badges, the summary header and the filter bar.
- **Job-search configuration.** Salary range, advanced filters, locations,
  categories, experience levels, the schedule with its next-run time, the
  page's section store, and the save/reset actions.
- **Analytics dashboard.** The CSV and report-text serialisers, the
  download file names, and the filter panel.
- **Header components.** Notifications, quick actions with their
  confirmation dialog, the status indicator, and the sidebar.
- **Profile management.** Personal information with its email pattern,
  documents, account settings, and job preferences.
- **Dashboard.** The recent-activity feed.

Timestamps are integer milliseconds of local time, and every day is 24 hours
long. The current time, fresh ids (`Date.now()`), random draws and browser
values (object URLs, formatted dates) are parameters. Translated texts are a
`Texts(en, es, fr)` triple, looked up with the dashboard's fallback chain:
the language, then English, then the key itself.

Shared modules:
- `Text`: trimming, lower-casing, substring search, decimal digits,
  `parseInt`, join and split, string order.
- `Seqs`: filter, count, sum, subsequence.
- `TagLists`: add-if-absent, remove-all, toggle.
- `Sorting`: the stable key sort.
- `Replace`: global literal replacement.
- `Numbers`: `Math.round` of a quotient.
- `Clock`: hours and days.
- `I18n`: the translation lookup.

The source repeats the same query logic in several pages, each with its own
rules. The model follows each page's own code rather than one unified
engine. The differences it proves are the salary text, the status fallbacks,
the relative-time buckets and the filter rules.

## Model

| member | source | states |
|---|---|---|
| I18n.GetText | src/pages/profile-management/components/AccountSettingsSection.jsx:145 | A key with no entry reads as itself; otherwise the current language's text, else the English text; a non-empty key never yields an empty text |
| I18n.UnknownLanguageReadsEnglish | src/pages/dashboard/components/ActivityFeed.jsx:123 | A stored language code other than en/es/fr reads exactly what English reads |
| I18n.TimeTextLanguage | src/components/ui/NotificationBadge.jsx:132-147 | The relative-time texts test only for "en" and "es"; every other code gets French |
| Text.Trim | src/pages/profile-management/components/PersonalInfoSection.jsx:127 | `trim()` yields a substring with no surrounding white space, empty exactly when the input is blank |
| Text.Lower | src/pages/application-templates/index.jsx:111 | `toLowerCase()` keeps the length and lowers each character independently |
| Text.LowerIdempotent | src/pages/application-history/index.jsx:273-277 | Lower-casing an already lower-cased text changes nothing, so comparing lowered search and lowered field is stable |
| Text.ParseInt | src/pages/profile-management/components/AccountSettingsSection.jsx:299 | `parseInt` of a blank text is NaN |
| Text.ParseIntOfIntToString | src/pages/profile-management/components/AccountSettingsSection.jsx:299 | Every integer written in decimal reads back as itself |
| Text.ParseIntOfDigits | src/pages/application-history/index.jsx:287 | Plain decimal digits read as their value |
| Text.NatToStringInjective | src/pages/application-history/index.jsx:361 | Different numbers are written differently in decimal |
| Text.SplitJoin | src/pages/application-templates/components/TemplateFilters.jsx:103 | Splitting the join of pieces free of the separator gives the pieces back |
| TagLists.AddIfAbsent | src/pages/job-search-configuration/components/LocationPreferencesSection.jsx:162-172 | Appends a new element at the end; an element already present leaves the list as it was |
| TagLists.RemoveAll | src/pages/job-search-configuration/components/AdvancedFiltersSection.jsx:256-263 | Every copy of the element goes; all other elements stay, in order |
| TagLists.Toggle | src/pages/job-search-configuration/components/AdvancedFiltersSection.jsx:265-274 | The element's membership flips and no other element's membership changes |
| TagLists.ToggleTwiceRestores | src/pages/job-search-configuration/components/JobCategoriesSection.jsx:142-149 | Toggling an absent element twice gives the list back exactly |
| TagLists.ToggleTwiceMovesToEnd | src/pages/job-search-configuration/components/ExperienceFiltersSection.jsx:105-112 | Toggling a present element twice moves its single copy to the end of the list |
| TagLists.ToggleKeepsOthers | src/pages/job-search-configuration/components/ExperienceFiltersSection.jsx:106-108 | With the toggled element taken out, the list before and after a toggle is identical, so other elements keep their relative order |
| TagLists.EditsKeepNoDuplicates | src/pages/job-search-configuration/components/AdvancedFiltersSection.jsx:245-274 | Add-if-absent, remove-all and toggle never put a duplicate into a duplicate-free list |
| Sorting.SortBy | src/pages/application-history/components/ApplicationTable.jsx:149-162 | The sorted view is a permutation of the input, ordered by the key in the chosen direction |
| Sorting.SortStable | src/pages/application-templates/index.jsx:188-192 | Elements sharing a key keep their input order in both directions, since the comparators return 0 on ties |
| Sorting.SortOfSorted | src/pages/application-templates/index.jsx:165-193 | A list already in order is left unchanged by the sort |
| Numbers.RoundDiv | src/pages/application-history/components/ApplicationSummaryHeader.jsx:17 | `Math.round(p / q)` is the nearest integer to p/q, with halves rounded up |
| Numbers.RoundDivBounds | src/pages/application-templates/components/TemplateStats.jsx:10-12 | A rounded quotient stays within any integer bounds of the exact quotient |
| Numbers.RoundDivExact | src/pages/application-history/components/ApplicationSummaryHeader.jsx:17 | An exact quotient is not changed by rounding |
| Clock.HourOf | src/pages/job-search-configuration/components/SchedulingSection.jsx:198-203 | `getHours()` lies in 0..23 and places the instant within that hour of its day |
| Clock.SetHours | src/pages/job-search-configuration/components/SchedulingSection.jsx:203 | `setHours(h, m, 0, 0)` is the day's midnight plus h hours and m minutes, overflow carried into later days |
| Clock.AddDays | src/pages/job-search-configuration/components/SchedulingSection.jsx:217 | `setDate(getDate() + n)` keeps the time of day and moves n whole days |
| Replace.ReplaceAllAbsent | src/pages/application-templates/components/TemplatePreview.jsx:20-29 | Text without the key comes through a global replacement unchanged |
| Replace.ReplaceAllLeavesNoKey | src/pages/application-templates/components/TemplatePreview.jsx:23-26 | Replacing every occurrence of a placeholder by a brace-free value leaves no occurrence of it, nor creates another placeholder |
| Replace.ApplyTableUnchanged | src/pages/application-templates/components/TemplatePreview.jsx:20-29 | Content holding none of the table's placeholders passes through the whole table unchanged |
| Replace.ApplyTableLeavesNoKey | src/pages/application-templates/components/TemplatePreview.jsx:8-29 | After the table is applied in order, no placeholder of a well-formed table is left in the text |
| Notifications.UnreadCount | src/components/ui/NotificationBadge.jsx:103 | The unread count is at most the list length and is zero exactly when every notification is read |
| Notifications.MarkOne | src/components/ui/NotificationBadge.jsx:150-154 | One entry is read afterwards exactly when it was read or carries the id; nothing else about it changes |
| Notifications.MarkAsRead | src/components/ui/NotificationBadge.jsx:150-154 | Entries with the id become read, every other entry is unchanged, and length and order are kept |
| Notifications.MarkAsReadIdempotent | src/components/ui/NotificationBadge.jsx:150-154 | Marking the same id twice is the same as marking it once |
| Notifications.UnreadAfterMarkAsRead | src/components/ui/NotificationBadge.jsx:103-154 | After marking an id, the unread count is the number of unread notifications with a different id |
| Notifications.MarkAllAsRead | src/components/ui/NotificationBadge.jsx:156-160 | Same length and order, every entry read, unread count zero |
| Notifications.ClearNotification | src/components/ui/NotificationBadge.jsx:162-164 | Exactly the entries with the id are removed; the rest keep their order |
| Notifications.Push | src/components/ui/NotificationBadge.jsx:96 | The new notification goes in front of at most nine old ones, so the list has min(old + 1, 10) entries |
| Notifications.PushBounded | src/components/ui/NotificationBadge.jsx:96 | However many notifications arrive, the list holds min(old + arrivals, 10) entries and never more than ten |
| Notifications.Arrive | src/components/ui/NotificationBadge.jsx:77-98 | When the draw succeeds, an unread notification with the fresh id and the current time is in front; otherwise the list is unchanged |
| Notifications.Badge | src/components/ui/NotificationBadge.jsx:177-180 | The badge is hidden at zero and shows "9+" above nine |
| Notifications.BadgeReadsBack | src/components/ui/NotificationBadge.jsx:177-180 | For 1..9 unread, the badge is one digit whose value is the count |
| Notifications.IconsDistinct | src/components/ui/NotificationBadge.jsx:105-113 | The four known kinds have four different icons, and only an unknown kind shows the bell |
| Notifications.FormatTimestamp | src/components/ui/NotificationBadge.jsx:125-148 | Under a minute the text is the language's "just now" |
| Notifications.MinutesAgo | src/components/ui/NotificationBadge.jsx:139-142 | From one minute to under an hour the English text counts whole minutes |
| Notifications.HoursAgo | src/components/ui/NotificationBadge.jsx:143-146 | From one hour to under a day the English text counts whole hours |
| Notifications.DaysAgo | src/components/ui/NotificationBadge.jsx:147-148 | From one day on, the English text counts whole days, with no upper bucket |
| Notifications.DayBuckets | src/components/ui/NotificationBadge.jsx:134-148 | From one day on, the elapsed time is past the minute and hour buckets, so the day count is what shows |
| Notifications.SampleNotifications | src/components/ui/NotificationBadge.jsx:23-73 | The initial list has two unread notifications, so the badge shows "2" |
| Automation.Execute | src/components/ui/QuickActions.jsx:94-124 | Pause and stop halt the automation, resume starts it, and with no remembered action the running state is kept; afterwards the dialog is closed, no action is remembered and nothing is loading |
| Automation.ToggleAutomation | src/components/ui/QuickActions.jsx:70-77 | A running automation opens the dialog to confirm a pause and keeps running; a stopped one resumes at once without a dialog |
| Automation.EmergencyStop | src/components/ui/QuickActions.jsx:89-92 | The emergency stop always opens the dialog for a stop and does not change the running state |
| Automation.Cancel | src/components/ui/QuickActions.jsx:162 | Cancel only closes the dialog; the running state and the remembered action stay |
| Automation.Confirm | src/components/ui/QuickActions.jsx:169 | Confirm runs the remembered action: the automation runs afterwards exactly for a resume, or when nothing was remembered and it was running |
| Automation.QuickSearch | src/components/ui/QuickActions.jsx:79-87 | The quick search only shows the spinner until it is done |
| Automation.DialogMessageKey | src/components/ui/QuickActions.jsx:129 | The dialog shows the stop warning exactly for a stop, and the pause warning otherwise |
| Automation.RunKeepsConsistent | src/components/ui/QuickActions.jsx:70-169 | Over any sequence of clicks, an open dialog always knows which action it confirms |
| Automation.PauseNeedsConfirmation | src/components/ui/QuickActions.jsx:70-74 | Pausing needs the toggle and a confirmation; cancelling instead leaves the automation running |
| Automation.ConfirmedStopHalts | src/components/ui/QuickActions.jsx:89-124 | A confirmed emergency stop halts the automation from any state, behind the stop warning |
| Automation.PauseThenResume | src/components/ui/QuickActions.jsx:70-124 | Pause, confirm, then toggle gives a running automation with no dialog |
| Automation.Tick | src/components/ui/StatusIndicator.jsx:23-43 | The refresh stamps the time; the biased branch gives active with 1..5 jobs; otherwise the drawn status, with jobs cleared only for paused; the valid-count invariant is kept |
| Automation.Click | src/components/ui/StatusIndicator.jsx:108-118 | Active becomes paused with no jobs, paused becomes active with 1..5 jobs, error stays as it is, and every click refreshes the time |
| Automation.ClickTwice | src/components/ui/StatusIndicator.jsx:108-118 | Two clicks bring an active indicator back to active, with the count of the second draw |
| Automation.ActiveWithNoJobs | src/components/ui/StatusIndicator.jsx:32-41 | An unbiased refresh that draws "active" after a pause shows an active automation running zero jobs |
| Automation.StatusConfig | src/components/ui/StatusIndicator.jsx:46-98 | Each of the three statuses has its icon and texts: play, pause, or the alert with "Requires attention" |
| Automation.StatusIconsDistinct | src/components/ui/StatusIndicator.jsx:46-98 | Different statuses show different icons |
| Automation.ActiveDescriptionReadsJobs | src/components/ui/StatusIndicator.jsx:56-60 | In every language the active description starts with the number of running jobs |
| Automation.ShownText | src/components/ui/StatusIndicator.jsx:127-157 | The indicator reads its texts by language code directly, so an unknown code shows nothing |
| Sidebar.ParentActiveIffChildPath | src/components/ui/Sidebar.jsx:82-92 | An entry counts as a parent of the page exactly when the non-empty current path is one of its children's paths |
| Sidebar.Navigate | src/components/ui/Sidebar.jsx:94-98 | Navigation happens only for a non-empty path, and then to that path |
| Sidebar.ClickItem | src/components/ui/Sidebar.jsx:111-117 | A group opens or closes and goes nowhere; any other entry keeps its flag and goes to its own path |
| Sidebar.SyncExpanded | src/components/ui/Sidebar.jsx:101-109 | A path change opens a group whose child is active and never closes a group |
| Sidebar.HighlightOf | src/components/ui/Sidebar.jsx:122-128 | An entry is highlighted as active exactly on its own path; a top-level entry is highlighted as parent exactly when one of its children is active instead |
| Sidebar.TopHighlightedIffOwnPath | src/components/ui/Sidebar.jsx:82-127 | On a real page a top-level entry stands out exactly when the page is its own path or one of its children's |
| Sidebar.HighlightCount | src/components/ui/Sidebar.jsx:82-128 | In a tree that leads to each page once, a page of the tree highlights exactly one top-level entry, and any other page highlights none |
| Sidebar.ExactlyOneHighlighted | src/components/ui/Sidebar.jsx:23-128 | On each of the six pages of the navigation tree, exactly one top-level entry stands out |
| Sidebar.SidebarPathsDistinct | src/components/ui/Sidebar.jsx:23-80 | The six paths of the navigation tree are distinct, non-empty and different from "/" |
| Sidebar.RootHighlightsNothing | src/components/ui/Sidebar.jsx:82-85 | On "/" no entry of the sidebar is highlighted |
| Sidebar.GroupOpenOnChildPage | src/components/ui/Sidebar.jsx:101 | A group first drawn on a child's page starts open, and lists its children unless the sidebar is collapsed |
| Sidebar.GroupClickTwice | src/components/ui/Sidebar.jsx:111-114 | Clicking a group twice restores its flag and never navigates |
| Sidebar.MobileItems | src/components/ui/Sidebar.jsx:231 | The bottom bar lists exactly the entries without a children field |
| Sidebar.MobileBar | src/components/ui/Sidebar.jsx:231-235 | On small screens the bottom bar holds the dashboard and the profile entries, and each goes to its page |
| Activity.StatusBadge | src/pages/dashboard/components/ActivityFeed.jsx:126-146 | A status other than viewed, interview or rejected gets the submitted badge |
| Activity.ActivityIcon | src/pages/dashboard/components/ActivityFeed.jsx:148-150 | The icon is the document exactly for applications, and the message icon otherwise |
| Activity.OfferShowsRawKey | src/pages/dashboard/components/ActivityFeed.jsx:80-146 | An offer is drawn with the submitted badge and captioned "offer", since the feed has no text for it |
| Activity.FeedTimestamp | src/pages/dashboard/components/ActivityFeed.jsx:152-170 | Under a minute the text is the language's "just now" |
| Activity.SameAsNotificationsBelowADay | src/pages/dashboard/components/ActivityFeed.jsx:152-170 | Under a day the feed and the notification list word the elapsed time identically, in every language |
| Activity.HoursPastADay | src/pages/dashboard/components/ActivityFeed.jsx:165-168 | From a day on, the feed keeps counting hours; there is no day bucket |
| Activity.SampleActivities | src/pages/dashboard/components/ActivityFeed.jsx:21-77 | The six sample entries have ids 1..6, lie in the past, and are newest first |
| Applications.FilterApplications | src/pages/application-history/index.jsx:268-318 | The listed applications are input applications passing all five filters, and every such application is listed |
| Applications.FilterIsConjunction | src/pages/application-history/index.jsx:269-317 | The five filters in sequence equal one filter by their conjunction: an order-preserving subsequence of the input |
| Applications.DefaultFiltersShowAll | src/pages/application-history/components/ApplicationFilters.jsx:7-13 | With the filter bar's initial values every application is listed, in order |
| Applications.DateRangesNested | src/pages/application-history/index.jsx:286-290 | An application within the last 7 days is within the last 30, and one within 30 is within 90 |
| Applications.RangeReads | src/pages/application-history/index.jsx:286-290 | A range of plain digits keeps exactly the applications applied at most that many days before now |
| Applications.UnreadableRangeHidesAll | src/pages/application-history/index.jsx:286-290 | A date range `parseInt` cannot read (empty, or starting with neither white space, a sign nor a digit) hides every application |
| Applications.UnknownCategoryHidesAll | src/pages/application-history/index.jsx:301-307 | A category without keywords hides every application |
| Applications.HtmlPositionIsAiMl | src/pages/application-history/index.jsx:294-305 | Keywords match anywhere in the position, so "HTML Developer" is listed under AI/ML |
| Applications.ExportRows | src/pages/application-history/index.jsx:356-363 | One row per listed application in list order, each row the export of the application at the same position (salary text included), with notes present exactly when they are included |
| Applications.ExportRowOf | src/pages/application-history/index.jsx:356-363 | A row carries the application's company, position, status and applied date, its salary range as the "$<min>k - $<max>k" text, and its notes joined by "; " exactly when notes are included |
| Applications.ExportSalary | src/pages/application-history/index.jsx:361 | The exported salary text starts with "$", ends with "k" and is at least seven characters long (the parts are stated by the next row) |
| Applications.ExportSalaryParts | src/pages/application-history/index.jsx:361 | The exported salary is "$", then the minimum, then "k - $", the maximum and "k" |
| Applications.ExportSalaryInjective | src/pages/application-history/index.jsx:361 | Two salary ranges export to the same text only when they are equal |
| Applications.ClickHeader | src/pages/application-history/components/ApplicationTable.jsx:141-147 | A header click sorts by that column, descending exactly when it was already ascending on that column |
| Applications.ClickTwice | src/pages/application-history/components/ApplicationTable.jsx:141-147 | Clicking one column twice ends ascending unless it started ascending on it; three clicks equal one |
| Applications.SortedApplications | src/pages/application-history/components/ApplicationTable.jsx:149-162 | The table shows a permutation of the applications ordered by the chosen column and direction |
| Applications.TableKeysCompare | src/pages/application-history/components/ApplicationTable.jsx:149-162 | Company, position and status compare with letter case ignored; the date column orders by the timestamp |
| Applications.TableSortStable | src/pages/application-history/components/ApplicationTable.jsx:149-162 | Rows with the same sort value keep their list order |
| Applications.SelectAll | src/pages/application-history/components/ApplicationTable.jsx:165-171 | The header checkbox clears a selection as long as the list and otherwise selects every id |
| Applications.SelectApplication | src/pages/application-history/components/ApplicationTable.jsx:173-179 | A row checkbox flips that id's membership: an unticked id is appended at the end, a ticked id leaves, and the other ids keep their order |
| Applications.SelectApplicationTwice | src/pages/application-history/components/ApplicationTable.jsx:173-179 | Ticking an unticked row and unticking it gives the selection back |
| Applications.SelectAllTwice | src/pages/application-history/components/ApplicationTable.jsx:165-171 | From an empty selection, the header checkbox selects every row and a second click clears them |
| Applications.HeaderCheckedCountsOnly | src/pages/application-history/components/ApplicationTable.jsx:245 | The header checkbox compares lengths only: a selection of other ids of the right number shows as checked |
| Applications.FormatSalary | src/pages/application-history/components/ApplicationTable.jsx:134-139 | "Not specified" when both bounds are missing or 0, both bounds when both are set, "k+" for a minimum only, "Up to" for a maximum only |
| Applications.FormatSalaryMatchesExport | src/pages/application-history/components/ApplicationListItem.jsx:140-145 | With the default "$", the list's text for a full range is the export's salary text |
| Applications.SaveNote | src/pages/application-history/components/ApplicationListItem.jsx:149-155 | A blank note changes nothing; otherwise the trimmed, non-empty note is passed on for the application and the dialog is cleared and closed |
| Applications.StatusConfigOf | src/pages/application-history/components/ApplicationListItem.jsx:77-125 | Exactly the statuses other than viewed, interview, rejected and offer fall back to the submitted badge |
| Applications.StatusIconsDistinct | src/pages/application-history/components/ApplicationTable.jsx:71-120 | The five known statuses have five different icons |
| Applications.Summarize | src/pages/application-history/components/ApplicationSummaryHeader.jsx:13-17 | Total is the list length, pending and interviews count the applications in those states; the rate is 100 times the responded share rounded half up, and 0 for an empty list |
| Applications.RespondedAreNotSubmitted | src/pages/application-history/components/ApplicationSummaryHeader.jsx:16 | The applications that responded are exactly the total minus those still submitted |
| Applications.ResponseRateBounds | src/pages/application-history/components/ApplicationSummaryHeader.jsx:16-17 | The response rate lies in 0..100 |
| Applications.PendingAndInterviewsDisjoint | src/pages/application-history/components/ApplicationSummaryHeader.jsx:14-15 | Pending and interviews never overlap, so together they are at most the total |
| Applications.SummaryNoneResponded | src/pages/application-history/components/ApplicationSummaryHeader.jsx:16-17 | With every application still submitted, the rate is 0 |
| Applications.SummaryAllResponded | src/pages/application-history/components/ApplicationSummaryHeader.jsx:16-17 | With every application past submitted, the rate is 100 |
| Applications.ChangeFilter | src/pages/application-history/components/ApplicationFilters.jsx:121-123 | Only the named filter takes the new value |
| Applications.ClearAllFilters | src/pages/application-history/components/ApplicationFilters.jsx:125-135 | Clearing restores the initial values, which count as inactive |
| Applications.InactiveFiltersShowAll | src/pages/application-history/components/ApplicationFilters.jsx:135 | A filter bar that looks inactive hides nothing, when the selects hold values and the text boxes do not hold "all" |
| Applications.SearchForAllLooksInactive | src/pages/application-history/components/ApplicationFilters.jsx:135 | Typing "all" in the search box filters the list but does not count as an active filter |
| Applications.SettingAFilterActivates | src/pages/application-history/components/ApplicationFilters.jsx:135 | Setting any one filter to a value that is neither empty nor "all" makes the filter bar active, whatever the others hold |
| Templates.Query | src/pages/application-templates/index.jsx:105-196 | The visible list is a permutation of the staged filter's output, sorted by the chosen key and direction |
| Templates.StagesAreConjunction | src/pages/application-templates/index.jsx:106-162 | The staged filters equal one filter by their conjunction |
| Templates.QueryShowsVisible | src/pages/application-templates/index.jsx:106-193 | The page shows exactly the input templates passing every active filter |
| Templates.QueryStable | src/pages/application-templates/index.jsx:188-192 | Templates with equal sort keys keep their input order |
| Templates.DefaultQueryShowsAll | src/pages/application-templates/index.jsx:22-29 | The initial query hides no template |
| Templates.PerformanceBucketsPartition | src/pages/application-templates/index.jsx:129-144 | High (over 20), medium (10 to 20) and low (under 10) split all templates into three disjoint parts |
| Templates.UsageBucketsPartition | src/pages/application-templates/index.jsx:147-162 | Frequent (over 10), occasional (1 to 10) and unused (0) split the templates; unused means the same in both filters |
| Templates.Duplicate | src/pages/application-templates/index.jsx:213-225 | A copy with the fresh id, the name plus " (Copy)", the current time, no usage, rate 0 and not default goes in front of the unchanged list |
| Templates.Delete | src/pages/application-templates/index.jsx:232-237 | Exactly the templates with the id are removed; the rest keep their order |
| Templates.PreviewOf | src/pages/application-templates/components/TemplateEditor.jsx:99 | The stored preview is the first 150 characters of the content followed by "..." |
| Templates.ApplyForm | src/pages/application-templates/components/TemplateEditor.jsx:95-100 | The saved record takes the form's fields over the template's, keeps id, usage, rate and creation time, and stamps the time and preview |
| Templates.NewTemplate | src/pages/application-templates/index.jsx:255-261 | A created template has the fresh id, the creation time, no usage and rate 0 |
| Templates.SaveTemplate | src/pages/application-templates/index.jsx:247-264 | An edit keeps the list length; a creation puts the new template in front of the unchanged list |
| Templates.EditKeepsOthers | src/pages/application-templates/index.jsx:249-252 | An edit keeps every id in place, leaves other templates unchanged, and gives the matching ones the form's content |
| Templates.CreateThenDelete | src/pages/application-templates/index.jsx:237-264 | Deleting a freshly created template gives the old list back |
| Templates.DuplicateThenDelete | src/pages/application-templates/index.jsx:213-237 | Deleting a fresh duplicate gives the old list back |
| Templates.DeleteAbsent | src/pages/application-templates/index.jsx:237 | Deleting an id no template has changes nothing |
| Templates.ChangeFilter | src/pages/application-templates/components/TemplateFilters.jsx:16-20 | Only the named filter takes the new value; the sort is kept |
| Templates.ChangeSort | src/pages/application-templates/components/TemplateFilters.jsx:22-26 | The sort field is set, the order is the given one or else the current one, and which templates are visible does not change |
| Templates.ClearFilters | src/pages/application-templates/components/TemplateFilters.jsx:28-38 | Clearing gives the default query, which counts as inactive |
| Templates.PerformanceFilterNotActive | src/pages/application-templates/components/TemplateFilters.jsx:40 | A performance filter alone does not make the filters count as active |
| Templates.TextFilterActivates | src/pages/application-templates/components/TemplateFilters.jsx:40 | A non-empty search or a type or job-type filter other than "all" makes the filters active, whatever else is set |
| Templates.InactiveMeansNoTextFilters | src/pages/application-templates/components/TemplateFilters.jsx:40 | When the filters look inactive, only the performance and usage filters can still hide a template |
| Templates.ParseSortOption | src/pages/application-templates/components/TemplateFilters.jsx:102-103 | A value without a dash reads as a field with no order; a value with a dash always carries an order |
| Templates.SelectSortOption | src/pages/application-templates/components/TemplateFilters.jsx:22-26 | Picking a value sets the field it names, keeps the current order when the value has no order part, and leaves which templates are visible unchanged |
| Templates.SelectOfferedOption | src/pages/application-templates/components/TemplateFilters.jsx:100-113 | Picking any offered "<field>-<order>" option sets exactly that field and that order |
| Templates.SortOptionRoundTrip | src/pages/application-templates/components/TemplateFilters.jsx:100-113 | Every "<field>-<order>" option splits back into the field and the order it encodes, the order present |
| Templates.NamesReadBack | src/pages/application-templates/components/TemplateFilters.jsx:100-113 | Field and order names contain no dash and each reads back as the field or order it names |
| Templates.Stats | src/pages/application-templates/components/TemplateStats.jsx:5-15 | Total is the length; cover letters, resumes, defaults and high performers (rate above 20) are the sizes of those sublists; total applications is the sum of usage counts; the average is the rounded mean rate, 0 for an empty list |
| Templates.StatsAppend | src/pages/application-templates/components/TemplateStats.jsx:5-15 | Adding one template adds one to the total, its usage to the applications total, and one to each count whose test it passes |
| Templates.StatsCountsConsistent | src/pages/application-templates/components/TemplateStats.jsx:6-14 | Cover letters plus resumes are all the templates; defaults and high performers never exceed the total |
| Templates.StatsAverageInRange | src/pages/application-templates/components/TemplateStats.jsx:10-12 | With rates that are percentages, the rounded average is a percentage and the application total is non-negative |
| Templates.StatsAverageOfEqualRates | src/pages/application-templates/components/TemplateStats.jsx:10-12 | When every template has the same rate, the average is that rate |
| TemplateEditor.FormFor | src/pages/application-templates/components/TemplateEditor.jsx:17-35 | The form holds the template's fields, or the empty cover-letter form when there is no template |
| TemplateEditor.SaveUneditedForm | src/pages/application-templates/components/TemplateEditor.jsx:17-100 | Saving an opened, unedited form changes only the modification time and the preview |
| TemplateEditor.ChangeForm | src/pages/application-templates/components/TemplateEditor.jsx:57-62 | Only the named field changes |
| TemplateEditor.ToggleJobType | src/pages/application-templates/components/TemplateEditor.jsx:64-71 | The job type's membership flips: an unselected type is appended at the end, a selected one leaves, the other types keep their order and the other fields stay |
| TemplateEditor.ToggleJobTypeTwice | src/pages/application-templates/components/TemplateEditor.jsx:64-71 | Checking and unchecking a job type gives the form back |
| TemplateEditor.InsertAtSelection | src/pages/application-templates/components/TemplateEditor.jsx:73-88 | The new content is the text before the selection, the placeholder, then the text after it |
| TemplateEditor.InsertAtCaret | src/pages/application-templates/components/TemplateEditor.jsx:73-88 | At a caret the content grows by the placeholder's length, the placeholder sits at the caret, and the text around it is kept |
| TemplateEditor.EditorSamples | src/pages/application-templates/components/TemplateEditor.jsx:109-125 | The editor's sample table has one entry for each of the nine placeholders, in order |
| TemplateEditor.PreviewSamples | src/pages/application-templates/components/TemplatePreview.jsx:8-19 | The dialog's sample table has one entry for each of the nine placeholders, in order |
| TemplateEditor.NineKeyTable | src/pages/application-templates/components/TemplatePreview.jsx:20-29 | A table over the nine keys passes placeholder-free text through unchanged and, when well formed, leaves none of the nine |
| TemplateEditor.EditorPreview | src/pages/application-templates/components/TemplateEditor.jsx:109-126 | The editor's preview shows placeholder-free text as typed, and with a brace-free date fills every placeholder |
| TemplateEditor.DialogPreview | src/pages/application-templates/components/TemplatePreview.jsx:8-29 | The preview dialog shows placeholder-free text as typed, and with a brace-free date fills every placeholder |
| TemplateEditor.EditorTableWellFormed | src/pages/application-templates/components/TemplateEditor.jsx:109-125 | With a brace-free date, the editor's sample values hold no braces, so no substitution creates a placeholder |
| TemplateEditor.DialogTableWellFormed | src/pages/application-templates/components/TemplatePreview.jsx:8-19 | With a brace-free date, the dialog's sample values hold no braces, so no substitution creates a placeholder |
| TemplateEditor.KeysArePlaceholders | src/pages/application-templates/components/TemplateEditor.jsx:37-47 | Each of the nine keys is a double-braced name of capitals and underscores |
| TemplateEditor.EditorPreviewFillsAll | src/pages/application-templates/components/TemplateEditor.jsx:109-126 | With a brace-free date, the editor's preview holds none of the nine placeholders |
| TemplateEditor.DialogPreviewFillsAll | src/pages/application-templates/components/TemplatePreview.jsx:8-29 | With a brace-free date, the preview dialog holds none of the nine placeholders |
| TemplateEditor.PreviewOfPlainText | src/pages/application-templates/components/TemplatePreview.jsx:20-29 | Content without placeholders is previewed verbatim by both dialogs |
| TemplateEditor.EmptyDateKeepsDateKey | src/pages/application-templates/components/TemplateEditor.jsx:123 | An empty sample value falls back to the key, so the date placeholder stays standing |
| TemplateEditor.JobTypeColor | src/pages/application-templates/components/TemplatePreview.jsx:42-52 | An unknown job type gets the general grey |
| TemplateEditor.JobTypeColorsDistinct | src/pages/application-templates/components/TemplatePreview.jsx:42-52 | The five known job types get five different colours |
| TemplateEditor.KnownJobTypeNotGrey | src/pages/application-templates/components/TemplatePreview.jsx:42-52 | Only an unknown job type is drawn in grey |
| TemplateEditor.ReplaceFirstHyphen | src/pages/application-templates/components/TemplatePreview.jsx:128 | `replace('-', ' ')` keeps the length and every other character, and removes exactly one hyphen when there is one |
| TemplateEditor.CapitalizeWordsSpec | src/pages/application-templates/components/TemplatePreview.jsx:128 | A character starting a word is not lower-case afterwards, any other keeps its case, and letters only change case |
| TemplateEditor.JobTypeLabel | src/pages/application-templates/components/TemplatePreview.jsx:128 | A job-type label is as long as the job type |
| TemplateEditor.LabelOnlyRecases | src/pages/application-templates/components/TemplatePreview.jsx:128 | A job-type label differs from the type, with its first hyphen made a space, only in letter case |
| Salary.EntryWithinRange | src/pages/job-search-configuration/components/SalaryRangeSection.jsx:34-51 | Every entry pair of the table lies inside its slider range, in order |
| Salary.EntryLevel | src/pages/job-search-configuration/components/SalaryRangeSection.jsx:177-186 | Resetting to entry level gives ordered bounds inside the current slider, and keeps currency, type and the negotiable flag |
| Salary.ChangeCurrency | src/pages/job-search-configuration/components/SalaryRangeSection.jsx:122-132 | A new currency resets the bounds to its entry pair for the current salary type |
| Salary.ChangeSalaryType | src/pages/job-search-configuration/components/SalaryRangeSection.jsx:134-144 | A new salary type resets the bounds to its entry pair for the current currency |
| Salary.SetMin | src/pages/job-search-configuration/components/SalaryRangeSection.jsx:146-155 | The minimum takes the value and the maximum becomes the larger of the value and the old maximum, so min <= max |
| Salary.SetMax | src/pages/job-search-configuration/components/SalaryRangeSection.jsx:157-166 | The maximum takes the value and the minimum becomes the smaller of the value and the old minimum, so min <= max |
| Salary.SlidersKeepWithin | src/pages/job-search-configuration/components/SalaryRangeSection.jsx:146-166 | A slider value inside the range keeps both bounds inside it |
| Salary.SetMinUndo | src/pages/job-search-configuration/components/SalaryRangeSection.jsx:146-155 | Moving the minimum up to at most the maximum and back restores the settings |
| Salary.ToggleNegotiable | src/pages/job-search-configuration/components/SalaryRangeSection.jsx:168-175 | Only the negotiable flag flips |
| Salary.InitialIsEntryLevel | src/pages/job-search-configuration/components/SalaryRangeSection.jsx:7-13 | The initial settings are USD's annual entry pair |
| SearchFilters.With | src/pages/job-search-configuration/components/AdvancedFiltersSection.jsx:247-249 | The named list is replaced and every other list is kept |
| SearchFilters.AddItem | src/pages/job-search-configuration/components/AdvancedFiltersSection.jsx:245-254 | An item is appended and reported exactly when it is non-empty and not yet listed; otherwise nothing changes; other lists are kept |
| SearchFilters.RemoveItem | src/pages/job-search-configuration/components/AdvancedFiltersSection.jsx:256-263 | Every copy of the item leaves the named list; other items and lists stay |
| SearchFilters.ToggleItem | src/pages/job-search-configuration/components/AdvancedFiltersSection.jsx:265-274 | The item's membership flips in the named list: an absent item is appended at the end, a present one leaves, the other items keep their order; the other lists stay |
| SearchFilters.ToggleItemTwice | src/pages/job-search-configuration/components/AdvancedFiltersSection.jsx:265-274 | Toggling an absent item twice gives the filters back |
| SearchFilters.AddThenRemove | src/pages/job-search-configuration/components/AdvancedFiltersSection.jsx:245-263 | Adding a new item and removing it gives the filters back |
| SearchFilters.EditsKeepListsDuplicateFree | src/pages/job-search-configuration/components/AdvancedFiltersSection.jsx:245-274 | None of the three edits puts a duplicate into a duplicate-free list |
| SearchFilters.EnterAddsBlankKeyword | src/pages/job-search-configuration/components/AdvancedFiltersSection.jsx:304-316 | The Enter key's add accepts a keyword that is only a space, although it is blank |
| SearchFilters.SetSearchType | src/pages/job-search-configuration/components/LocationPreferencesSection.jsx:150-154 | Only the search type changes |
| SearchFilters.SetRadius | src/pages/job-search-configuration/components/LocationPreferencesSection.jsx:156-160 | Only the radius changes |
| SearchFilters.AddLocation | src/pages/job-search-configuration/components/LocationPreferencesSection.jsx:162-172 | A non-empty new location is appended and the text box cleared; an empty or listed one changes nothing |
| SearchFilters.RemoveLocation | src/pages/job-search-configuration/components/LocationPreferencesSection.jsx:174-181 | Every equal entry is removed and no other field changes |
| SearchFilters.PopularButtonsMatchAdd | src/pages/job-search-configuration/components/LocationPreferencesSection.jsx:284 | A popular-location button is disabled exactly when adding that location would change nothing |
| SearchFilters.ToggleCategory | src/pages/job-search-configuration/components/JobCategoriesSection.jsx:142-149 | The category's membership flips: an unselected category is appended at the end, a selected one leaves, and the other categories keep their order |
| SearchFilters.ToggleCategoryTwice | src/pages/job-search-configuration/components/JobCategoriesSection.jsx:142-149 | Ticking an unselected category and unticking it gives the selection back |
| SearchFilters.SelectAllCategories | src/pages/job-search-configuration/components/JobCategoriesSection.jsx:151-155 | Select-all gives the six category ids, each once |
| SearchFilters.ClearAllCategories | src/pages/job-search-configuration/components/JobCategoriesSection.jsx:157-160 | Clear-all gives the empty selection |
| SearchFilters.SelectedLabel | src/pages/job-search-configuration/components/JobCategoriesSection.jsx:178 | The header reads back, with `parseInt`, as the number of selected categories, and ends in " selected" |
| SearchFilters.CategoryTogglesFromEmpty | src/pages/job-search-configuration/components/JobCategoriesSection.jsx:142-178 | After clearing, one toggle selects just that category and a second clears it; select-all shows "6 selected" |
| SearchFilters.ToggleExperience | src/pages/job-search-configuration/components/ExperienceFiltersSection.jsx:105-112 | The level's membership flips and all other levels keep their relative order |
| SearchFilters.RecommendedAreInitial | src/pages/job-search-configuration/components/ExperienceFiltersSection.jsx:6-153 | The Recommended badge shows exactly on the levels selected at first |
| Scheduling.SetInterval | src/pages/job-search-configuration/components/SchedulingSection.jsx:167-171 | Only the interval changes |
| Scheduling.SetCustomHours | src/pages/job-search-configuration/components/SchedulingSection.jsx:173-177 | Only the custom hours change |
| Scheduling.SetTime | src/pages/job-search-configuration/components/SchedulingSection.jsx:179-183 | Only the named time field changes |
| Scheduling.FlipSwitch | src/pages/job-search-configuration/components/SchedulingSection.jsx:185-189 | Only the named switch flips |
| Scheduling.FlipSwitchTwice | src/pages/job-search-configuration/components/SchedulingSection.jsx:185-189 | Flipping a switch twice gives the settings back |
| Scheduling.SetMaxApplications | src/pages/job-search-configuration/components/SchedulingSection.jsx:191-195 | Only the daily maximum changes |
| Scheduling.ParseTimeOfTimeInput | src/pages/job-search-configuration/components/SchedulingSection.jsx:214-215 | Every "HH:MM" a time input produces reads back as its hour and minute |
| Scheduling.Every6HoursAsWritten | src/pages/job-search-configuration/components/SchedulingSection.jsx:205-212 | The six-hourly next run as written lands between today's and the day after tomorrow's midnight |
| Scheduling.Every6HoursAsWrittenInThePast | src/pages/job-search-configuration/components/SchedulingSection.jsx:206-207 | As written, on an hour that is a multiple of 6 the next run is not after now, and strictly before it past the full hour |
| Scheduling.Every6HoursAsWrittenSkipsADay | src/pages/job-search-configuration/components/SchedulingSection.jsx:207-211 | As written, from 19:00 on, the next run is the midnight after tomorrow, more than a day away |
| Scheduling.NextSixHourMark | src/pages/job-search-configuration/components/SchedulingSection.jsx:205-212 | Corrected: the next run is the first multiple of six hours strictly after now, at most six hours away |
| Scheduling.NextSixHourMarkHours | src/pages/job-search-configuration/components/SchedulingSection.jsx:205-212 | The corrected run lands at 00:00, 06:00, 12:00 or 18:00 |
| Scheduling.NextRunAsWritten | src/pages/job-search-configuration/components/SchedulingSection.jsx:197-224 | As written, the six-hourly run is the rounded-up hour of the component's own arithmetic; every other interval is computed exactly as in the corrected version |
| Scheduling.NextRunAsWrittenDiffers | src/pages/job-search-configuration/components/SchedulingSection.jsx:205-212 | From 19:00 on, the six-hourly run as written is more than six hours away, so it differs from the corrected run |
| Scheduling.NextRun | src/pages/job-search-configuration/components/SchedulingSection.jsx:197-224 | Corrected: hourly runs within the next hour, six-hourly within six hours, daily after now whenever the start time reads, custom at the hour plus the custom hours, anything else now |
| Scheduling.DailyWithinADay | src/pages/job-search-configuration/components/SchedulingSection.jsx:213-219 | A daily run at a valid time is within the coming 24 hours, at that time of day |
| Scheduling.CustomWithinInterval | src/pages/job-search-configuration/components/SchedulingSection.jsx:220-222 | A custom interval of at least one hour runs after now and within that many hours |
| Configuration.InitialConfig | src/pages/job-search-configuration/index.jsx:16-40 | The page starts with six sections: categories, experience, location, salary, schedule and filters |
| Configuration.ChangeSection | src/pages/job-search-configuration/index.jsx:70-76 | The section takes the reported value, every other section is kept, and the page has changes |
| Configuration.SavePage | src/pages/job-search-configuration/index.jsx:78-82 | Saving keeps the configuration and clears the changes flag |
| Configuration.ResetPage | src/pages/job-search-configuration/index.jsx:89-116 | Reset restores the initial configuration and clears the changes flag |
| Configuration.SameValueStillChanges | src/pages/job-search-configuration/index.jsx:70-76 | Reporting a section's current value again keeps the configuration but still marks the page as changed |
| Configuration.SectionChangesCommute | src/pages/job-search-configuration/index.jsx:70-76 | Changes to two different sections commute |
| Configuration.StartSave | src/pages/job-search-configuration/components/ConfigurationActions.jsx:95-96 | While a save runs, the reset and preview buttons are disabled; nothing else changes |
| Configuration.StartPreview | src/pages/job-search-configuration/components/ConfigurationActions.jsx:111-112 | While a preview runs, Save and Reset are disabled whether or not there are changes; nothing else changes |
| Configuration.FinishPreview | src/pages/job-search-configuration/components/ConfigurationActions.jsx:118-119 | When the preview ends and no save runs, Reset and Preview are enabled and Save is enabled exactly when there are changes |
| Configuration.Save | src/pages/job-search-configuration/components/ConfigurationActions.jsx:95-108 | A completed save remembers its time, keeps the configuration, shows the success panel and disables Save |
| Configuration.AskReset | src/pages/job-search-configuration/components/ConfigurationActions.jsx:123-125 | Reset only opens the confirmation |
| Configuration.ConfirmReset | src/pages/job-search-configuration/components/ConfigurationActions.jsx:127-131 | Confirming resets the page, closes the dialog and forgets the save time, which hides the success panel |
| Configuration.EditAfterSave | src/pages/job-search-configuration/components/ConfigurationActions.jsx:259-307 | Any edit after a save hides the success panel and enables Save again |
| Configuration.FormatLastSaved | src/pages/job-search-configuration/components/ConfigurationActions.jsx:133-160 | Nothing before a save; words under an hour; the locale date from an hour on |
| Configuration.MinutesAgoCounts | src/pages/job-search-configuration/components/ConfigurationActions.jsx:143-146 | From one minute to under an hour the English text counts whole minutes |
| Configuration.JustNowTexts | src/pages/job-search-configuration/components/ConfigurationActions.jsx:140-142 | Under a minute the text is "just now" in English and French for any other code |
| Export.ConvertToCsv | src/pages/analytics-dashboard/components/ExportPanel.jsx:178-188 | An empty list converts to the empty text |
| Export.CsvLines | src/pages/analytics-dashboard/components/ExportPanel.jsx:181-185 | The CSV has one line more than there are records |
| Export.CsvLineOf | src/pages/analytics-dashboard/components/ExportPanel.jsx:181-184 | The first line is the first record's keys joined by commas; each later line is its record's quoted values in header order |
| Export.LookupOfDistinctKeys | src/pages/analytics-dashboard/components/ExportPanel.jsx:184 | In a record with distinct keys, looking up a field's key gives that field's value |
| Export.Lookup | src/pages/analytics-dashboard/components/ExportPanel.jsx:184 | A record has no value for a key exactly when none of its fields has that key |
| Export.RowRoundTrip | src/pages/analytics-dashboard/components/ExportPanel.jsx:184 | A data line of values free of commas reads back as its record |
| Export.CsvRoundTrip | src/pages/analytics-dashboard/components/ExportPanel.jsx:178-188 | Records sharing the first record's keys, with values free of quotes, commas and line breaks, read back from their CSV |
| Export.CsvLinesAvoidBreak | src/pages/analytics-dashboard/components/ExportPanel.jsx:181-185 | No line of the CSV of exportable records contains a line break, so the lines are the rows |
| Export.ReportText | src/pages/analytics-dashboard/components/ExportPanel.jsx:190-200 | The report starts with its title line and a blank line |
| Export.ReportLineCount | src/pages/analytics-dashboard/components/ExportPanel.jsx:190-200 | The report has two title lines plus, per record, a heading, one line per field and a blank line |
| Export.DownloadFile | src/pages/analytics-dashboard/components/ExportPanel.jsx:139-176 | No download for an unknown format; otherwise the name is "job_applications_<range>days.<ext>" and both spreadsheet formats carry the CSV |
| Export.FileNamesDistinct | src/pages/analytics-dashboard/components/ExportPanel.jsx:142-165 | For one range, different formats download under different names |
| Export.ChangeAnalyticsFilter | src/pages/analytics-dashboard/components/FilterPanel.jsx:95-98 | Only the named filter changes; the panel stays open or closed |
| Export.ApplyFilters | src/pages/analytics-dashboard/components/FilterPanel.jsx:100-103 | Apply passes the filters on unchanged and collapses the panel |
| Export.ResetFilters | src/pages/analytics-dashboard/components/FilterPanel.jsx:105-115 | Reset sets and passes on the defaults, keeping the panel open or closed |
| Export.ResetDiscardsChanges | src/pages/analytics-dashboard/components/FilterPanel.jsx:9-15 | A reset drops unapplied changes back to the initial filters, and applying then passes on the defaults |
| PersonalInfo.TestEmailPattern | src/pages/profile-management/components/PersonalInfoSection.jsx:101 | The search for `\S+@\S+\.\S+` succeeds exactly when some `@` and later `.` have visible characters before, between and after them |
| PersonalInfo.EmailPatternNotBlank | src/pages/profile-management/components/PersonalInfoSection.jsx:99-103 | A text the pattern accepts is not blank |
| PersonalInfo.EmailPatternExamples | src/pages/profile-management/components/PersonalInfoSection.jsx:101 | "a@b.c" and text around it match; "a@b" and "a@.c" do not |
| PersonalInfo.Validate | src/pages/profile-management/components/PersonalInfoSection.jsx:92-111 | Name and phone errors exactly when blank, an email error exactly when the pattern fails, and no error at all exactly when all three pass |
| PersonalInfo.Save | src/pages/profile-management/components/PersonalInfoSection.jsx:113-118 | The edits are handed up and editing ends exactly when validation passes; the fresh errors are shown either way |
| PersonalInfo.StartEditing | src/pages/profile-management/components/PersonalInfoSection.jsx:232 | The Edit button opens the form on the values and errors it already holds |
| PersonalInfo.Cancel | src/pages/profile-management/components/PersonalInfoSection.jsx:120-124 | Cancel restores the saved values, clears the errors and ends editing |
| PersonalInfo.FailedSaveIsStable | src/pages/profile-management/components/PersonalInfoSection.jsx:113-118 | After a failed save, saving again gives exactly the same result |
| PersonalInfo.CancelThenSave | src/pages/profile-management/components/PersonalInfoSection.jsx:113-124 | Cancelling and saving hands up the saved values when they were valid |
| PersonalInfo.AddSkill | src/pages/profile-management/components/PersonalInfoSection.jsx:126-133 | The trimmed skill is appended exactly when it is non-empty and not listed; nothing else changes |
| PersonalInfo.RemoveSkill | src/pages/profile-management/components/PersonalInfoSection.jsx:135-140 | Every equal skill goes; other skills and fields stay |
| PersonalInfo.AddThenRemoveSkill | src/pages/profile-management/components/PersonalInfoSection.jsx:126-140 | Adding a new skill and removing it gives the profile back |
| PersonalInfo.AddSkillKeepsDuplicateFree | src/pages/profile-management/components/PersonalInfoSection.jsx:126-133 | Adding never puts a duplicate into a duplicate-free skill list |
| ProfileDocuments.FileUpload | src/pages/profile-management/components/DocumentsSection.jsx:130-147 | An upload updates the documents exactly for the résumé slot, replacing only the résumé |
| ProfileDocuments.Drop | src/pages/profile-management/components/DocumentsSection.jsx:120-128 | A drop uploads its first file, and an empty drop does nothing |
| ProfileDocuments.DeleteResume | src/pages/profile-management/components/DocumentsSection.jsx:200 | Deleting clears the résumé and keeps the templates and links |
| ProfileDocuments.UploadThenDelete | src/pages/profile-management/components/DocumentsSection.jsx:130-200 | Uploading then deleting the résumé leaves the rest of the card as deleting alone would |
| ProfileDocuments.AddTemplate | src/pages/profile-management/components/DocumentsSection.jsx:250-267 | A draft with a non-blank name and content is appended untrimmed and the form cleared and closed; otherwise nothing changes |
| ProfileDocuments.EditTemplate | src/pages/profile-management/components/DocumentsSection.jsx:269-280 | Entries with the edited template's id are replaced by it; length, order and the rest of the card are kept |
| ProfileDocuments.DeleteTemplate | src/pages/profile-management/components/DocumentsSection.jsx:282-288 | Exactly the templates with the id are removed; the rest keep their order, and as many remain as have another id |
| ProfileDocuments.AddThenDeleteTemplate | src/pages/profile-management/components/DocumentsSection.jsx:250-288 | Adding a template under a new id and deleting that id gives the card back |
| ProfileDocuments.EditUnknownTemplate | src/pages/profile-management/components/DocumentsSection.jsx:269-280 | Editing a template whose id nobody has changes nothing |
| ProfileDocuments.AddLink | src/pages/profile-management/components/DocumentsSection.jsx:413-431 | A link with a non-blank title and URL is appended and the form cleared and closed; the description may be empty |
| ProfileDocuments.DeleteLink | src/pages/profile-management/components/DocumentsSection.jsx:433-439 | Exactly the links with the id are removed; the rest keep their order, and as many remain as have another id |
| ProfileDocuments.AddThenDeleteLink | src/pages/profile-management/components/DocumentsSection.jsx:413-439 | Adding a link under a new id and deleting that id gives the card back |
| AccountSettings.WithSwitch | src/pages/profile-management/components/AccountSettingsSection.jsx:192-195 | Setting one switch changes exactly that nested flag; every other switch and setting is kept |
| AccountSettings.ApplyEdit | src/pages/profile-management/components/AccountSettingsSection.jsx:165-378 | Outside editing no control changes the card; a switch flips its own value; the schedule and visibility selects store their choice; the daily limit stores what `parseInt` reads; nothing else in the copy changes |
| AccountSettings.Save | src/pages/profile-management/components/AccountSettingsSection.jsx:155-158 | Save hands up the edited settings and ends editing |
| AccountSettings.Cancel | src/pages/profile-management/components/AccountSettingsSection.jsx:160-163 | Cancel puts the saved settings back into the copy and ends editing |
| AccountSettings.StartEditing | src/pages/profile-management/components/AccountSettingsSection.jsx:517-545 | Editing starts from any tab except the subscription tab, where the Edit button is not shown; nothing else changes |
| AccountSettings.SelectTab | src/pages/profile-management/components/AccountSettingsSection.jsx:557 | A tab click makes that tab the active one and changes nothing else |
| AccountSettings.TabShown | src/pages/profile-management/components/AccountSettingsSection.jsx:489-501 | The subscription tab shows exactly for "subscription", and an unknown tab shows the notifications tab |
| AccountSettings.FlipTwice | src/pages/profile-management/components/AccountSettingsSection.jsx:165-196 | Flipping a switch twice while editing gives the card back |
| AccountSettings.CancelDiscardsEdits | src/pages/profile-management/components/AccountSettingsSection.jsx:155-163 | Whatever was edited, cancel then save hands up the saved settings |
| AccountSettings.EditsNeedEditing | src/pages/profile-management/components/AccountSettingsSection.jsx:168-196 | Outside editing no sequence of controls changes the card |
| AccountSettings.DailyLimitReadsBack | src/pages/profile-management/components/AccountSettingsSection.jsx:297-300 | A number typed into the daily limit is stored as that number; an emptied box stores NaN |
| AccountSettings.SubscriptionTabKeepsEditing | src/pages/profile-management/components/AccountSettingsSection.jsx:517 | The subscription tab hides the edit buttons without ending editing; coming back shows them with the copy intact |
| AccountSettings.OpenDeleteConfirm | src/pages/profile-management/components/AccountSettingsSection.jsx:480 | The delete button only opens the dialog |
| AccountSettings.CloseDeleteConfirm | src/pages/profile-management/components/AccountSettingsSection.jsx:598-606 | Both dialog buttons only close it; no setting changes |
| JobPreferences.WithSelected | src/pages/profile-management/components/JobPreferencesSection.jsx:276-486 | The named list is replaced; every other list and single choice is kept |
| JobPreferences.MultiSelectLabel | src/pages/profile-management/components/JobPreferencesSection.jsx:193 | Before anything is selected the button shows the placeholder; afterwards its text reads back, with `parseInt`, as the number selected, and ends in " selected" |
| JobPreferences.ApplyEdit | src/pages/profile-management/components/JobPreferencesSection.jsx:176-440 | Outside editing nothing changes; a checkbox flips its option's membership in its own list (appending an absent option at the end, keeping the other options in order) and leaves every other field alone; each salary box, the currency and each select replace their own field of the copy and nothing else |
| JobPreferences.Save | src/pages/profile-management/components/JobPreferencesSection.jsx:121-125 | Save hands up the edited preferences and ends editing |
| JobPreferences.Cancel | src/pages/profile-management/components/JobPreferencesSection.jsx:126-129 | Cancel restores the saved preferences and ends editing |
| JobPreferences.CancelDiscardsEdits | src/pages/profile-management/components/JobPreferencesSection.jsx:121-129 | After a cancel, the next save hands up the saved preferences, whatever was edited before |
| JobPreferences.ToggleOptionTwice | src/pages/profile-management/components/JobPreferencesSection.jsx:176-181 | Ticking an unticked option twice gives the preferences back |
| JobPreferences.ToggleStaysWithinOptions | src/pages/profile-management/components/JobPreferencesSection.jsx:131-181 | A list picked from its options stays within them, whatever is ticked |
| JobPreferences.ToggleKeepsDuplicateFree | src/pages/profile-management/components/JobPreferencesSection.jsx:176-181 | Ticking keeps a duplicate-free list duplicate-free |
| JobPreferences.TypedSalaryKeptAsText | src/pages/profile-management/components/JobPreferencesSection.jsx:308-311 | A typed minimum salary is stored and handed up as the raw text, not as a number |

## Left out

- Rendering, CSS classes and icons beyond the status and job-type tables, and the chart components (ChartContainer, ApplicationChart, KPICard, MetricsCard, InsightsPanel): they only draw.
- Timers and awaited delays in save, export, delete, preview and quick-search paths: each handler is one synchronous transition taken after its wait.
- Random draws in the status indicator and notification intervals: they are parameters within the bounds `Math.random` gives. The interval timers themselves are not modelled.
- `localStorage` and the `languageChange` event: the stored language code is a parameter.
- Blob, object URLs, anchors, FileReader and `window.open` in the downloads and uploads: only the text and record builders are modelled, and the object URL is a parameter.
- Date construction and locale formatting (`toLocaleString`, `toISOString`, the `{{DATE}}` sample): timestamps are integers, and formatted dates are parameters or an opaque value.
- Time zones and daylight saving: every day is exactly 24 hours of local time.
- `localeCompare`: approximated by code-unit order on the lower-cased strings.
- `toLowerCase`: modelled for ASCII and Latin-1 letters only; other scripts are left unchanged.
- Floating point: `Math.round` of a quotient is exact half-up integer rounding; ExportDialog's size estimate is not modelled.
- Applications.Summarize: the rate is the exact half-up rounding of 100 times responded over total, whereas the header rounds the double `(responded / total) * 100`, which can fall just below a half: 29 responses out of 200 give 14.499999999999998 there, so the header shows 14 where the model gives 15.
- `parseInt` of free text: `Text.ParseInt` skips leading white space and reads an optional sign and the leading digits, with NaN as `None`; the daily limit and the history date range are read with it. Slider and select values arrive already read as numbers.
- Scheduling.ParseTime: each part of the start time is read as leading digits only (`Text.ParseLeadingNat`), which agrees with `parseInt` on the `HH:MM` text a time input produces; a typed sign or white space (such as "-1:30", which the component reads as hour -1) is read as unreadable instead.
- Characters: JavaScript counts string lengths, `substring` bounds and the textarea's `selectionStart`/`selectionEnd` in UTF-16 code units, while the model counts Unicode scalar values. Templates.PreviewOf and TemplateEditor.InsertAtSelection therefore agree with the source only on text inside the Basic Multilingual Plane; an emoji or other astral character counts as two units there and one here. Text.StrLt likewise orders by scalar value where `<` orders by code unit; the two differ only when an astral character meets a character from U+E000 to U+FFFF.
- ExportDialog, the bulk actions and status updates of the history page, the delete-account and two-factor actions, billing buttons, routing (Routes.jsx, `navigate`), QuickActionsPanel, the layout pages, SearchStatusCard, DeleteConfirmDialog and Header: these are rendering or navigation only.
- TemplateCard: its label and colour helpers are the same as TemplatePreview's, which are modelled.
- The JSON and PDF download contents: the JSON is an opaque dump, and the PDF text is `Export.ReportText`.
- Automation.Execute: the wait before the action and the `try`/`finally` are collapsed; a failing wait is not modelled.
- Configuration.InitialConfig: states the section names, not every default value.
- Scheduling.NextSixHourMarkHours: states the hour of the corrected run, not that its minute is zero.
- Export.ReportText: states the title and the line count, not the text of each line.
- Notifications.FormatTimestamp and Activity.FeedTimestamp: their contracts state the "just now" bucket; the other buckets are stated for English by the lemmas that follow them.

## Findings

| source | as written | input that shows it | evidently intended | confidence | as-written member | corrected member |
|---|---|---|---|---|---|---|
| src/pages/job-search-configuration/components/SchedulingSection.jsx:206-207 | `Math.ceil(h / 6) * 6` leaves an hour that is already a multiple of 6 as it is | now = 06:30: the "next run" is 06:00 today, half an hour ago | the next multiple of six hours strictly after now | high (not executed) | Scheduling.Every6HoursAsWrittenInThePast | Scheduling.NextSixHourMark |
| src/pages/job-search-configuration/components/SchedulingSection.jsx:207-211 | `setHours(24)` already moves to the next midnight, then `setDate(getDate() + 1)` adds another day | now = 19:00: the "next run" is 00:00 two days later | 00:00 the next day | high (not executed) | Scheduling.Every6HoursAsWrittenSkipsADay | Scheduling.NextSixHourMark |
