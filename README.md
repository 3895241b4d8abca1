# File Management System — a Dafny model of its screen logic

The system is a single-page dashboard for tracking government case files
through an approval workflow. There are three roles: admin, officer and
citizen. All data are fixed sample records held in memory. This project
models the logic behind its screens:

- the session state machine in `App` (current screen and logged-in role);
- the role menu and mobile-menu flag of the navigation bar;
- the case-insensitive status filter and the timeline selection of the
  file workflow screen;
- the summary figures and warnings of the timeline modal;
- the citizen portal's upper-casing lookup;
- the per-type counts, "Escalate Now" rule, badge text and colours of the
  alerts feed;
- the totals, colour bands, bar width and redistribution notice of the
  officer workload screen.

One Dafny module per source file:

| file | module | form |
|---|---|---|
| `common.dfy` | `Common` | shared values: `Option`, priorities, stage tags, ASCII case mapping, `Filter` (the model of `Array.prototype.filter`) and its lemmas |
| `app.dfy` | `App` | class `Session` whose methods are tied to pure transitions on `AppState` |
| `navigation.dfy` | `Navigation` | pure menus plus class `NavigationBar` |
| `file_workflow.dfy` | `FileWorkflow` | pure filter plus class `FileWorkflowScreen` |
| `file_timeline.dfy` | `FileTimeline` | pure |
| `citizen_portal.dfy` | `CitizenPortal` | pure lookup plus class `CitizenPortalScreen` |
| `alerts.dfy` | `Alerts` | pure |
| `officer_workload.dfy` | `OfficerWorkload` | pure |

Each React component's `useState` hooks become the fields of a class.
Each event handler becomes a method that modifies the state it changes:
the component's own fields, the `Session`, or both. The method's
`ensures` gives the whole new state in terms of a pure function of the
old one, and the lemmas state the properties of those functions. The
callbacks a component receives (`onNavigate`, `onLogout`) are the
`Session` handlers, so the navigation bar's click handlers take the
`Session` they act on.

Every status, type, workload label, efficiency score and progress figure
in the source is a stored field of a sample record. One might expect
status, progress, alert type and the redistribution notice to be derived
from stage timings or file counts. The code derives none of them, and two
lemmas show where such a derivation would disagree with the stored
values:

- `CitizenPortal.ProgressIsStored`: record `FN-2024-001` shows 60% with
  two of its five stages completed, not the 40% the formula
  `round(100·completed/total)` would give.
- `OfficerWorkload.NoticeIgnoresFileCount`: `OFF-008` gets the
  redistribution notice with nine active files, because the notice
  follows the stored `High` label.

## Model

| member | source | states |
|---|---|---|
| `App.ParseScreen` | src/app/App.tsx:10 | a string parses to a screen only if it is that screen's own name |
| `App.ParseScreenName` | src/app/App.tsx:10 | every screen's name parses back to that screen (round trip) |
| `App.RenderScreen` | src/app/App.tsx:33-52 | a string that names no screen falls through to the login view (the `default` case) |
| `App.RenderScreenInjective` | src/app/App.tsx:33-52 | distinct screens render distinct components, and only `login` renders the login screen |
| `App.LandingScreen` | src/app/App.tsx:17-26 | no role lands on the login screen |
| `App.AfterLogin` | src/app/App.tsx:17-26 | the role is always set to the argument; a role moves to its landing screen; `null` leaves the screen unchanged |
| `App.AfterLogout` | src/app/App.tsx:28-31 | from any state, logout yields the initial state (`login`, `null`) |
| `App.AfterNavigate` | src/app/App.tsx:38-48 | navigation sets the screen to its argument and never changes the role |
| `App.LoginLeavesLoginScreen` | src/app/App.tsx:17-26 | logging in with a role always leaves `login`, and the three roles land on three different screens |
| `App.LogoutIdempotent` | src/app/App.tsx:28-31 | logging out twice equals logging out once, and the result does not depend on the prior state |
| `App.LoginThenLogout` | src/app/App.tsx:17-31 | logging out right after any login returns to the initial state |
| `App.NavigateUnrestricted` | src/app/App.tsx:38-48 | any screen is reachable from any state whatever the role (no role check), the last navigation wins, and the role is kept |
| `App.Session.CurrentView` | src/app/App.tsx:56 | the component `App` renders: `RenderScreen` of the current screen's name |
| `App.Session.constructor` | src/app/App.tsx:14-15 | the session starts on `login` with no role |
| `App.Session.HandleLogin` | src/app/App.tsx:17-26 | the new state is `AfterLogin` of the old state |
| `App.Session.HandleLogout` | src/app/App.tsx:28-31 | the new state is `AfterLogout` of the old state |
| `App.Session.Navigate` | src/app/App.tsx:38-48 | the new state is `AfterNavigate` of the old state (`onNavigate={setCurrentScreen}`) |
| `Navigation.NavItems` | src/app/components/Navigation.tsx:14-25 | the menu for the role the bar is given; its contents are stated by `MenuContents` and `MenuWellFormed` |
| `Navigation.IsActive` | src/app/components/Navigation.tsx:46 | an item is highlighted when the current-screen string is its id's name; `AtMostOneActive` bounds it to one item |
| `Navigation.Ids` | src/app/components/Navigation.tsx:14-25 | a menu's screen ids, one per item, in menu order |
| `Navigation.MenuContents` | src/app/components/Navigation.tsx:14-25 | admin gets exactly admin/files/officers/alerts/reports in that order, officer gets exactly files/alerts, and any other role (`null` too) gets exactly citizen |
| `Navigation.MenuWellFormed` | src/app/components/Navigation.tsx:14-25 | no menu lists a screen twice, and no menu offers `login` |
| `Navigation.AtMostOneActive` | src/app/components/Navigation.tsx:46 | for any current-screen string, at most one item of a menu is highlighted (the mobile menu at line 89 makes the same test) |
| `Navigation.LandingScreenInMenu` | src/app/components/Navigation.tsx:14-25 | the screen a role lands on after login is in that role's menu and is highlighted there |
| `Navigation.NavigationBar.constructor` | src/app/components/Navigation.tsx:12 | the mobile menu starts closed |
| `Navigation.NavigationBar.ToggleMobileMenu` | src/app/components/Navigation.tsx:75 | the menu button flips the open flag |
| `Navigation.NavigationBar.SelectDesktopItem` | src/app/components/Navigation.tsx:50 | a desktop item navigates to its screen; moving to another screen brings up that screen's own bar, closed, while choosing the screen already shown keeps the flag |
| `Navigation.NavigationBar.SelectMobileItem` | src/app/components/Navigation.tsx:93-96 | a mobile item navigates to its screen and closes the menu |
| `Navigation.NavigationBar.LogoutDesktop` | src/app/components/Navigation.tsx:65 | the desktop logout button logs out; the login screen has no bar, and the next bar shown starts closed |
| `Navigation.NavigationBar.LogoutMobile` | src/app/components/Navigation.tsx:109-112 | the mobile logout button logs out and closes the menu |
| `FileWorkflow.StatusMatches` | src/app/components/FileWorkflowScreen.tsx:41 | a file matches a filter when their lower-cased status and filter agree; `ButtonMatchesStatus` pins this down for each button |
| `FileWorkflow.FilteredFiles` | src/app/components/FileWorkflowScreen.tsx:39-41 | the list the table shows for a filter; `FilterAllUnchanged`, `FilteredFilesExact` and `StatusFiltersPartition` state what it holds |
| `FileWorkflow.FilterAllUnchanged` | src/app/components/FileWorkflowScreen.tsx:39-41 | the filter `all` shows the list unchanged |
| `FileWorkflow.FilteredFilesExact` | src/app/components/FileWorkflowScreen.tsx:39-41 | any other filter shows an order-preserving sub-list holding exactly the files whose lower-cased status equals the lower-cased filter |
| `FileWorkflow.LowerStatusLabel` | src/app/components/FileWorkflowScreen.tsx:14-22 | the lower-case forms of the three stored statuses |
| `FileWorkflow.ButtonMatchesStatus` | src/app/components/FileWorkflowScreen.tsx:118-138 | each status button's value matches a file iff the file has that button's status |
| `FileWorkflow.FilterByButton` | src/app/components/FileWorkflowScreen.tsx:39-41 | a status button shows the same list as filtering on the stored status directly |
| `FileWorkflow.UnknownFilterShowsNothing` | src/app/components/FileWorkflowScreen.tsx:39-41 | a filter other than `all` whose lower-case form is no status (e.g. `All`) shows no file |
| `FileWorkflow.StatusFiltersPartition` | src/app/components/FileWorkflowScreen.tsx:39-41 | the three button filters split any list: their sizes add up to its length |
| `FileWorkflow.FixtureCounts` | src/app/components/FileWorkflowScreen.tsx:24-33 | the list has eight files: five on time, two delayed, one critical ("Showing N files") |
| `FileWorkflow.ToggleSelection` | src/app/components/FileWorkflowScreen.tsx:228 | the result selects the clicked id exactly when it was not already the selection, and otherwise selects nothing |
| `FileWorkflow.ToggleSelectionTwice` | src/app/components/FileWorkflowScreen.tsx:228 | from no selection, two clicks on one file restore the selection; a click on another file moves the selection to it |
| `FileWorkflow.ListedFilesOpenTimeline` | src/app/components/FileWorkflowScreen.tsx:299-304 | every listed file opens the modal: a file with no timeline entry (five of the eight, `FN-2024-002` among them) opens it on the empty timeline, the others on their own events |
| `FileWorkflow.OpenTimeline` | src/app/components/FileWorkflowScreen.tsx:299-304 | the modal is open on a file's timeline when the selection is a non-empty id; `ListedFilesOpenTimeline` states it for every listed file |
| `FileWorkflow.FileWorkflowScreen.Shown` | src/app/components/FileWorkflowScreen.tsx:150 | the files the table shows for the current filter; "Showing N files" is its length |
| `FileWorkflow.FileWorkflowScreen.constructor` | src/app/components/FileWorkflowScreen.tsx:36-37 | nothing selected, filter `all` |
| `FileWorkflow.FileWorkflowScreen.SetFilter` | src/app/components/FileWorkflowScreen.tsx:108-138 | a filter button sets the filter and keeps the selection |
| `FileWorkflow.FileWorkflowScreen.ViewTimeline` | src/app/components/FileWorkflowScreen.tsx:287 | the new selection is `ToggleSelection` of the old one; the filter is kept |
| `FileWorkflow.FileWorkflowScreen.CloseTimeline` | src/app/components/FileWorkflowScreen.tsx:302 | closing the modal clears the selection and keeps the filter |
| `FileTimeline.TimelineFor` | src/app/components/FileTimeline.tsx:38 | a file's stored events, or the empty timeline; `TimelineLookup` states both cases |
| `FileTimeline.CompletedEvents` | src/app/components/FileTimeline.tsx:72 | the completed events; `CompletedCountBounded` states it keeps exactly those |
| `FileTimeline.SummaryOf` | src/app/components/FileTimeline.tsx:67-77 | the three summary cards: stages, completed stages, total days; the fixture summaries are lemmas |
| `FileTimeline.DurationShown` | src/app/components/FileTimeline.tsx:122 | an event's duration label is shown when its duration is positive |
| `FileTimeline.EscalationWarning` | src/app/components/FileTimeline.tsx:124 | a current event of more than five days turns its label red and, by the same test at line 139, shows the warning; `WarningOnlyForOverdueCurrent` relates it to `DurationShown` |
| `FileTimeline.TotalDuration` | src/app/components/FileTimeline.tsx:39 | with non-negative durations the left-fold total is non-negative |
| `FileTimeline.TimelineLookup` | src/app/components/FileTimeline.tsx:38 | an unknown id gives the empty timeline and a summary of 0 stages, 0 completed, 0 days; a known id gives its own events |
| `FileTimeline.CompletedCountBounded` | src/app/components/FileTimeline.tsx:72 | the completed list holds exactly the timeline's completed events and is no longer than the timeline |
| `FileTimeline.TotalDurationAppend` | src/app/components/FileTimeline.tsx:39 | the total of a concatenation is the sum of the totals |
| `FileTimeline.TotalDurationAtLeastEach` | src/app/components/FileTimeline.tsx:39 | with non-negative durations the total is at least every single duration |
| `FileTimeline.WarningOnlyForOverdueCurrent` | src/app/components/FileTimeline.tsx:122-139 | the warning is raised exactly for a current event of more than five days, never for completed or pending ones, and a warned event always shows its duration label |
| `FileTimeline.FixtureTimelinesWellFormed` | src/app/components/FileTimeline.tsx:18-35 | every stored timeline is completed events, then at most one current event, then pending events, with non-negative durations |
| `FileTimeline.FixtureSummary001` | src/app/components/FileTimeline.tsx:19-24 | `FN-2024-001` shows 4 stages, 2 completed, 3.5 days, and no warning on its current stage |
| `FileTimeline.FixtureSummary003` | src/app/components/FileTimeline.tsx:25-29 | `FN-2024-003` shows 3 stages, 2 completed, 8.5 days, and warns on its six-day current stage |
| `FileTimeline.FixtureSummary004` | src/app/components/FileTimeline.tsx:30-34 | `FN-2024-004` shows 3 stages, 2 completed, 11.5 days, and warns on its eight-day current stage |
| `CitizenPortal.FixtureKeysMatch` | src/app/components/CitizenPortalScreen.tsx:28-80 | every record is filed under its own id |
| `CitizenPortal.Lookup` | src/app/components/CitizenPortalScreen.tsx:87-96 | a record is found iff the upper-cased id is a key, and a found record carries the upper-cased id |
| `CitizenPortal.LookupIgnoresCase` | src/app/components/CitizenPortalScreen.tsx:88 | ids that differ only in letter case find the same record, or both find nothing |
| `CitizenPortal.LookupUpperCased` | src/app/components/CitizenPortalScreen.tsx:88 | searching for the upper-cased id is the same as searching for the id (upper-casing is idempotent) |
| `CitizenPortal.LookupByKey` | src/app/components/CitizenPortalScreen.tsx:88-89 | an id that matches an upper-case key up to case finds exactly what is filed under that key |
| `CitizenPortal.FixtureLookups` | src/app/components/CitizenPortalScreen.tsx:28-80 | `FN-2024-001`, `-005` and `-008` are found in whatever case they are typed |
| `CitizenPortal.FixtureLookupMissing` | src/app/components/CitizenPortalScreen.tsx:93-94 | `FN-2024-002`, a listed file with no portal record, is not found in any case |
| `CitizenPortal.StagePatternsWellFormed` | src/app/components/CitizenPortalScreen.tsx:38-78 | the two status patterns of the three stage lists (two completed, one current, two pending at lines 38-44; one completed, one current, three pending at lines 55-61 and 72-78) are completed stages, then exactly one current stage, then pending stages |
| `CitizenPortal.FixtureStagesWellFormed` | src/app/components/CitizenPortalScreen.tsx:28-80 | every record's stages are ordered that way, with exactly one current stage |
| `CitizenPortal.ProgressIsStored` | src/app/components/CitizenPortalScreen.tsx:37 | the stored 60% of `FN-2024-001` is not the share of its completed stages (2 of 5) |
| `CitizenPortal.CitizenPortalScreen.constructor` | src/app/components/CitizenPortalScreen.tsx:83-85 | empty search, no result, not-found flag off, introduction shown |
| `CitizenPortal.CitizenPortalScreen.ShowsIntroduction` | src/app/components/CitizenPortalScreen.tsx:299 | the introduction is shown when there is no result and no not-found message; `HandleSearch` always hides it |
| `CitizenPortal.CitizenPortalScreen.SetSearchId` | src/app/components/CitizenPortalScreen.tsx:127 | typing changes only the search id |
| `CitizenPortal.CitizenPortalScreen.HandleSearch` | src/app/components/CitizenPortalScreen.tsx:87-96 | the result is `Lookup` of the search id, the not-found flag is on iff nothing was found, and the introduction disappears |
| `Alerts.CountOf` | src/app/components/AlertsScreen.tsx:133-136 | a type's count is at most the number of alerts |
| `Alerts.CountPositive` | src/app/components/AlertsScreen.tsx:133-136 | a count is positive iff some alert has that type |
| `Alerts.CountsSum` | src/app/components/AlertsScreen.tsx:13 | since every alert has one of four types, the four counts add up to the number of alerts |
| `Alerts.FixtureCounts` | src/app/components/AlertsScreen.tsx:24-85 | the cards show 1 critical, 1 SLA breach, 2 warnings and 1 escalation out of 5 alerts |
| `Alerts.EscalateNowOffered` | src/app/components/AlertsScreen.tsx:276 | the button is shown when the stored type name is not `escalation`; `EscalateNowRule` gives it on the type |
| `Alerts.EscalateNowRule` | src/app/components/AlertsScreen.tsx:276 | "Escalate Now" is offered iff the type is not `escalation`; in the sample only `ALT-004` lacks it |
| `Alerts.ReplaceFirst` | src/app/components/AlertsScreen.tsx:235 | replacing one character by one keeps the length |
| `Alerts.ReplaceFirstAbsent` | src/app/components/AlertsScreen.tsx:235 | a string without the pattern is unchanged |
| `Alerts.ReplaceFirstAt` | src/app/components/AlertsScreen.tsx:235 | only the first occurrence changes: the prefix before it and every later occurrence are kept |
| `Alerts.BadgeLabel` | src/app/components/AlertsScreen.tsx:235 | the badge text: the type name with its first hyphen replaced by a space |
| `Alerts.BadgeLabelSlaBreach` | src/app/components/AlertsScreen.tsx:235 | the `sla-breach` badge reads `sla breach` |
| `Alerts.BadgeLabelPlain` | src/app/components/AlertsScreen.tsx:235 | the hyphen-free types' badges read as stored |
| `Alerts.AlertColour` | src/app/components/AlertsScreen.tsx:88-101 | the card colour of a type string, with a default; `AlertColoursDistinct` states the mapping is one to one on the four types |
| `Alerts.AlertColoursDistinct` | src/app/components/AlertsScreen.tsx:88-101 | the four types get pairwise-distinct colours, none of them the default, and every other string gets the default |
| `OfficerWorkload.EfficiencyBand` | src/app/components/OfficerWorkloadScreen.tsx:47-51 | emerald iff the score is at least 90, blue iff 75 to 89, amber iff below 75 (the bar at lines 197-199 uses the same thresholds) |
| `OfficerWorkload.EfficiencyBandMonotone` | src/app/components/OfficerWorkloadScreen.tsx:47-51 | a higher score never gets a worse band |
| `OfficerWorkload.TotalActive` | src/app/components/OfficerWorkloadScreen.tsx:54 | the left fold of `reduce`; `TotalActiveIsSum` shows it is the plain sum |
| `OfficerWorkload.SumFromFrontAppend` | src/app/components/OfficerWorkloadScreen.tsx:54 | the sum of a concatenation is the sum of the sums |
| `OfficerWorkload.TotalActiveIsSum` | src/app/components/OfficerWorkloadScreen.tsx:54 | the left fold `reduce` equals the plain sum of all officers' active files |
| `OfficerWorkload.TotalActiveAtLeastEach` | src/app/components/OfficerWorkloadScreen.tsx:54 | no officer has more active files than the total |
| `OfficerWorkload.FixtureTotalActive` | src/app/components/OfficerWorkloadScreen.tsx:22-31 | the "Total Active Files" card shows 66 |
| `OfficerWorkload.Overloaded` | src/app/components/OfficerWorkloadScreen.tsx:112 | the officers marked `High`; `OverloadedExact` states it keeps exactly those, in order |
| `OfficerWorkload.OverloadedExact` | src/app/components/OfficerWorkloadScreen.tsx:112 | the overloaded list holds exactly the officers marked `High`, in order, and is no longer than the list of officers |
| `OfficerWorkload.FixtureOverloaded` | src/app/components/OfficerWorkloadScreen.tsx:22-31 | the sample has three overloaded officers |
| `OfficerWorkload.BarWidth` | src/app/components/OfficerWorkloadScreen.tsx:165 | the bar width lies in 0..100 and is exactly 100 iff the officer has at least 15 active files |
| `OfficerWorkload.BarWidthMonotone` | src/app/components/OfficerWorkloadScreen.tsx:165 | more files never give a shorter bar, and below fifteen files the width is proportional to the count |
| `OfficerWorkload.RedistributionNotice` | src/app/components/OfficerWorkloadScreen.tsx:208 | the notice is shown for an officer marked `High` |
| `OfficerWorkload.RedistributionNoticeRule` | src/app/components/OfficerWorkloadScreen.tsx:208 | the notice appears iff the officer is in the overloaded list; in the sample, exactly for `OFF-003`, `OFF-004` and `OFF-008` |
| `OfficerWorkload.NoticeIgnoresFileCount` | src/app/components/OfficerWorkloadScreen.tsx:208 | `OFF-008` gets the notice with fewer than twelve active files |
| `Common.Lower` | src/app/components/FileWorkflowScreen.tsx:41 | `toLowerCase` keeps the length and lower-cases each ASCII letter in place |
| `Common.Upper` | src/app/components/CitizenPortalScreen.tsx:88 | `toUpperCase` keeps the length and upper-cases each ASCII letter in place |
| `Common.UpperIdempotent` | src/app/components/CitizenPortalScreen.tsx:88 | upper-casing twice is upper-casing once |
| `Common.UpperSameIgnoringCase` | src/app/components/CitizenPortalScreen.tsx:88 | two strings have the same upper-case form iff they agree up to letter case |
| `Common.Filter` | src/app/components/FileWorkflowScreen.tsx:41 | `filter` keeps only elements of the input that satisfy the predicate, and is no longer than the input |
| `Common.FilterIsSubsequence` | src/app/components/FileWorkflowScreen.tsx:41 | `filter` keeps the input's order |
| `Common.FilterComplete` | src/app/components/FileWorkflowScreen.tsx:41 | `filter` drops no element that satisfies the predicate |
| `Common.PhaseOrderedCurrentCount` | src/app/components/FileTimeline.tsx:15 | in a completed/current/pending-ordered sequence, at most one tag is `current` |
| `Common.ExactlyOneCurrent` | src/app/components/FileTimeline.tsx:15 | such a sequence with a current tag has exactly one |

## Left out

- Rendering is not modelled: JSX layout, icons, charts and CSS classes. The exceptions are the alert card colours and the efficiency bands. Not modelled are `getAlertIcon`, `getAlertBadgeColor`, `getStatusColor`, `getPriorityColor`, `getWorkloadColor` and the workload bar colour (lines 160-164 of the officer screen), nor the badge's CSS upper-casing.
- The admin dashboard, reports and login screens are not part of this model. They are fixed charts and text. The login screen only calls `onLogin` with a constant role, which `App.Session.HandleLogin` covers.
- `avgWorkload` is not modelled, because it is floating-point division formatted with `toFixed(1)`.
- `OfficerWorkload.BarWidth`: computed in exact reals. JavaScript's binary floating point may differ in the last bits, e.g. for 8/15·100.
- `FileTimeline.TotalDuration`: durations are exact reals. The fixture values are all multiples of 0.5, so they sum exactly in binary floating point too.
- `Common.Lower`, `Common.Upper`: ASCII letters only. JavaScript's Unicode case mapping can change a string's length (`ß` becomes `SS`).
- Lookups in `timelineData` and `mockFileData` are map lookups. JavaScript object lookups would also find prototype keys such as `constructor`. No upper-cased id can name one, since those keys all contain lower-case letters. An arbitrary id passed to the timeline could.
- The portal's not-found message shows the search box's current text, which can change after the search. The text is not modelled; the flag is.
- Free-text alert messages, relative timestamps and the SLA guideline tables of the alerts screen are display text, so they are not modelled.
- Every screen except the file workflow screen passes the navigation bar a fixed role: `admin` on the dashboard, alerts, officers and reports screens, `citizen` on the portal. So an officer who opens `alerts` sees the admin menu. This is not modelled; the menus are modelled for whatever role the bar is given.
- Each screen is a separate component that `App` mounts afresh when the screen changes. Its state therefore starts over on every visit: the filter returns to `all`, the selection to none, and the portal's search to empty. The screen classes are modelled one visit at a time, and this reset is not modelled. The navigation bar's flag is the exception: `Navigation.NavigationBar.SelectDesktopItem` and `LogoutDesktop` state it for the bar on display.
- `App.Session.Navigate`: takes a `Screen`, which is all the navigation bar ever passes. `onNavigate` is typed with plain strings, and an arbitrary string is modelled only at `App.RenderScreen`, which sends unknown names to the login screen.
