# Rail-sense dashboard, modelled in Dafny

Rail-sense is a React mock-up of a railway traffic-control console. The
pages and components modelled here are these:

- **Controller dashboard** (`Index.tsx`): stations sorted by traffic level, and
  a station click that toggles the track simulation. The AI suggestion list
  loses a suggestion when it is accepted or rejected.
- **Track simulations** (`TrainSimulation.tsx`, `RealisticTrainSimulation.tsx`):
  a periodic tick moves the trains along the tracks. Accepting a suggestion
  holds, reroutes or stops trains, and a held train resumes when its timer
  fires. Rejecting opens an override dialog. In the realistic simulation its
  choice stops the trains involved, flags the moving trains as in conflict, or
  does nothing; in the basic simulation it only logs the choice. A choice also
  tells the parent of the rejection. Closing the dialog without a choice only
  hides it.
- **Alerts page**: three filters, three counters, and the
  active → acknowledged → resolved lifecycle.
- **Settings page**: keyed settings in five sections, a dirty flag,
  save/reset, and a profile form with three editable fields.
- **Live tracking panel**: a search box and two filters, selection, and the
  delay label.
- **Team page**: initials, counters, shift groups, and the per-role
  permission lists.
- **Station master's page** and its three station components: the platform
  lookup, counters, the sorted platform list, the sorted schedule with its
  badges, and the AI recommendations list.
- **AI assistant**: a chat log with a blank-input guard, canned replies,
  quick prompts, and the insight colours.

How the model is built:

- State a page updates in place is a `class` with those fields. Each method
  states its new state in `ensures`.
- For the two simulations and the assistant, the class also has a `State()`
  snapshot. Each method is proved equal to a pure step function
  (`State() == AcceptStep(old(State()), id)`), and the lemmas are stated
  about the step functions.
- Derived lists (`filter`, `find`, `sort`, `map`) are pure functions.
- Shared modules model the JavaScript built-ins the pages use:
  - `Seqs`: `Option`, `filter`, `find`, removal by index, and the
    truthiness of an optional number, where 0 counts as absent (the
    truthiness of an optional string, where the empty string counts as
    absent, is `StationTypes.Present`);
  - `Text`: `trim`, `toLowerCase`/`toUpperCase`, `includes`, `split`/`join`,
    `replace`, and number printing;
  - `Sorting`: `Array.prototype.sort` as a stable sort by key.
- Timers (`setInterval`, `setTimeout`) are explicit operations. A scheduled
  hold-resume is an entry in a `timers` queue, and its firing is a method
  call.
- Calls to parent callbacks and `console.log` are appended to an `emitted`
  event list.
- `Math.random()` draws and `Date.now()` ids/timestamps are method
  parameters.

## Model

| member | source | states |
|---|---|---|
| Dashboard.SortedStations | src/pages/Index.tsx:149-152 | the sorted copy is a permutation of the stations with traffic rank (high 3, medium 2, normal 1) non-increasing |
| Dashboard.HeavierFirstIsStrictTotalOrder | src/pages/Index.tsx:150-151 | "larger weight first" is a strict total order on weights, so the comparator is consistent |
| Dashboard.SortedStationsByLevel | src/pages/Index.tsx:149-152 | every high-traffic station is listed before every medium one, and every medium before every normal one |
| Dashboard.SortedStationsStable | src/pages/Index.tsx:149-152 | stations of one traffic level keep their original relative order |
| Dashboard.ClickOpensThenCloses | src/pages/Index.tsx:154-156 | a click on an unselected station shows the simulation panel; a second click on it hides the panel again |
| Dashboard.RemoveSuggestion | src/pages/Index.tsx:158-166 | exactly the suggestions whose id differs, in their order and each as often as in the list |
| Dashboard.RemoveSuggestionAbsentAndTwice | src/pages/Index.tsx:158-166 | removing an unknown id changes nothing; removing twice equals removing once |
| Dashboard.DashboardPage.constructor | src/pages/Index.tsx:137-140 | nothing selected; the mock stations, trains and suggestions |
| Dashboard.DashboardPage.StationClick | src/pages/Index.tsx:154-156 | the selection toggles, and the suggestions are unchanged |
| Dashboard.DashboardPage.AcceptSuggestion | src/pages/Index.tsx:158-161 | the suggestion list loses that id; the selection is unchanged |
| Dashboard.DashboardPage.RejectSuggestion | src/pages/Index.tsx:163-166 | exactly the same update as accept |
| TrainSimulation.TickTrain | src/components/simulation/TrainSimulation.tsx:133-136 | a moving train advances by 1, capped at 95; any other train and every other field stay the same |
| TrainSimulation.TickAll | src/components/simulation/TrainSimulation.tsx:133-136 | every train is ticked, in place, and the list keeps its length |
| TrainSimulation.Ticks | src/components/simulation/TrainSimulation.tsx:133-136 | after any number of ticks only positions have changed, and a train that is not moving is unchanged |
| TrainSimulation.TicksMonotoneBounded | src/components/simulation/TrainSimulation.tsx:133-136 | across any number of ticks a train keeps its id, and its position never decreases or passes 95 |
| TrainSimulation.TrainsOnTrack | src/components/simulation/TrainSimulation.tsx:142-143 | exactly the trains on that track, in list order, each as often as in the list |
| TrainSimulation.SuggestionForTrain | src/components/simulation/TrainSimulation.tsx:145-146 | the first suggestion for the train, or none iff no suggestion names it |
| TrainSimulation.FindSuggestion | src/components/simulation/TrainSimulation.tsx:149 | the first suggestion in the list with that id, or none iff no suggestion has it |
| TrainSimulation.SetStatus | src/components/simulation/TrainSimulation.tsx:154-166 | the trains with that id get the status; all others are unchanged |
| TrainSimulation.Retarget | src/components/simulation/TrainSimulation.tsx:171-175 | with a truthy alternative track, the named train's target becomes it; otherwise nothing changes |
| TrainSimulation.TickStep | src/components/simulation/TrainSimulation.tsx:129-140 | while playing, every train is ticked; paused, nothing changes |
| TrainSimulation.AcceptStep | src/components/simulation/TrainSimulation.tsx:148-179 | unknown id: no change. Otherwise the trains are updated by kind (hold → waiting, reroute → retarget), the parent is notified, and a hold schedules a resume after `duration*1000` ms (3000 when absent or 0) |
| TrainSimulation.FireTimerStep | src/components/simulation/TrainSimulation.tsx:161-167 | a pending resume sets its train moving and leaves the queue; any other index changes nothing |
| TrainSimulation.RejectStep | src/components/simulation/TrainSimulation.tsx:181-185 | the dialog opens on the suggestion with that id (or none); nothing else changes |
| TrainSimulation.OverrideStep | src/components/simulation/TrainSimulation.tsx:187-201 | trains are never touched; with a current suggestion the manual/auto choice is logged and the parent is notified of the rejection; the dialog always closes and the current suggestion is cleared |
| TrainSimulation.DismissStep | src/components/simulation/TrainSimulation.tsx:466 | closing the dialog without a choice only hides it: the current suggestion, the trains and the reports are unchanged |
| TrainSimulation.ResetStep | src/components/simulation/TrainSimulation.tsx:223 | the trains go back to the ones last passed in; nothing else changes |
| TrainSimulation.TrainsPropStep | src/components/simulation/TrainSimulation.tsx:124-126 | new train props replace both the prop copy and the simulated trains |
| TrainSimulation.AcceptTwice | src/components/simulation/TrainSimulation.tsx:148-179 | accepting a suggestion twice leaves the trains as after once, but notifies twice, and a hold schedules two resumes |
| TrainSimulation.HoldThenResume | src/components/simulation/TrainSimulation.tsx:153-167 | accepting a hold and firing its timer sets the held train waiting then moving again; other trains and the timer queue end as they began |
| TrainSimulation.ResetRestoresProps | src/components/simulation/TrainSimulation.tsx:223 | after any sequence of ticks, accepts, timer firings, rejects, override choices, dialog dismissals and resets, reset gives back the trains last passed in and changes nothing else |
| TrainSimulation.RunKeepsProps | src/components/simulation/TrainSimulation.tsx:110-126 | no panel or timer action changes the prop trains or the suggestions |
| TrainSimulation.RejectThenDismiss | src/components/simulation/TrainSimulation.tsx:466 | a reject followed by closing the dialog leaves the trains and the reports as they were, with the dialog closed on the rejected suggestion |
| TrainSimulation.Simulation.constructor | src/components/simulation/TrainSimulation.tsx:115-120 | playing, no selection, dialog closed, simulated trains = props, no timers or events |
| TrainSimulation.Simulation.Tick | src/components/simulation/TrainSimulation.tsx:129-140 | the new state is `TickStep` of the old |
| TrainSimulation.Simulation.AcceptSuggestion | src/components/simulation/TrainSimulation.tsx:148-179 | the new state is `AcceptStep` of the old |
| TrainSimulation.Simulation.FireTimer | src/components/simulation/TrainSimulation.tsx:161-167 | the new state is `FireTimerStep` of the old |
| TrainSimulation.Simulation.RejectSuggestion | src/components/simulation/TrainSimulation.tsx:181-185 | the new state is `RejectStep` of the old |
| TrainSimulation.Simulation.ChooseOverride | src/components/simulation/TrainSimulation.tsx:187-201 | the new state is `OverrideStep` of the old |
| TrainSimulation.Simulation.CloseDialog | src/components/simulation/TrainSimulation.tsx:466 | the new state is `DismissStep` of the old |
| TrainSimulation.Simulation.Reset | src/components/simulation/TrainSimulation.tsx:223 | the new state is `ResetStep` of the old |
| TrainSimulation.Simulation.ReceiveTrains | src/components/simulation/TrainSimulation.tsx:124-126 | the new state is `TrainsPropStep` of the old |
| TrainSimulation.Simulation.ReceiveSuggestions | src/components/simulation/TrainSimulation.tsx:145-149 | only the suggestion prop changes |
| TrainSimulation.Simulation.TogglePlaying | src/components/simulation/TrainSimulation.tsx:215 | only `isPlaying` flips |
| TrainSimulation.Simulation.SelectTrain | src/components/simulation/TrainSimulation.tsx:289 | only the selection changes, to that train |
| RealisticSimulation.Increment | src/components/simulation/RealisticTrainSimulation.tsx:240-248 | a moving express/freight/other train advances 1.8/0.84/1.2 per tick; a train in any other status that still ticks (conflict or at a platform) 0.75/0.35/0.5 |
| RealisticSimulation.TickTrain | src/components/simulation/RealisticTrainSimulation.tsx:239-263 | waiting and stopped trains are left as they are; others advance by the increment, capped at 95; past 60 a train with a route moves to its second track; only position and track change |
| RealisticSimulation.TickAll | src/components/simulation/RealisticTrainSimulation.tsx:239-263 | every train is ticked, in place |
| RealisticSimulation.Ticks | src/components/simulation/RealisticTrainSimulation.tsx:235-267 | after any number of ticks only positions and current tracks have changed, and a waiting or stopped train is unchanged |
| RealisticSimulation.TicksMonotoneBounded | src/components/simulation/RealisticTrainSimulation.tsx:239-263 | across any number of ticks a train keeps its id, and its position never decreases or passes 95 |
| RealisticSimulation.TrainsOnTrack | src/components/simulation/RealisticTrainSimulation.tsx:269-270 | exactly the trains whose current track is that one, in order, each as often as in the list |
| RealisticSimulation.FindSuggestion | src/components/simulation/RealisticTrainSimulation.tsx:273 | the first suggestion in the list with that id, or none iff there is none |
| RealisticSimulation.SetStatus | src/components/simulation/RealisticTrainSimulation.tsx:280-292 | the trains with that id get the status; others are unchanged |
| RealisticSimulation.RerouteTrain | src/components/simulation/RealisticTrainSimulation.tsx:299-303 | a truthy alternative sets the target and the route [current, alternative]; otherwise the train is unchanged |
| RealisticSimulation.RerouteTrains | src/components/simulation/RealisticTrainSimulation.tsx:296-306 | only the named train is rerouted |
| RealisticSimulation.StopInvolved | src/components/simulation/RealisticTrainSimulation.tsx:321-326 | the suggestion's train and its affected train are stopped; others are unchanged |
| RealisticSimulation.AutoConflict | src/components/simulation/RealisticTrainSimulation.tsx:328-333 | every moving train is flagged as conflict; others are unchanged |
| RealisticSimulation.ResumeDelayMs | src/components/simulation/RealisticTrainSimulation.tsx:293 | `duration*1000` for a truthy duration, else 3000 |
| RealisticSimulation.Pending | src/components/simulation/RealisticTrainSimulation.tsx:502 | exactly the suggestions whose id is not yet applied, in list order, each as often as in the list |
| RealisticSimulation.TrainBadge | src/components/simulation/RealisticTrainSimulation.tsx:427-467 | the first suggestion naming the train is shown iff it is not applied; a train no suggestion names gets no badge |
| RealisticSimulation.RecommendationsIffPending | src/components/simulation/RealisticTrainSimulation.tsx:494-502 | the recommendation panel is shown iff some suggestion is pending |
| RealisticSimulation.TickStep | src/components/simulation/RealisticTrainSimulation.tsx:235-267 | while playing, every train is ticked; paused, nothing changes |
| RealisticSimulation.AcceptStep | src/components/simulation/RealisticTrainSimulation.tsx:272-309 | an unknown or already-applied id changes nothing; otherwise the id is marked applied, the trains are updated by kind, the parent is notified, and a hold schedules its resume |
| RealisticSimulation.FireTimerStep | src/components/simulation/RealisticTrainSimulation.tsx:287-293 | a pending resume sets its train moving and leaves the queue; other indices change nothing |
| RealisticSimulation.RejectStep | src/components/simulation/RealisticTrainSimulation.tsx:311-315 | the dialog opens on the suggestion with that id; nothing else changes |
| RealisticSimulation.OverrideStep | src/components/simulation/RealisticTrainSimulation.tsx:317-337 | with a current suggestion, trains change by the choice and the parent is notified of the rejection; the dialog always closes and the suggestion is cleared |
| RealisticSimulation.DismissStep | src/components/simulation/RealisticTrainSimulation.tsx:620 | closing the dialog without a choice only hides it: the current suggestion, the trains and the reports are unchanged |
| RealisticSimulation.RejectThenDismiss | src/components/simulation/RealisticTrainSimulation.tsx:620 | a reject followed by closing the dialog changes no train, reports nothing, and leaves the pending suggestions as they were |
| RealisticSimulation.SwitchScenarioStep | src/components/simulation/RealisticTrainSimulation.tsx:339-344 | the scenario's trains and suggestions are loaded and nothing is applied |
| RealisticSimulation.ResetStep | src/components/simulation/RealisticTrainSimulation.tsx:380-384 | the current scenario's trains and suggestions are reloaded and nothing is applied |
| RealisticSimulation.AcceptIdempotent | src/components/simulation/RealisticTrainSimulation.tsx:272-275 | accepting the same suggestion twice is accepting it once |
| RealisticSimulation.HoldThenResume | src/components/simulation/RealisticTrainSimulation.tsx:279-293 | accept-hold then timer: the held train goes waiting then moving, others are untouched, and the queue is restored |
| RealisticSimulation.RerouteOnlyItsTrain | src/components/simulation/RealisticTrainSimulation.tsx:296-306 | a reroute changes only its own train, and only with a truthy alternative track |
| RealisticSimulation.OverrideEffect | src/components/simulation/RealisticTrainSimulation.tsx:317-337 | manual stops exactly the involved trains, auto flags exactly the moving ones, ignore changes nothing; only the status changes |
| RealisticSimulation.ResetMakesAllPending | src/components/simulation/RealisticTrainSimulation.tsx:339-344 | after a reset or scenario switch every suggestion is pending again |
| RealisticSimulation.TrackConflictHold | src/components/simulation/RealisticTrainSimulation.tsx:272-294 | in the shipped track-conflict scenario, accepting `sug1` holds the goods train, leaves the express moving, and schedules its resume at 3000 ms |
| RealisticSimulation.Simulation.constructor | src/components/simulation/RealisticTrainSimulation.tsx:222-230 | track-conflict scenario, playing, nothing applied, no dialog, no timers |
| RealisticSimulation.Simulation.Tick | src/components/simulation/RealisticTrainSimulation.tsx:235-267 | the new state is `TickStep` of the old |
| RealisticSimulation.Simulation.AcceptSuggestion | src/components/simulation/RealisticTrainSimulation.tsx:272-309 | the new state is `AcceptStep` of the old |
| RealisticSimulation.Simulation.FireTimer | src/components/simulation/RealisticTrainSimulation.tsx:287-293 | the new state is `FireTimerStep` of the old |
| RealisticSimulation.Simulation.RejectSuggestion | src/components/simulation/RealisticTrainSimulation.tsx:311-315 | the new state is `RejectStep` of the old |
| RealisticSimulation.Simulation.ChooseOverride | src/components/simulation/RealisticTrainSimulation.tsx:317-337 | the new state is `OverrideStep` of the old |
| RealisticSimulation.Simulation.CloseDialog | src/components/simulation/RealisticTrainSimulation.tsx:620 | the new state is `DismissStep` of the old |
| RealisticSimulation.Simulation.SwitchScenario | src/components/simulation/RealisticTrainSimulation.tsx:339-344 | the new state is `SwitchScenarioStep` of the old |
| RealisticSimulation.Simulation.Reset | src/components/simulation/RealisticTrainSimulation.tsx:380-384 | the new state is `ResetStep` of the old |
| RealisticSimulation.Simulation.TogglePlaying | src/components/simulation/RealisticTrainSimulation.tsx:373 | only `isPlaying` flips |
| RealisticSimulation.Simulation.SelectTrain | src/components/simulation/RealisticTrainSimulation.tsx:447 | only the selection changes |
| Alerts.FilteredAlerts | src/pages/AlertsWarnings.tsx:173-177 | exactly the alerts passing all three filters, in order, each as often as in the list |
| Alerts.ActiveCount | src/pages/AlertsWarnings.tsx:179 | the Active count equals the length of the list shown with the status filter on active; zero iff no alert is active |
| Alerts.CriticalCount | src/pages/AlertsWarnings.tsx:180 | the Critical count equals the length of the list shown with the type filter on critical and the status filter on active; zero iff no active critical alert |
| Alerts.ActionRequiredCount | src/pages/AlertsWarnings.tsx:181 | zero iff no active alert requires action |
| Alerts.AllFiltersShowEverything | src/pages/AlertsWarnings.tsx:169-177 | with all three filters on "all", every alert is shown |
| Alerts.CountersBounded | src/pages/AlertsWarnings.tsx:179-181 | critical ≤ active ≤ all alerts, and action-required ≤ active |
| Alerts.Mark | src/pages/AlertsWarnings.tsx:183-207 | the new status, stamped "Current User" / "Just now"; other fields kept |
| Alerts.MarkId | src/pages/AlertsWarnings.tsx:183-207 | every alert with the id is marked; the others are unchanged |
| Alerts.Acknowledge | src/pages/AlertsWarnings.tsx:183-194 | alerts with the id become acknowledged and stamped; others are unchanged |
| Alerts.Resolve | src/pages/AlertsWarnings.tsx:196-207 | alerts with the id become resolved and stamped; others are unchanged |
| Alerts.MarkIdempotentAndUnknown | src/pages/AlertsWarnings.tsx:183-207 | acknowledging or resolving twice is the same as once; an unknown id changes nothing |
| Alerts.OfferedStepMonotone | src/pages/AlertsWarnings.tsx:404-439 | with unique ids, a button that is shown never moves an alert back along active → acknowledged → resolved |
| Alerts.Run | src/pages/AlertsWarnings.tsx:183-207 | a sequence of presses keeps the number of alerts |
| Alerts.RunMonotone | src/pages/AlertsWarnings.tsx:404-439 | over any sequence of shown buttons, each alert keeps its id and its status never regresses |
| Alerts.SharedIdRegresses | src/pages/AlertsWarnings.tsx:183-194 | with two alerts sharing an id, acknowledging the active one drags a resolved one back to acknowledged |
| Alerts.MockIdsUnique | src/pages/AlertsWarnings.tsx:42-123 | the shipped alerts have distinct ids, so the lifecycle result applies to them |
| Alerts.AlertsPage.constructor | src/pages/AlertsWarnings.tsx:168-171 | the mock alerts, with every filter on "all" |
| Alerts.AlertsPage.AcknowledgeAlert | src/pages/AlertsWarnings.tsx:183-194 | alerts become `Acknowledge` of the old; the filters are kept |
| Alerts.AlertsPage.ResolveAlert | src/pages/AlertsWarnings.tsx:196-207 | alerts become `Resolve` of the old; the filters are kept |
| Alerts.AlertsPage.SetFilters | src/pages/AlertsWarnings.tsx:169-171 | only the filters change |
| Alerts.AlertsPage.ClearFilters | src/pages/AlertsWarnings.tsx:315-319 | the filters reset to "all", and the visible list is then every alert |
| Settings.SettingsObject.With | src/pages/SystemSettings.tsx:127-136 | the named section is replaced; the other four are kept |
| Settings.Update | src/pages/SystemSettings.tsx:127-136 | that key of that section holds the value (added if missing); every other key and section is kept |
| Settings.UpdateSameValue | src/pages/SystemSettings.tsx:127-136 | writing the value already held leaves the settings as they were |
| Settings.UpdatesCommute | src/pages/SystemSettings.tsx:127-136 | updates of different keys commute |
| Settings.SectionsDetermine | src/pages/SystemSettings.tsx:127-136 | two settings objects with the same five sections are equal |
| Settings.EditProfile | src/pages/SystemSettings.tsx:221-246 | only the edited one of name/email/phone changes; employee id, department, role and join date are kept |
| Settings.EditsKeepFixedFields | src/pages/SystemSettings.tsx:226-263 | after any sequence of edits the disabled fields hold their original values |
| Settings.EditAll | src/pages/SystemSettings.tsx:221-246 | the profile after a list of edits is the last edit applied to the profile after the earlier ones |
| Settings.EditedFieldValue | src/pages/SystemSettings.tsx:221-246 | one edit changes the value of its own field only |
| Settings.EditsLastWins | src/pages/SystemSettings.tsx:221-246 | an input shows the last value typed into it |
| Settings.EditsUntouched | src/pages/SystemSettings.tsx:221-246 | an input never typed into keeps its original value |
| Settings.SettingsPage.constructor | src/pages/SystemSettings.tsx:122-125 | defaults, mock profile, password hidden, clean |
| Settings.SettingsPage.UpdateSetting | src/pages/SystemSettings.tsx:127-136 | settings become `Update` of the old; always dirty; keeps "clean ⇒ settings are the last saved" |
| Settings.SettingsPage.SaveSettings | src/pages/SystemSettings.tsx:138-142 | logs the settings, and the page becomes clean |
| Settings.SettingsPage.ResetSettings | src/pages/SystemSettings.tsx:144-147 | settings become the defaults, and the page is dirty |
| Settings.SettingsPage.EditProfileField | src/pages/SystemSettings.tsx:221-246 | the profile becomes `EditProfile` of the old; settings and dirty flag are kept |
| Settings.SettingsPage.ToggleShowPassword | src/pages/SystemSettings.tsx:284 | only the password visibility flips |
| Tracking.FilteredTrains | src/components/tracking/TrainTracking.tsx:139-147 | exactly the trains passing search, type and status, in order, each as often as in the list |
| Tracking.EmptySearchShowsAll | src/components/tracking/TrainTracking.tsx:139-147 | an empty search with both selects on "all" shows every train |
| Tracking.LowerOfUpper | src/components/tracking/TrainTracking.tsx:140-142 | lower-casing an upper-cased term gives the lower-cased term |
| Tracking.NameAndStationIgnoreCase | src/components/tracking/TrainTracking.tsx:140-142 | the name and station tests give the same answer for a term in capitals |
| Tracking.NumberSearchIsCaseSensitive | src/components/tracking/TrainTracking.tsx:141 | the freight train "DFC321" is found by "DFC" but not by "dfc" |
| Tracking.FreightTextsLackF | src/components/tracking/TrainTracking.tsx:140-142 | the lower-cased name and station of the freight train contain no "f", so "dfc" cannot match them |
| Tracking.DelayLabel | src/components/tracking/TrainTracking.tsx:338-351 | "+Nm" when late, "-Nm" when early, and "On time" iff the delay is 0 |
| Tracking.DelayLabelRoundTrip | src/components/tracking/TrainTracking.tsx:338-351 | a non-zero label is sign, digits, "m"; the sign tells late from early and the digits read back as the delay's magnitude |
| Tracking.HighDelayIsLate | src/components/tracking/TrainTracking.tsx:338-351 | a train is marked "High Delay" exactly when its label reads "+", a number above 10, then "m" |
| Tracking.TrackingPanel.constructor | src/components/tracking/TrainTracking.tsx:132-136 | the mock trains, empty search, both selects on "all", nothing selected |
| Tracking.TrackingPanel.SetSearchTerm | src/components/tracking/TrainTracking.tsx:132 | only the search term changes |
| Tracking.TrackingPanel.SetFilters | src/components/tracking/TrainTracking.tsx:133-134 | only the two selects change |
| Tracking.TrackingPanel.ClickTrain | src/components/tracking/TrainTracking.tsx:254-289 | the selection toggles; nothing else changes |
| Team.FirstChars | src/pages/TeamManagement.tsx:120 | one character per non-empty piece, in order: the i-th is the first character of the i-th non-empty piece |
| Team.FirstCharsAvoid | src/pages/TeamManagement.tsx:120 | a character that no piece contains is not among the first characters |
| Team.Initials | src/pages/TeamManagement.tsx:119-121 | one initial per non-empty word, in order: the i-th is the upper-cased first character of the i-th non-empty word; never a space, and no more than the pieces of the split |
| Team.InitialsOfTwoWords | src/pages/TeamManagement.tsx:119-121 | "First Last" gives the two upper-cased first letters, in order |
| Team.OnDutyCount | src/pages/TeamManagement.tsx:123 | at most the team size; zero iff nobody is on duty |
| Team.OnlineCount | src/pages/TeamManagement.tsx:124 | at most the team size; zero iff nobody is online or on duty |
| Team.CountersOrdered | src/pages/TeamManagement.tsx:123-124 | on duty ≤ online ≤ team size |
| Team.ControllersCount | src/pages/TeamManagement.tsx:275 | at most the team size; zero iff no role name contains "Controller" |
| Team.ControllerRoles | src/pages/TeamManagement.tsx:275 | a role name contains "Controller" iff it is a section or an assistant controller |
| Team.ControllersCountByRole | src/pages/TeamManagement.tsx:275 | the Controllers figure is the number of section controllers plus the number of assistant controllers |
| Team.ShiftMembers | src/pages/TeamManagement.tsx:377 | exactly the members of that shift, in order, each as many times as in the team |
| Team.ShiftsPartition | src/pages/TeamManagement.tsx:376-377 | each member is in the group of its own shift only, and the three group sizes add up to the team size |
| Team.Dedup | src/pages/TeamManagement.tsx:416 | no value twice, the same values as the input, listed in order of first appearance in the input |
| Team.FirstIndexAppend | src/pages/TeamManagement.tsx:416 | appending a value does not move the first appearance of a value already present |
| Team.AllPermissions | src/pages/TeamManagement.tsx:416 | exactly the permissions some listed member has |
| Team.RolePermissions | src/pages/TeamManagement.tsx:414-416 | a role's list has no duplicates |
| Team.RolePermissionsExact | src/pages/TeamManagement.tsx:414-416 | a permission is listed for a role iff some member of that role has it |
| StationTypes.PlatformsWith | src/components/station/StationVisualization.tsx:237-246 | exactly the platforms with that status, in order, each as many times as in the list |
| StationTypes.StatusCountsPartition | src/components/station/StationVisualization.tsx:237-246 | the four status counts add up to the number of platforms |
| StationVisualization.TrainOnPlatform | src/components/station/StationVisualization.tsx:73-76 | the first train in list order standing (arrived or delayed) at that platform; none iff there is no such train |
| StationVisualization.TrainOnPlatformStatus | src/components/station/StationVisualization.tsx:74-75 | the lookup never returns an approaching, on-time or departed train, or a train of another platform |
| StationVisualization.ApproachingTrains | src/components/station/StationVisualization.tsx:188 | exactly the approaching trains, in order, each as often as in the list |
| StationVisualization.ApproachingDisjointFromPlatform | src/components/station/StationVisualization.tsx:73-188 | the train drawn at a platform is never on the approaching list, and the approaching trains plus those at one platform never outnumber the schedule |
| StationVisualization.CountersBounded | src/components/station/StationVisualization.tsx:237-246 | free + occupied + maintenance = platforms − reserved ≤ platforms |
| PlatformStatus.StatusText | src/components/station/PlatformStatus.tsx:41-49 | each status has a non-empty badge |
| PlatformStatus.StatusTextInjective | src/components/station/PlatformStatus.tsx:41-49 | two statuses share a badge iff they are the same status |
| PlatformStatus.LowerFirstIsStrictTotalOrder | src/components/station/PlatformStatus.tsx:51 | the comparator `a.number - b.number` orders numbers strictly and totally |
| PlatformStatus.SortedPlatforms | src/components/station/PlatformStatus.tsx:51 | a permutation of the platforms in ascending number order |
| PlatformStatus.SortedPlatformsStable | src/components/station/PlatformStatus.tsx:51 | platforms with the same number keep their relative order |
| PlatformStatus.DetailsExclusive | src/components/station/PlatformStatus.tsx:88-118 | at most one detail block per card; the current train only on an occupied platform with a name, "Reserved for" only on a reserved platform with a next train, and the clear time only with the current train |
| PlatformStatus.SummaryBounded | src/components/station/PlatformStatus.tsx:129-139 | Available + Occupied = platforms − maintenance − reserved ≤ platforms |
| PlatformStatus.SortingKeepsCounts | src/components/station/PlatformStatus.tsx:129-139 | sorting for display leaves every status count as it was |
| TrainSchedule.SortedTrains | src/components/station/TrainSchedule.tsx:46-49 | a permutation of the trains in which no train is scheduled before one listed earlier |
| TrainSchedule.SortedTrainsStable | src/components/station/TrainSchedule.tsx:46-49 | trains scheduled at the same time keep their relative order |
| TrainSchedule.ClockOrderIsChronological | src/components/station/TrainSchedule.tsx:48 | for zero-padded "HH:MM" times, text order is time order, both ways |
| TrainSchedule.SortedTrainsChronological | src/components/station/TrainSchedule.tsx:46-49 | when every time is "HH:MM", the schedule is in chronological order |
| TrainSchedule.StateNameShape | src/components/station/TrainSchedule.tsx:15 | status spellings have no space or capital letter, and only `on_time` has an underscore |
| TrainSchedule.StatusLabel | src/components/station/TrainSchedule.tsx:91 | same length as the status, no underscore, and a status without one is just upper-cased |
| TrainSchedule.OnTimeLabel | src/components/station/TrainSchedule.tsx:91 | `on_time` is shown as "ON TIME" |
| TrainSchedule.SpacedOnTime | src/components/station/TrainSchedule.tsx:91 | replacing the first underscore of `on_time` gives "on time" |
| TrainSchedule.UpperOnTime | src/components/station/TrainSchedule.tsx:91 | "on time" upper-cased is "ON TIME" |
| TrainSchedule.StatusLabelRoundTrip | src/components/station/TrainSchedule.tsx:91 | lower-casing the label and turning its first space back into `_` gives the status |
| TrainSchedule.KindLabel | src/components/station/TrainSchedule.tsx:88 | the type name with each letter in capitals, same length; lower-casing it gives the type name back |
| TrainSchedule.KindLabelInjective | src/components/station/TrainSchedule.tsx:88 | two train types with the same badge are the same type |
| TrainSchedule.DelayNote | src/components/station/TrainSchedule.tsx:97-101 | a note is shown iff the delay is positive |
| TrainSchedule.DelayNoteReadsBack | src/components/station/TrainSchedule.tsx:97-101 | the note is "Delayed +", digits, "m", and the digits read back as the delay |
| StationMaster.DismissRemovesThatOne | src/pages/StationMasterDashboard.tsx:265-271 | among distinct recommendations, the clicked one is gone and every other is kept |
| StationMaster.PanelAfterRemoval | src/pages/StationMasterDashboard.tsx:240-271 | any run of Dismiss/Apply clicks only removes recommendations, at most one per click, so the panel stays while there were fewer clicks than recommendations; one click on the only one hides it |
| StationMaster.MockPlatformLookup | src/pages/StationMasterDashboard.tsx:74-123 | in the shipped data the delayed Rajdhani is drawn on platform 1, and nothing on platform 2 (its train has departed) |
| StationMaster.StationMasterPage.constructor | src/pages/StationMasterDashboard.tsx:137-143 | the mock station, trains and platforms and the two recommendations, so the panel is shown |
| StationMaster.StationMasterPage.Dismiss | src/pages/StationMasterDashboard.tsx:265 | the list loses exactly the element at that index, keeping order (one shorter); an out-of-range index keeps it |
| StationMaster.StationMasterPage.Apply | src/pages/StationMasterDashboard.tsx:271 | exactly the same update as Dismiss |
| Assistant.GenerateResponse | src/components/ai/AIAssistant.tsx:127-135 | the reply is one of the four fixed texts |
| Assistant.EveryResponseReachable | src/components/ai/AIAssistant.tsx:134 | each of the four texts is chosen for a quarter of the random range |
| Assistant.Confidence | src/components/ai/AIAssistant.tsx:120 | the confidence lies in [80, 99] |
| Assistant.EveryConfidenceReachable | src/components/ai/AIAssistant.tsx:120 | every value from 80 to 99 can occur |
| Assistant.Reply | src/components/ai/AIAssistant.tsx:115-122 | a reply is from the AI, tagged `info`, with one of the four texts and a confidence in [80, 99] |
| Assistant.CanSendIffNotBlank | src/components/ai/AIAssistant.tsx:101 | Send is enabled (and a send goes through) iff the input is not all white space |
| Assistant.VisibleFirstCanSend | src/components/ai/AIAssistant.tsx:101 | input whose first character is not white space can always be sent |
| Assistant.QuickPromptsCanBeSent | src/components/ai/AIAssistant.tsx:285-303 | every quick-action prompt leaves Send enabled |
| Assistant.TypeStep | src/components/ai/AIAssistant.tsx:265 | only the input changes |
| Assistant.SendStep | src/components/ai/AIAssistant.tsx:100-112 | blank input changes nothing; otherwise the untrimmed input is appended as a user message, the box is cleared and one reply is scheduled |
| Assistant.DeliverStep | src/components/ai/AIAssistant.tsx:114-124 | a scheduled reply is appended at the end; with none scheduled nothing happens |
| Assistant.StepKeepsHistory | src/components/ai/AIAssistant.tsx:110-123 | one action keeps the earlier log as an unchanged prefix, and user messages added = replies added + change in pending replies |
| Assistant.RunKeepsHistory | src/components/ai/AIAssistant.tsx:110-123 | across any sequence of actions the earlier log is an unchanged prefix, and user messages added = replies added + replies still pending |
| Assistant.InsightColor | src/components/ai/AIAssistant.tsx:146-150 | 'high' ↦ destructive, 'medium' ↦ warning, anything else ↦ primary, each iff; the type plays no part |
| Assistant.AssistantPanel.constructor | src/components/ai/AIAssistant.tsx:96-98 | the three mock messages, an empty input, no pending reply, the mock insights |
| Assistant.AssistantPanel.SetInput | src/components/ai/AIAssistant.tsx:265 | the new state is `TypeStep` of the old |
| Assistant.AssistantPanel.ChooseQuickAction | src/components/ai/AIAssistant.tsx:285-303 | the input becomes the prompt; the log is unchanged (nothing is sent) |
| Assistant.AssistantPanel.SendMessage | src/components/ai/AIAssistant.tsx:100-112 | the new state is `SendStep` of the old |
| Assistant.AssistantPanel.DeliverReply | src/components/ai/AIAssistant.tsx:114-124 | the new state is `DeliverStep` of the old |

## Left out

- Timers are not scheduled by the model: the `setInterval` ticks and `setTimeout` callbacks are methods the caller invokes (`Tick`, `FireTimer`, `DeliverReply`), in any order.
- The live-tracking jitter of speed and delay (TrainTracking.tsx:150-161) is random presentation and is not modelled. So is the random choice of the animated train (StationVisualization.tsx:79-97), with its `animatingTrains` set.
- `Math.random()` in the assistant is a parameter in [0, 1). `Date.now()` ids and `toLocaleTimeString` timestamps are parameters too.
- Train positions and increments are exact `real` numbers, not IEEE doubles. Rounding of 1.5·1.2 and similar products is not modelled.
- `localeCompare` is modelled as code-unit order (`Sorting.StrLess`). ICU collation differs on mixed-case and accented text; on the zero-padded "HH:MM" times the schedule sorts, the two agree.
- `toLowerCase`/`toUpperCase` are modelled for ASCII letters only. Other scripts are left unchanged.
- `trim` uses the ECMAScript white-space and line-terminator set, as written in `Text.IsSpace`.
- The settings page's `min`/`max` input attributes are not enforced by the page and are not modelled.
- Fractional numeric entries such as "2.5", which `Number(e.target.value)` accepts for the timeout, threshold and retention inputs (src/pages/SystemSettings.tsx:409, 424, 615), are not modelled, because `Value.Number` holds integers; the `NaN` such an input gives for non-numeric text is not modelled either.
- Latitude, longitude and the map projection of the tracking panel are carried as data only.
- The AI insights are constant data, and `onSuggestionApply` is never called by the assistant.
- Colour and icon selection by status or type is not modelled, except for `getInsightColor`.
- Station summary figures (`StationData`, `systemMetrics`) are constant data and are displayed only.
- `LiveTrackSimulation.tsx`, `StationCard.tsx`, the login and landing pages, routing, sidebars, and pages that only render constant arrays hold no logic of their own, and are not part of this model.
- The team page's `selectedMember`/add-member dialog state is not modelled: it has no effect on the members.
- Tracking.TrackingPanel.constructor: does not state that the visible list is every train. That follows from `Tracking.EmptySearchShowsAll`.
