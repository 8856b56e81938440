# Pothole heatmap and civic-issue screens, modelled in Dafny

This project models the logic of a civic-issue reporting app (a React Native
client) and proves properties of that model. It covers four screens:

- **Pothole heatmap** (`heatmap.dfy`, module `PotHoleHeatMap`). Reports are geotagged potholes, each with a severity tag and a report count. Given a reference location, the heatmap keeps the reports within the search radius that match the severity filter. It lays a 10 × 10 grid of centres around the reference point, using the flat rule "1 degree ≈ 111 km". Each cell sums `reports × multiplier / max(d + 0.01, 0.01)` over the kept reports within 0.2 km of its centre. The sum is rounded like `Math.round`, capped at 100, and mapped to one of six colours. A summary gives the total and per-severity counts for the headline cards. `generateHeatmapData` is modelled as the method `GenerateHeatmapData`, with its nested loops and its `forEach` accumulation. The method is proved equal to the function `Heatmap`, and the lemmas are stated about that function.
- **Report capture** (`report_issue.dfy`, module `ReportIssueScreen`). The component's state is the class `ReportFlow`, and each handler is a method that updates its fields. Which of the three screens is rendered is the pure function `SelectScreen`.
- **Profile** (`profile.dfy`, module `ProfileScreen`). The initials `name.split(' ').map(n => n[0]).join('')`, plus the status-badge and achievement-badge style choices.
- **Dashboard** (`dashboard.dfy`, module `DashboardScreen`). The greeting by hour, the priority and status colour tables, and the quick-action navigation target.

`sequences.dfy` (module `Sequences`) gives `Array.prototype.filter` as `Keep`, with its order and counting lemmas. `optional.dfy` holds the `Option` type, which stands for `null`.

Modelling choices:

- Coordinates and intensities are exact `real`s.
- `Math.round(x)` is `(x + 0.5).Floor`. Its contract states "nearest integer, halves rounded up", which is what JavaScript does for negative halves as well.
- The haversine distance is not computed. Every heatmap operation takes it as a parameter `dist`, so each property holds for any distance function. The two worked examples also assume `dist(a, a) = 0`.
- A severity is `High | Medium | Low | Other(tag)`. Reports and filters carry a `ReportSeverity`, whose `Other` tag is never 'high', 'medium' or 'low'. `ParseSeverity` and `SeverityTag` relate it to the source's string tags. `MatchesFilterOnTags` shows that filtering on the parsed values agrees with the source's `===` comparison of strings.
- `Math.random()` in the demo branch is the parameter `rand(row, col, n)`: the `n`-th draw made while cell `(row, col)` is built.

Three behaviours of the heatmap code that the model keeps as written:

- **Empty selection.** An empty selection does not give an all-zero grid. PotHoleHeatMap.js:172-178 fills demo intensities from `Math.random()`. `EmptySelectionShowsDemoRamp` proves that cell (2, 2) then reaches at least 40 whenever its first draw is at most 0.6.
- **Order of the selection.** The selection keeps input order (`FilterReportsInOrder`). The accumulated intensity does not depend on that order (`AccumulatePermutation`). The whole heatmap therefore does not depend on the order of the input reports (`HeatmapIgnoresReportOrder`).
- **Report counts.** `reports` is not checked to be non-negative. The model uses `int`, and the lemmas that need the bound require it.

The grid's centres are not symmetric around the reference point. They run from `ref − r/111` to `ref + 0.8·r/111`, and cell (5, 5), not the middle of the grid, sits on the reference point (`GridCoordinates`, `HeatmapCentredCell`).

## Model

| member | source | states |
|---|---|---|
| `PotHoleHeatMap.ParseSeverity` | app/screens/PotHoleHeatMap.js:148 | reading a severity tag gives a canonical severity whose tag is the original string |
| `PotHoleHeatMap.ParseSeverityTag` | app/screens/PotHoleHeatMap.js:148 | a canonical severity is read back from its own tag (the other half of the round trip) |
| `PotHoleHeatMap.ParseFilter` | app/screens/PotHoleHeatMap.js:29 | the filter is "all severities" exactly for the mode 'all'; otherwise it selects the severity whose tag is the mode |
| `PotHoleHeatMap.MatchesFilterOnTags` | app/screens/PotHoleHeatMap.js:148 | matching on parsed values is exactly `filterMode === 'all' \|\| pothole.severity === filterMode` on the strings |
| `PotHoleHeatMap.SeverityMultiplier` | app/screens/PotHoleHeatMap.js:205-212 | every severity weighs between 1 and 3 |
| `PotHoleHeatMap.MultiplierOfTag` | app/screens/PotHoleHeatMap.js:205-212 | 'high' weighs 3, 'medium' 2, 'low' 1, and every other string takes the default 1 |
| `PotHoleHeatMap.FilterReports` | app/screens/PotHoleHeatMap.js:145-150 | a report is selected exactly when it is in the input, within the radius (`distance <= radius`), and the filter is all or its severity equals the filter's |
| `PotHoleHeatMap.FilterReportsInOrder` | app/screens/PotHoleHeatMap.js:145-150 | selection keeps input order: selecting from `a + b` is selecting from `a` followed by selecting from `b` |
| `PotHoleHeatMap.GridCoordinates` | app/screens/PotHoleHeatMap.js:142-160 | the first centre is `r/111` degrees below the origin, centres are `r/555` degrees (`2·(r/111)/10`) apart, and index 5 is the origin itself |
| `PotHoleHeatMap.CellId` | app/screens/PotHoleHeatMap.js:181 | the key `${row}-${col}` is three characters with the dash in the middle |
| `PotHoleHeatMap.CellIdInjective` | app/screens/PotHoleHeatMap.js:181 | two cells have the same key only if they have the same row and column |
| `PotHoleHeatMap.Max` | app/screens/PotHoleHeatMap.js:168 | `Math.max` gives one of its arguments, and it is at least both |
| `PotHoleHeatMap.AccumulateAppend` | app/screens/PotHoleHeatMap.js:163-170 | the accumulated intensity of `a + b` is the sum of those of `a` and `b` |
| `PotHoleHeatMap.AccumulatePermutation` | app/screens/PotHoleHeatMap.js:163-170 | any reordering of the selected reports gives the same accumulated intensity |
| `PotHoleHeatMap.AccumulateNonNegative` | app/screens/PotHoleHeatMap.js:168 | with non-negative report counts the accumulated intensity is non-negative, because every divisor is at least 0.01 |
| `PotHoleHeatMap.Contribution` | app/screens/PotHoleHeatMap.js:166-169 | a report more than 0.2 km from the cell adds nothing; one at distance 0 adds exactly `reports × multiplier / 0.01`; a non-negative count never adds a negative amount |
| `PotHoleHeatMap.DivideAntitone` | app/screens/PotHoleHeatMap.js:168 | a non-negative weight divided by a larger positive divisor gives no more |
| `PotHoleHeatMap.ContributionDecays` | app/screens/PotHoleHeatMap.js:166-169 | a report adds at least as much to a nearer cell as to a farther one, whatever the distance function, since the divisor `max(d + 0.01, 0.01)` grows with `d` |
| `PotHoleHeatMap.ContributionNonNegative` | app/screens/PotHoleHeatMap.js:168 | a non-negative weight over a divisor of at least 0.01 contributes a non-negative amount |
| `PotHoleHeatMap.AccumulateFar` | app/screens/PotHoleHeatMap.js:164-169 | reports more than 0.2 km from the cell add nothing |
| `PotHoleHeatMap.AccumulateSaturates` | app/screens/PotHoleHeatMap.js:168 | a report with a positive count at distance 0 alone contributes at least `1/0.01 = 100` |
| `PotHoleHeatMap.Round` | app/screens/PotHoleHeatMap.js:184 | `Math.round` gives the integer `n` with `n − 0.5 <= x < n + 0.5` |
| `PotHoleHeatMap.Cap` | app/screens/PotHoleHeatMap.js:184 | `Math.min(n, 100)` is at most 100 and equals `n` unless `n` exceeds 100 |
| `PotHoleHeatMap.RawIntensity` | app/screens/PotHoleHeatMap.js:163-178 | with a non-empty selection the raw intensity is the accumulated sum; with an empty one, and a draw in [0, 1), it is a demo value in [0, 80) |
| `PotHoleHeatMap.CellIntensity` | app/screens/PotHoleHeatMap.js:184 | a stored intensity never exceeds 100 |
| `PotHoleHeatMap.GridCell` | app/screens/PotHoleHeatMap.js:180-187 | the pushed cell carries the key `"row-col"`, its row and column, the grid centre of that row and column, and an intensity of at most 100 |
| `PotHoleHeatMap.Heatmap` | app/screens/PotHoleHeatMap.js:153-189 | the grid always has exactly 100 cells |
| `PotHoleHeatMap.HeatmapIgnoresReportOrder` | app/screens/PotHoleHeatMap.js:140-192 | any reordering of the input reports gives the same 100 cells |
| `PotHoleHeatMap.HeatmapAt` | app/screens/PotHoleHeatMap.js:157-187 | the cell built in iteration (row, col) is the one at index `row·10 + col` |
| `PotHoleHeatMap.SumContributions` | app/screens/PotHoleHeatMap.js:163-170 | the `forEach` loop's running total ends at the accumulated intensity of the selected reports, in order |
| `PotHoleHeatMap.BuildCell` | app/screens/PotHoleHeatMap.js:159-187 | the loop body builds the grid cell: centre from the grid rule, intensity from the sum or the demo branch, rounded and capped |
| `PotHoleHeatMap.GenerateHeatmapData` | app/screens/PotHoleHeatMap.js:140-192 | the nested loops produce exactly the heatmap `Heatmap` specifies |
| `PotHoleHeatMap.HeatmapLayout` | app/screens/PotHoleHeatMap.js:157-186 | cell k has row k/10, column k%10, key `"row-col"` and centre `ref − r/111 + index·step` in both coordinates |
| `PotHoleHeatMap.HeatmapRowMajor` | app/screens/PotHoleHeatMap.js:157-158 | each cell is followed by the next column, or after column 9 by column 0 of the next row |
| `PotHoleHeatMap.HeatmapIdsDistinct` | app/screens/PotHoleHeatMap.js:180-183 | no two of the 100 cells share a key |
| `PotHoleHeatMap.HeatmapCentredCell` | app/screens/PotHoleHeatMap.js:159-160 | cell (5, 5) sits exactly on the reference point |
| `PotHoleHeatMap.HeatmapIntensityBounds` | app/screens/PotHoleHeatMap.js:163-184 | every intensity is at most 100, and at least 0 when report counts are non-negative and random draws lie in [0, 1) |
| `PotHoleHeatMap.HeatmapFarCellIsZero` | app/screens/PotHoleHeatMap.js:163-184 | with a non-empty selection, a cell with no selected report within 0.2 km has intensity 0 |
| `PotHoleHeatMap.HeatmapSaturatedCell` | app/screens/PotHoleHeatMap.js:163-184 | a selected report with a positive count at distance 0 from a cell's centre makes that cell 100 |
| `PotHoleHeatMap.DelhiScenario` | app/screens/PotHoleHeatMap.js:140-192 | 15 high-severity reports at the reference point, radius 1, no filter: the report is selected, cell (5, 5) has raw intensity 4500 (15 × 3 / 0.01) and stores the capped 100, in the top colour band |
| `PotHoleHeatMap.EmptySelectionShowsDemoRamp` | app/screens/PotHoleHeatMap.js:173-178 | with nothing selected and a first draw of at most 0.6, cell (2, 2) gets the demo ramp, at least 40 |
| `PotHoleHeatMap.EmptySelectionDemoCells` | app/screens/PotHoleHeatMap.js:173-178 | with nothing selected, a cell whose first draw exceeds 0.6 gets a value in [0, 80]; outside the 3×3 corner, a first draw of at most 0.6 leaves 0 |
| `PotHoleHeatMap.CountReached` | app/screens/PotHoleHeatMap.js:216-220 | at most all of the cut points are reached |
| `PotHoleHeatMap.BandIndex` | app/screens/PotHoleHeatMap.js:214-221 | the band is one of the six palette entries |
| `PotHoleHeatMap.ThresholdsReached` | app/screens/PotHoleHeatMap.js:216-220 | the cut points 10, 25, 50, 75 are counted one by one |
| `PotHoleHeatMap.HeatmapColor` | app/screens/PotHoleHeatMap.js:214-221 | the colour is the palette entry of the band: 0, then below 10, 25, 50 and 75, then the rest (negatives fall in the second band) |
| `PotHoleHeatMap.CountReachedMonotone` | app/screens/PotHoleHeatMap.js:216-220 | a larger value reaches at least as many cut points |
| `PotHoleHeatMap.BandMonotone` | app/screens/PotHoleHeatMap.js:214-221 | for non-negative intensities, a higher intensity never yields an earlier band |
| `PotHoleHeatMap.PaletteDistinct` | app/screens/PotHoleHeatMap.js:215-220 | the six colours differ, so a colour identifies its band |
| `PotHoleHeatMap.BandBoundaries` | app/screens/PotHoleHeatMap.js:214-221 | bands change exactly at 10, 25, 50 and 75 (0→0, 1 and 9→1, 10 and 24→2, 25 and 49→3, 50 and 74→4, 75 and 100→5) |
| `PotHoleHeatMap.LocationSummary` | app/screens/PotHoleHeatMap.js:242-278 | the summary is null exactly when there is no location, and `filtered` is `filter != 'all'` |
| `PotHoleHeatMap.SummaryTotalIsSelection` | app/screens/PotHoleHeatMap.js:245-272 | the total card counts exactly the reports the heatmap aggregates, whichever the filter |
| `PotHoleHeatMap.SummaryCountsWithinTotal` | app/screens/PotHoleHeatMap.js:257-275 | without a filter, high + medium + low plus the nearby reports of unknown severity equals the total, so the three counts never exceed it |
| `PotHoleHeatMap.SummaryFilteredTotal` | app/screens/PotHoleHeatMap.js:245-272 | with the filter high, medium or low, the total equals that severity's count |
| `PotHoleHeatMap.SummaryCountsIgnoreFilter` | app/screens/PotHoleHeatMap.js:257-269 | the three severity counts are the same whatever the filter |
| `PotHoleHeatMap.LowFilterScenario` | app/screens/PotHoleHeatMap.js:242-278 | filter 'low' with only a high-severity report at the reference point: nothing is selected, total 0, high 1 |
| `Sequences.Keep` | app/screens/PotHoleHeatMap.js:145-150 | `filter` keeps exactly the elements satisfying the predicate, never more elements than the input, a sub-multiset |
| `Sequences.KeepAppend` | app/screens/PotHoleHeatMap.js:145-150 | filtering distributes over concatenation (order is kept) |
| `Sequences.KeepCount` | app/screens/PotHoleHeatMap.js:145-150 | a kept value keeps all its occurrences, and a dropped value keeps none |
| `Sequences.KeepMultiset` | app/screens/PotHoleHeatMap.js:145-150 | filtering two reorderings of the same elements gives reorderings of each other |
| `Sequences.KeepKeep` | app/screens/PotHoleHeatMap.js:257-269 | filtering by radius and then by severity is filtering once by both |
| `Sequences.KeepPartition` | app/screens/PotHoleHeatMap.js:267-269 | when each element satisfies exactly one of four predicates, the four filtered lengths add up to the whole |
| `ReportIssueScreen.NextCountdown` | app/screens/ReportIssueScreen.js:52-58 | the reducer is a saturating decrement: `prev − 1` when positive, otherwise 0, never negative |
| `ReportIssueScreen.CountdownAfterTicks` | app/screens/ReportIssueScreen.js:51-58 | from a non-negative start, n ticks leave `max(start − n, 0)` |
| `ReportIssueScreen.CountdownFromStart` | app/screens/ReportIssueScreen.js:49-58 | started from 2 the countdown stays within 0..2, shows 1 after one tick and 0 from the second tick on |
| `ReportIssueScreen.SelectScreen` | app/screens/ReportIssueScreen.js:111-254 | the initial screen exactly when the camera is closed and there is no video; the camera screen when it is open with no video; the upload screen exactly when a video is present; `return null` is unreachable; the upload panel shows success if uploaded, else a spinner if uploading, else the button. On the camera screen, the permission message shows exactly while the permission is loading, and the grant prompt exactly when it is refused. With permission granted, the viewfinder shows the countdown overlay when `countdown > 0`, "Recording..." when recording with the countdown at 0, and the record button is enabled exactly when not recording |
| `ReportIssueScreen.ReportFlow.constructor` | app/screens/ReportIssueScreen.js:20-26 | the initial state: camera closed, not recording, countdown 0, no video, not uploading, not uploaded, facing 'back' |
| `ReportIssueScreen.ReportFlow.OpenCamera` | app/screens/ReportIssueScreen.js:28-37 | the camera opens when permission was granted or the request is granted; refused, it stays as it was; nothing else changes |
| `ReportIssueScreen.ReportFlow.CloseCamera` | app/screens/ReportIssueScreen.js:191 | the close button closes the camera and changes nothing else |
| `ReportIssueScreen.ReportFlow.RecordingStarted` | app/screens/ReportIssueScreen.js:47-49 | the countdown starts at 2 |
| `ReportIssueScreen.ReportFlow.CountdownTick` | app/screens/ReportIssueScreen.js:51-58 | one tick applies the reducer to the countdown and keeps it within 0..2 |
| `ReportIssueScreen.ReportFlow.FinishRecording` | app/screens/ReportIssueScreen.js:69-84 | afterwards not recording and countdown 0; a truthy URI is stored and closes the camera; on failure the previous video and camera state stay |
| `ReportIssueScreen.ReportFlow.StartRecording` | app/screens/ReportIssueScreen.js:39-42 | the start of `takeVideo`, up to its `await`: recording starts exactly when the camera is ready and no recording is under way; nothing else changes |
| `ReportIssueScreen.ReportFlow.StartUpload` | app/screens/ReportIssueScreen.js:87-89 | does nothing without a video; otherwise uploading becomes true |
| `ReportIssueScreen.ReportFlow.CompleteUpload` | app/screens/ReportIssueScreen.js:90-99 | ends uploaded and not uploading, video and camera untouched |
| `ReportIssueScreen.ReportFlow.UploadVideo` | app/screens/ReportIssueScreen.js:87-100 | with no video nothing changes; otherwise it ends uploaded and not uploading |
| `ReportIssueScreen.ReportFlow.ResetFlow` | app/screens/ReportIssueScreen.js:102-108 | clears the video, uploaded, camera, recording and countdown; leaves uploading and facing; the next render is the initial screen |
| `ReportIssueScreen.CaptureScenario` | app/screens/ReportIssueScreen.js:28-85 | from a fresh state with permission: open the camera, start recording, tap again (ignored, by the guard at line 40), two countdown ticks, a URI arrives. The screens shown are: the enabled record button, the "Recording..." overlay, countdown 2, countdown 1, "Recording..." again, then the upload button |
| `ProfileScreen.Split` | app/screens/ProfileScreen.js:85 | `split(' ')` gives at least one piece, and no piece contains a space |
| `ProfileScreen.JoinSplit` | app/screens/ProfileScreen.js:85 | joining the pieces with single spaces gives back the name |
| `ProfileScreen.SplitJoin` | app/screens/ProfileScreen.js:85 | splitting space-free pieces joined by spaces gives back the pieces |
| `ProfileScreen.FirstChar` | app/screens/ProfileScreen.js:85 | `n[0]` as `join` renders it: the piece's first character, or nothing for the empty piece |
| `ProfileScreen.Initials` | app/screens/ProfileScreen.js:85 | the initials contain no space, and a name that starts with a non-space character starts its initials with that character |
| `ProfileScreen.InitialsAreWordStarts` | app/screens/ProfileScreen.js:85 | the initials are exactly the non-space characters that start the name or follow a space, in order |
| `ProfileScreen.InitialsPerWord` | app/screens/ProfileScreen.js:85 | one initial per non-empty piece, and every initial is the first character of such a piece |
| `ProfileScreen.InitialsOfOneWord` | app/screens/ProfileScreen.js:85 | a name without spaces gives its first character; the empty name gives "" |
| `ProfileScreen.InitialsOfAnshuKumar` | app/screens/ProfileScreen.js:15 | the profile's user "Anshu Kumar" gets the initials "AK" |
| `ProfileScreen.StatusBadgeStyle` | app/screens/ProfileScreen.js:160-167 | the resolved style exactly for the status "Resolved", the in-progress style for any other string |
| `ProfileScreen.BadgeStyle` | app/screens/ProfileScreen.js:134-136 | a badge and its name are drawn disabled exactly when the badge is not earned |
| `DashboardScreen.Greeting` | app/screens/DashboardScreen.js:92-97 | "Good Morning" exactly before 12, "Good Afternoon" exactly from 12 to 16, "Good Evening" exactly from 17 |
| `DashboardScreen.GreetingsFollowTheDay` | app/screens/DashboardScreen.js:92-97 | every hour 0–23 gets one of the three greetings, and a later hour never an earlier greeting |
| `DashboardScreen.PriorityColor` | app/screens/DashboardScreen.js:99-106 | a listed priority gets its table colour, any other string the grey `#6B7280` |
| `DashboardScreen.StatusColor` | app/screens/DashboardScreen.js:108-116 | a listed status gets its table colour, any other string the grey `#6B7280` |
| `DashboardScreen.PriorityColorsDistinguish` | app/screens/DashboardScreen.js:99-106 | the priority colour tells High, Medium and Low apart and from unknown priorities; lower-case "high" is unknown |
| `DashboardScreen.StatusColorsDistinguish` | app/screens/DashboardScreen.js:108-116 | the status colour tells the four statuses apart and from unknown ones |
| `DashboardScreen.QuickActionTarget` | app/screens/DashboardScreen.js:118-127 | route ReportIssue navigates to 'Report Issue', route HeatMap to 'Heat Map', and any other route navigates nowhere |
| `DashboardScreen.QuickActionsOnTheDashboard` | app/screens/DashboardScreen.js:118-127 | of the four quick actions, Report Issue and Heat Map navigate, and Emergency and Feedback do nothing |

## Left out

- The haversine computation of `calculateDistance` (app/screens/PotHoleHeatMap.js:194-203). It needs sine, cosine, arctangent and square root, so the distance is the parameter `dist`. Its properties (zero on equal points, symmetry) are assumed only where a lemma states them as preconditions.
- Floating-point rounding. All arithmetic is exact over `real`.
- The order in which `Math.random()` is consumed. Each cell's draws are indexed by cell and draw number, not taken from one shared stream.
- The React state of the heatmap screen: `setHeatmapData`, `setLocation`, loading and error messages. The model also omits the stale-closure behaviour of `changeRadius` and `changeFilter`, which regenerate with the previously selected radius and filter. The radius and filter are plain parameters instead.
- The location permission and position fetch (`getCurrentLocation`), with its fallback to the default Delhi location. Share, Alert and Animated (`handleEmergency`, `handleShare`, `handleRouteHelp`, `onRefresh`) are also left out. They are input/output with no logic to model.
- The alerts and logging of the capture flow and the dashboard: `Alert.alert` at ReportIssueScreen.js:32, 79, 94 and 96, and `console.log` at ReportIssueScreen.js:78 and DashboardScreen.js:125. They report outcomes the model already states as state changes, and change no state themselves.
- The camera permission hook, `recordAsync`, and the interval and 2-second timeout that stop recording. These are the method parameters `alreadyGranted`, `requestGranted`, `cameraReady` and `video`. `takeVideo` is split at its `await`: `StartRecording` runs before it and `FinishRecording` when `recordAsync` settles. The callbacks in between are the separate methods `RecordingStarted` and `CountdownTick`. The timers themselves, which decide when those callbacks run, are not modelled. The simulated 2-second upload delay is the gap between `StartUpload` and `CompleteUpload`. The error branch of `uploadVideo` is not modelled, because the awaited timer never rejects.
- The dashboard's clock interval and refresh timer. The hour is a parameter of `Greeting`.
- JSX layout, style sheets and mock data. The worked examples use a few mock values: the four quick-action routes (`QuickActionsOnTheDashboard`), mock report 1 at the default Delhi location (`DelhiScenario`, `LowFilterScenario`), and the mock user's name (`InitialsOfAnshuKumar`).
- ProfileScreen.FirstChar: `n[0]` in JavaScript is one UTF-16 code unit, but a Dafny string is a sequence of Unicode scalar values. For a name starting with a character outside the Basic Multilingual Plane (such as "𝒜nshu"), the source renders a lone high surrogate where the model gives the whole character.
- App.js is not part of this model. Note that the 'Heat Map' target of `QuickActionTarget` is not registered among the tab screens at App.js:30-32, so that navigation has no screen to reach.
