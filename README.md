# Agile coach dashboards — a Dafny model

This project models the logic inside the "agentic agile coach" demo front end. That front end has two kinds of dashboard:

- the delivery-manager (ADM) trackers: sprint delivery, team capacity, risk alerts and the dependency heatmap;
- the Scrum-master pages: team sentiment, the action center, the home page with its login, registration and role routing, and the knowledge-keeper chat.

Every page is a React component. The model keeps each page's state and decision rules and drops the rendering.

- Pages whose handlers update component state become Dafny `class`es. Their fields are the `useState` variables and their methods are the handlers (`modifies this`). Each method states the whole new state.
- The decisions those handlers and renders make become pure functions with characterising `ensures`: which popup appears, which band a value falls in, which nudges are generated, which reply a chat message gets. Lemmas state what the page promises about them.
- React effects are explicit steps. In the delivery tracker the popup effect is `EffectPass`, and `Settle` is the state it reaches. A `setTimeout` callback is a separate method that the runtime calls later (`LoadingTimerFires`, `ChatbotTimerFires`, `ReleaseSuccessTimerFires`, `ActionReplyFires`, `SendReplyFires`).
- Numbers are unbounded integers with the pages' arithmetic written out:
  - the one-decimal sentiment score is held in tenths;
  - the capacity page's `0.5` leave factor is counted in halves;
  - `Math.round` is rounding half up;
  - averaging an empty team gives JavaScript's `NaN`, modelled as `Metric.NaN`. Every band comparison against it is false.
- Supabase calls (sign-in, sign-up, the `user_roles` role lookup, the auth listener) become their outcomes, passed in as parameters.
- Clock readings (`Date.now()`) are parameters too.

Files:

- `common.dfy`: `Option`, `filter` and a keyed `map` with their counting lemmas.
- `sentiment.dfy`: the weekly table and thresholds that the three sentiment pages share.
- One file per page: `delivery_tracker.dfy`, `team_capacity.dfy`, `risk_alerts.dfy`, `dependency_heatmap.dfy`, `sentiment_dashboard.dfy`, `action_center.dfy`, `index_page.dfy`, `knowledge_keeper.dfy`.

Some behaviour of the source is stated as lemmas rather than hidden:

- `ReadinessNotMonotoneInVelocity`: the readiness verdict is not monotone in velocity.
- `ReleaseBlocksLaterAllComplete`: once a release has started, "sprint complete" never pops up again, because starting a new sprint keeps the release flag.
- `EscalationCloseReopensDeadline`: closing the escalation report re-raises the deadline popup.
- `Chat.HandleWelcomeResponse`: answering the welcome dialog skips the chat's greeting.
- `CloseChainEnds`: after choosing a replacement, the capacity page closes every popup.
- The no-sprint popup can only be reached from itself. The only handler that clears `hasActiveSprint` is that popup's own "Cancel" button. The `SprintActive` clauses of the tracker methods state this.

## Model

| member | source | states |
|---|---|---|
| Common.Filter | src/pages/ADMTrackers/RiskAlertsDashboard.tsx:97-98 | `list.filter(p)`: the result is no longer than the input, holds only input elements satisfying `p`, and holds every input element satisfying `p` |
| RiskAlerts.ActiveRisks | src/pages/ADMTrackers/RiskAlertsDashboard.tsx:97 | `activeRisks`: the risks whose status is active, in list order |
| RiskAlerts.ReviewedRisks | src/pages/ADMTrackers/RiskAlertsDashboard.tsx:98 | `reviewedRisks`: the risks whose status is reviewed, in list order |
| RiskAlerts.SnoozeById | src/pages/ADMTrackers/RiskAlertsDashboard.tsx:100-109 | the risks with the id become snoozed until `now` plus one day (86 400 000 ms) with every other field kept; all other risks stay in place unchanged |
| RiskAlerts.ReviewById | src/pages/ADMTrackers/RiskAlertsDashboard.tsx:111-117 | the risks with the id become reviewed with `reviewedAt = now`, other fields kept; all other risks stay unchanged |
| RiskAlerts.AbsentIdUnchanged | src/pages/ADMTrackers/RiskAlertsDashboard.tsx:100-117 | snoozing or reviewing an id that no risk carries leaves the list as it was |
| RiskAlerts.ReviewActiveCounts | src/pages/ADMTrackers/RiskAlertsDashboard.tsx:97-117 | with unique ids, reviewing an active risk moves it from the active view to the reviewed view: active count minus one, reviewed count plus one |
| RiskAlerts.SnoozeActiveCounts | src/pages/ADMTrackers/RiskAlertsDashboard.tsx:97-109 | with unique ids, snoozing an active risk drops the active count by one and leaves the reviewed count alone |
| RiskAlerts.NotificationTarget | src/pages/ADMTrackers/RiskAlertsDashboard.tsx:222-253 | the notification's risk `activeRisks[0]` exists iff some risk is active, and it is the first active risk in list order |
| RiskAlerts.StylesDistinguish | src/pages/ADMTrackers/RiskAlertsDashboard.tsx:125-152 | distinct severities get distinct pill and icon styles; distinct trends get distinct tones |
| RiskAlerts.SeverityPill | src/pages/ADMTrackers/RiskAlertsDashboard.tsx:125-136 | High gives "border-rose-600 text-rose-600", Medium "border-amber-500 text-amber-600", Low "border-amber-300 text-amber-700" |
| RiskAlerts.SeverityIconColor | src/pages/ADMTrackers/RiskAlertsDashboard.tsx:138-149 | High gives "text-rose-600", Medium "text-amber-500", Low "text-amber-600" |
| RiskAlerts.TrendTone | src/pages/ADMTrackers/RiskAlertsDashboard.tsx:151-152 | Downward gives "text-rose-600", Upward "text-amber-600", any other trend "text-foreground" |
| RiskAlerts.RiskDashboard.constructor | src/pages/ADMTrackers/RiskAlertsDashboard.tsx:49-95 | the page starts on the three seeded risks (unique ids) with the notification shown and no details modal |
| RiskAlerts.RiskDashboard.HandleSnooze | src/pages/ADMTrackers/RiskAlertsDashboard.tsx:100-109 | the list becomes `SnoozeById` of the old list and ids stay unique; notification and details modal both close |
| RiskAlerts.RiskDashboard.HandleReview | src/pages/ADMTrackers/RiskAlertsDashboard.tsx:111-117 | the list becomes `ReviewById` of the old list and ids stay unique; the details modal closes and the notification is kept |
| RiskAlerts.RiskDashboard.HandleViewDetails | src/pages/ADMTrackers/RiskAlertsDashboard.tsx:119-123 | the risk is selected, the details modal opens and the notification closes; risks unchanged |
| RiskAlerts.RiskDashboard.SnoozeFromNotification | src/pages/ADMTrackers/RiskAlertsDashboard.tsx:250-253 | the notification's snooze acts on the first active risk; with unique ids one risk fewer is active and the reviewed count is unchanged |
| RiskAlerts.RiskDashboard.ToggleNotification | src/pages/ADMTrackers/RiskAlertsDashboard.tsx:193-198 | the bell, rendered only while some risk is active, flips the notification and changes nothing else |
| RiskAlerts.RiskDashboard.DismissNotification | src/pages/ADMTrackers/RiskAlertsDashboard.tsx:222-235 | the close button, rendered while the notification is shown and some risk is active, hides the notification; risks, modal and selection unchanged |
| RiskAlerts.RiskDashboard.CloseDetails | src/pages/ADMTrackers/RiskAlertsDashboard.tsx:430-435 | the details modal's close button, rendered while the modal is open on a selected risk, hides the modal; risks, notification and selection unchanged |
| RiskAlerts.SeedReviewFirst | src/pages/ADMTrackers/RiskAlertsDashboard.tsx:49-117 | on the seed list the notification targets risk 1; reviewing it leaves two active risks and one reviewed |
| DependencyHeatmap.ApplyFix | src/pages/ADMTrackers/AgileDependencyHeatmap.tsx:51-56 | dependency 1 becomes medium risk, active and resolved, with its id and teams kept; all others stay in place unchanged |
| DependencyHeatmap.AcceptSuggestion | src/pages/ADMTrackers/AgileDependencyHeatmap.tsx:68-73 | dependency 1 becomes medium risk and resolved, keeping its status; all others unchanged |
| DependencyHeatmap.UpdatesIdempotent | src/pages/ADMTrackers/AgileDependencyHeatmap.tsx:51-73 | pressing either button twice gives the same list as pressing it once |
| DependencyHeatmap.TargetNeverHighAfterUpdate | src/pages/ADMTrackers/AgileDependencyHeatmap.tsx:51-73 | after either action, dependency 1 is not high risk |
| DependencyHeatmap.RecommendationsExact | src/pages/ADMTrackers/AgileDependencyHeatmap.tsx:417 | the recommendations list holds exactly the non-low dependencies, in list order |
| DependencyHeatmap.Recommendations | src/pages/ADMTrackers/AgileDependencyHeatmap.tsx:417 | the "Top Risk Dependencies" list: the dependencies whose risk is not "low", in list order |
| DependencyHeatmap.HighRiskCount | src/pages/ADMTrackers/AgileDependencyHeatmap.tsx:149 | the "N high risk" counter: how many dependencies have risk "high" |
| DependencyHeatmap.UpdateLowersHighCount | src/pages/ADMTrackers/AgileDependencyHeatmap.tsx:149 | with unique ids and dependency 1 high risk, either action lowers the "high risk" counter by exactly one |
| DependencyHeatmap.SeedHighRiskCount | src/pages/ADMTrackers/AgileDependencyHeatmap.tsx:20-25 | on the seed data the counter reads 1, and 0 after either action |
| DependencyHeatmap.RiskLabel | src/pages/ADMTrackers/AgileDependencyHeatmap.tsx:48-49 | the label is "Unknown" exactly when the level is none of high, medium, low |
| DependencyHeatmap.RiskColor | src/pages/ADMTrackers/AgileDependencyHeatmap.tsx:40-47 | the slate fallback colour appears exactly for unknown levels |
| DependencyHeatmap.LevelsDistinguished | src/pages/ADMTrackers/AgileDependencyHeatmap.tsx:40-49 | distinct known levels get distinct labels and colours |
| DependencyHeatmap.Heatmap.constructor | src/pages/ADMTrackers/AgileDependencyHeatmap.tsx:20-25 | the page starts on the seed dependencies (unique ids) with the notification shown |
| DependencyHeatmap.Heatmap.HandleApplyFix | src/pages/ADMTrackers/AgileDependencyHeatmap.tsx:51-56 | dependencies become `ApplyFix` of the old list and ids stay unique; the recommendations modal closes |
| DependencyHeatmap.Heatmap.HandleAcceptSuggestion | src/pages/ADMTrackers/AgileDependencyHeatmap.tsx:68-73 | dependencies become `AcceptSuggestion` of the old list and ids stay unique; the notification hides |
| DependencyHeatmap.Heatmap.OpenRecommendations | src/pages/ADMTrackers/AgileDependencyHeatmap.tsx:109-115 | the header's "AI Recommendations" button (110) and the insights card's "See AI Recommendations" button (204) open the modal; everything else unchanged |
| DependencyHeatmap.Heatmap.CloseRecommendations | src/pages/ADMTrackers/AgileDependencyHeatmap.tsx:409 | the modal's close button, shown while it is open, closes it; everything else unchanged |
| DependencyHeatmap.Heatmap.CloseNotification | src/pages/ADMTrackers/AgileDependencyHeatmap.tsx:323 | the notification's close button, shown while it is shown, hides it; everything else unchanged |
| DependencyHeatmap.Heatmap.CloseChatbot | src/pages/ADMTrackers/AgileDependencyHeatmap.tsx:540-548 | "No, later" and the close button, shown while the panel is open, hide it; everything else unchanged |
| DependencyHeatmap.Heatmap.ChatbotTimerFires | src/pages/ADMTrackers/AgileDependencyHeatmap.tsx:51-73 | the delayed callback of both actions opens the chatbot and changes nothing else |
| TeamCapacity.RoundHalfUp | src/pages/ADMTrackers/TeamCapacityTracker.tsx:40-48 | `Math.round(num / den)`: the result is the integer whose half-open rounding interval contains `num / den` |
| TeamCapacity.RoundHalvedAtMost | src/pages/ADMTrackers/TeamCapacityTracker.tsx:40-48 | rounding is monotone when a numerator at most doubles and the denominator doubles |
| TeamCapacity.AverageBandwidth | src/pages/ADMTrackers/TeamCapacityTracker.tsx:40-48 | NaN exactly for an empty team, otherwise the rounded mean bandwidth |
| TeamCapacity.TotalBandwidth | src/pages/ADMTrackers/TeamCapacityTracker.tsx:41 | the `reduce` sum of the members' bandwidths |
| TeamCapacity.AdjustedHalves | src/pages/ADMTrackers/TeamCapacityTracker.tsx:46 | the `reduce` sum with members on leave at half, counted in halves (on leave adds the bandwidth, anyone else twice it) |
| TeamCapacity.AdjustedCapacity | src/pages/ADMTrackers/TeamCapacityTracker.tsx:40-48 | NaN exactly for an empty team, otherwise the rounded mean with members on leave counted at half |
| TeamCapacity.AdjustedHalvesBound | src/pages/ADMTrackers/TeamCapacityTracker.tsx:40-48 | for non-negative bandwidths, the leave-adjusted total never exceeds the raw total |
| TeamCapacity.AdjustedNeverExceedsAverage | src/pages/ADMTrackers/TeamCapacityTracker.tsx:40-48 | both metrics are NaN together, and adjusted capacity never exceeds the average bandwidth |
| TeamCapacity.SeedMetrics | src/pages/ADMTrackers/TeamCapacityTracker.tsx:20-48 | the seed team's metrics are 78% average bandwidth and 73% adjusted capacity |
| TeamCapacity.Band | src/pages/ADMTrackers/TeamCapacityTracker.tsx:51-62 | red iff on leave or above 90, amber iff 75..90 and present, green iff below 75 and present |
| TeamCapacity.StylesAgree | src/pages/ADMTrackers/TeamCapacityTracker.tsx:51-62 | bar colour, text colour and dot icon each tell the three bands apart |
| TeamCapacity.BarColor | src/pages/ADMTrackers/TeamCapacityTracker.tsx:51-55 | red "bg-rose-600", amber "bg-amber-500", green "bg-emerald-600" |
| TeamCapacity.TextColor | src/pages/ADMTrackers/TeamCapacityTracker.tsx:56-60 | red "text-rose-600", amber "text-amber-600", green "text-emerald-600" |
| TeamCapacity.DotIcon | src/pages/ADMTrackers/TeamCapacityTracker.tsx:61-62 | red the red circle, amber the yellow circle, green the green circle |
| TeamCapacity.MeterTone | src/pages/ADMTrackers/TeamCapacityTracker.tsx:270-284 | the meters' tone: red iff the metric is a number above 90, amber iff 75 to 90, green iff below 75 or NaN (an empty team's meters show green) |
| TeamCapacity.BandwidthCheck | src/pages/ADMTrackers/TeamCapacityTracker.tsx:91-120 | underutilised iff below 70, balanced iff 70..90, overload iff above 90 or NaN |
| TeamCapacity.CapacityAssessment | src/pages/ADMTrackers/TeamCapacityTracker.tsx:159-189 | delivery risk iff below 80, slightly constrained iff 80..95, optimal iff above 95 or NaN |
| TeamCapacity.SeedBands | src/pages/ADMTrackers/TeamCapacityTracker.tsx:91-189 | the seed team is "balanced" but at "delivery risk" |
| TeamCapacity.StatusCounts | src/pages/ADMTrackers/TeamCapacityTracker.tsx:292-294 | available and on-leave counts never exceed the team size, and every available member is eligible as a replacement |
| TeamCapacity.IsAvailable | src/pages/ADMTrackers/TeamCapacityTracker.tsx:292 | counted as available: not on leave and below 75% |
| TeamCapacity.IsEligible | src/pages/ADMTrackers/TeamCapacityTracker.tsx:139 | offered as a replacement: not on leave and below 85% |
| TeamCapacity.Insert | src/pages/ADMTrackers/TeamCapacityTracker.tsx:140 | inserting into a bandwidth-sorted list keeps it sorted and adds exactly the member |
| TeamCapacity.SortByBandwidth | src/pages/ADMTrackers/TeamCapacityTracker.tsx:140 | the result is sorted by bandwidth and is a permutation of the input |
| TeamCapacity.InsertStable | src/pages/ADMTrackers/TeamCapacityTracker.tsx:140 | inserting a member into a sorted list puts it after every member of the same bandwidth |
| TeamCapacity.SortByBandwidthStable | src/pages/ADMTrackers/TeamCapacityTracker.tsx:140 | the sort is stable: for every bandwidth, the members with it keep their input order |
| TeamCapacity.ReplacementCandidates | src/pages/ADMTrackers/TeamCapacityTracker.tsx:138-142 | at most three present members below 85%, sorted by bandwidth, drawn from the team, exactly min(3, eligible) of them |
| TeamCapacity.CandidatesPrefix | src/pages/ADMTrackers/TeamCapacityTracker.tsx:138-142 | the candidates are the first entries of the sorted eligible list, so no member is offered more often than the team lists it |
| TeamCapacity.CandidatesAreLeastLoaded | src/pages/ADMTrackers/TeamCapacityTracker.tsx:138-142 | an eligible member lighter than some candidate is itself a candidate |
| TeamCapacity.SeedCandidates | src/pages/ADMTrackers/TeamCapacityTracker.tsx:20-27 | the seed team offers two replacement candidates |
| TeamCapacity.AfterClose | src/pages/ADMTrackers/TeamCapacityTracker.tsx:69-79 | closing the welcome keeps it; closing the bandwidth check shows leave-detected or no-leave by whether someone is on leave; those lead to the assessment; anything else closes |
| TeamCapacity.CloseChainEnds | src/pages/ADMTrackers/TeamCapacityTracker.tsx:69-79 | from the bandwidth check, two closes reach the assessment and a third closes the popup |
| TeamCapacity.CapacityTracker.constructor | src/pages/ADMTrackers/TeamCapacityTracker.tsx:29-31 | the page starts loading, with the welcome popup, an empty team and zero metrics |
| TeamCapacity.CapacityTracker.CalculateMetrics | src/pages/ADMTrackers/TeamCapacityTracker.tsx:40-48 | the metrics become `AverageBandwidth` and `AdjustedCapacity` of the data |
| TeamCapacity.CapacityTracker.LoadingTimerFires | src/pages/ADMTrackers/TeamCapacityTracker.tsx:31-36 | the seed team loads, the dashboard shows, the bandwidth check pops up, and the metrics are 78 and 73 |
| TeamCapacity.CapacityTracker.ClosePopup | src/pages/ADMTrackers/TeamCapacityTracker.tsx:69-79 | the popup becomes `AfterClose` of the old one; data and metrics unchanged |
| TeamCapacity.CapacityTracker.HandleAlert | src/pages/ADMTrackers/TeamCapacityTracker.tsx:64-67 | a popup action closes the popup |
| TeamCapacity.CapacityTracker.AdjustCapacity | src/pages/ADMTrackers/TeamCapacityTracker.tsx:129 | "Adjust Capacity" opens the replacement selection |
| TeamCapacity.CapacityTracker.ChooseReplacement | src/pages/ADMTrackers/TeamCapacityTracker.tsx:144-148 | picking a candidate ends with no popup, because `closePopup` reads the stale selection popup |
| TeamCapacity.CapacityTracker.RunAssessment | src/pages/ADMTrackers/TeamCapacityTracker.tsx:370-375 | "Run Assessment" opens the capacity assessment popup; data and metrics unchanged |
| Sentiment.GetStatus | src/pages/ScrumTrackers/TeamSentimentDashboard.tsx:27-44 | healthy iff score at least 4.0, moderate iff 3.0 up to 4.0, at risk iff below 3.0 |
| Sentiment.MetricStatus | src/pages/ScrumTrackers/TeamSentimentDashboard.tsx:54-65 | good iff at or above the metric's green threshold, warn iff between yellow and green, bad iff below yellow |
| Sentiment.SentimentPillMatchesStatus | src/pages/ScrumTrackers/TeamSentimentDashboard.tsx:27-65 | the sentiment pill's tone and the status banner band every score the same way |
| Sentiment.MetricPill | src/pages/ScrumTrackers/TeamSentimentDashboard.tsx:48-52 | good gives the emerald pill, warn the amber pill, bad the rose pill |
| Sentiment.NoSuddenDropInSeed | src/pages/ScrumTrackers/ActionCenterPage.tsx:16-21 | no week of the shipped table drops by 1.5 or more |
| Sentiment.SuddenDropIn | src/pages/ScrumTrackers/ActionCenterPage.tsx:87-90 | a week after the first whose sentiment is at least 1.5 (15 tenths) below the previous week's |
| SentimentDashboard.GenerateNudges | src/pages/ScrumTrackers/TeamSentimentDashboard.tsx:67-83 | exactly one nudge, urgent or positive, with no priority |
| SentimentDashboard.NudgeMatchesBanner | src/pages/ScrumTrackers/TeamSentimentDashboard.tsx:27-83 | the nudge is urgent iff the status is at risk, positive otherwise |
| SentimentDashboard.SeedWeeksFirstAndLast | src/pages/ScrumTrackers/TeamSentimentDashboard.tsx:17-22 | week 4 is at risk with the low-morale nudge; week 1 is healthy with the stable nudge |
| ActionCenter.GenerateNudges | src/pages/ScrumTrackers/ActionCenterPage.tsx:51-101 | at most two nudges; the last is the sudden-drop nudge iff the week dropped 1.5 or more since the previous one; never in week 1 |
| ActionCenter.FirstNudgeByBand | src/pages/ScrumTrackers/ActionCenterPage.tsx:60-85 | per band: positive nudge iff productivity at least 95 and attendance above 90 (else nothing but a drop); moderate gives medium attention; low gives high urgent |
| ActionCenter.NudgeCount | src/pages/ScrumTrackers/ActionCenterPage.tsx:51-101 | the count is the band nudges plus one for a drop; no band nudge iff a healthy week misses the bar |
| ActionCenter.SeedHasNoDropNudge | src/pages/ScrumTrackers/ActionCenterPage.tsx:16-21 | on the shipped table every week gets exactly one nudge and never the drop nudge |
| IndexPage.GenerateNudges | src/pages/Index.tsx:37-108 | one to three nudges; the last is the drop nudge iff the week dropped 1.5 or more; no earlier one is |
| IndexPage.NudgesByBand | src/pages/Index.tsx:40-91 | per band: healthy gives positive iff productivity at least 95 and attendance above 90, else happy-but-distracted; moderate adds passive negativity iff attendance below 85; low adds burnout iff two or more absences |
| IndexPage.SeedNudges | src/pages/Index.tsx:20-108 | the four shipped weeks give: positive; one attention; one attention; low morale and burnout |
| IndexPage.RoleOf | src/pages/Index.tsx:360-369 | no role without a row; scrum master iff the row says "scrum_master"; ADM iff "adm" |
| IndexPage.ScreenOf | src/pages/Index.tsx:833-857 | loading iff auth not ready; registration iff on the register page; a dashboard iff on the dashboard page with a user and that role; otherwise login |
| IndexPage.DashboardNeedsUser | src/pages/Index.tsx:833-857 | a dashboard shows only with a signed-in user; without one, off the register page, the login screen shows |
| IndexPage.Session.constructor | src/pages/Index.tsx:345-348 | no user, no role, auth not ready, login page; the loading screen shows |
| IndexPage.Session.AuthStateChanged | src/pages/Index.tsx:354-378 | the user becomes the session's and auth is ready; without a session the role clears and the login screen shows |
| IndexPage.Session.SessionRestored | src/pages/Index.tsx:381-397 | the restored session's user is kept and auth is ready; role and page unchanged |
| IndexPage.Session.RoleLookupCompleted | src/pages/Index.tsx:360-369 | the role becomes `RoleOf` the row and the page becomes the dashboard |
| IndexPage.Session.HandleLogout | src/pages/Index.tsx:403-412 | user and role clear and the page is login; once auth is ready the login screen shows |
| IndexPage.Session.HandleLogin | src/pages/Index.tsx:566-603 | failure changes nothing; success sets the fetched role and the dashboard page, the user arriving via the listener |
| IndexPage.Session.HandleRegister | src/pages/Index.tsx:422-465 | success moves to the dashboard page only; failure changes nothing |
| IndexPage.Session.GoTo | src/pages/Index.tsx:546-548 | the links switch between login and register pages and change nothing else |
| KnowledgeKeeper.TrimStart | src/pages/ScrumTrackers/KnowledgeKeeperChat.tsx:111 | the result is a suffix that starts with non-whitespace (or is empty), and everything cut was whitespace |
| KnowledgeKeeper.TrimEnd | src/pages/ScrumTrackers/KnowledgeKeeperChat.tsx:111 | the result is a prefix that ends with non-whitespace (or is empty), and everything cut was whitespace |
| KnowledgeKeeper.BlankIffAllWhitespace | src/pages/ScrumTrackers/KnowledgeKeeperChat.tsx:111 | `!inputValue.trim()` holds iff every character is whitespace |
| KnowledgeKeeper.LowerChar | src/pages/ScrumTrackers/KnowledgeKeeperChat.tsx:115 | upper-case ASCII letters map to their lower-case letter; every other character is kept |
| KnowledgeKeeper.ToLower | src/pages/ScrumTrackers/KnowledgeKeeperChat.tsx:115 | same length, lowered character by character |
| KnowledgeKeeper.ToLowerIdempotent | src/pages/ScrumTrackers/KnowledgeKeeperChat.tsx:115 | lowering twice equals lowering once; the result has no upper-case letter |
| KnowledgeKeeper.Contains | src/pages/ScrumTrackers/KnowledgeKeeperChat.tsx:118-122 | `includes` holds iff the word occurs at some position |
| KnowledgeKeeper.ContainsPrefix | src/pages/ScrumTrackers/KnowledgeKeeperChat.tsx:118 | a text containing a word contains each prefix of it, so "blocker" implies "block" |
| KnowledgeKeeper.ReplaceFirst | src/pages/ScrumTrackers/KnowledgeKeeperChat.tsx:60 | `replace('-', ' ')` rewrites only the first hyphen, keeping the length; without a hyphen the text is unchanged |
| KnowledgeKeeper.EchoReplacesFirstHyphenOnly | src/pages/ScrumTrackers/KnowledgeKeeperChat.tsx:60 | "show-blockers" echoes as "show blockers", and "a-b-c" as "a b-c" |
| KnowledgeKeeper.RouteOf | src/pages/ScrumTrackers/KnowledgeKeeperChat.tsx:118-133 | blockers iff the text mentions "block" (which covers "blocker"); else retro iff "retro"; else velocity iff "velocity" or "performance"; else help |
| KnowledgeKeeper.RouteMessages | src/pages/ScrumTrackers/KnowledgeKeeperChat.tsx:118-134 | blockers and retro echo the pressed button ("show blockers", "start retro"); velocity offers the dip message with show-velocity and skip; anything else gets the help menu |
| KnowledgeKeeper.RouteAction | src/pages/ScrumTrackers/KnowledgeKeeperChat.tsx:118-134 | the blockers and retro routes press show-blockers and start-retro; the others press no button |
| KnowledgeKeeper.LoweringKeepsOccurrences | src/pages/ScrumTrackers/KnowledgeKeeperChat.tsx:115-118 | a word found in the text is found, lowered, in the lowered text |
| KnowledgeKeeper.RouteIgnoresCase | src/pages/ScrumTrackers/KnowledgeKeeperChat.tsx:115-118 | any casing of "block" in the input routes to blockers |
| KnowledgeKeeper.ActionResponses | src/pages/ScrumTrackers/KnowledgeKeeperChat.tsx:62-107 | every action gets one to three bot messages |
| KnowledgeKeeper.ActionResponseCounts | src/pages/ScrumTrackers/KnowledgeKeeperChat.tsx:62-107 | two replies for summary, blockers, retro and themes; three for velocity; just "got it" for anything unknown |
| KnowledgeKeeper.WelcomeMessages | src/pages/ScrumTrackers/KnowledgeKeeperChat.tsx:40-57 | "yes" gets two bot messages (recall and buttons), anything else one |
| KnowledgeKeeper.OfferedButtonsAnswer | src/pages/ScrumTrackers/KnowledgeKeeperChat.tsx:40-135 | every button the bot offers is one of seven actions: generate-summary, edit-summary, skip, show-themes, show-incidents, create-tasks, show-velocity (edit-summary, skip and show-incidents get only the fallback reply) |
| KnowledgeKeeper.Chat.constructor | src/pages/ScrumTrackers/KnowledgeKeeperChat.tsx:12-15 | closed, no messages, empty input, welcome dialog shown |
| KnowledgeKeeper.Chat.AddMessage | src/pages/ScrumTrackers/KnowledgeKeeperChat.tsx:36-38 | the message is appended and nothing else changes |
| KnowledgeKeeper.Chat.SetOpen | src/pages/ScrumTrackers/KnowledgeKeeperChat.tsx:30-34 | opening an empty chat adds the greeting; otherwise the messages are kept |
| KnowledgeKeeper.Chat.DismissWelcome | src/pages/ScrumTrackers/KnowledgeKeeperChat.tsx:389 | the welcome dialog closes; nothing else changes |
| KnowledgeKeeper.Chat.SetInput | src/pages/ScrumTrackers/KnowledgeKeeperChat.tsx:452-457 | the input box holds the typed text; nothing else changes |
| KnowledgeKeeper.Chat.HandleWelcomeResponse | src/pages/ScrumTrackers/KnowledgeKeeperChat.tsx:40-57 | the dialog closes, the chat opens, the welcome replies are appended, and no greeting follows |
| KnowledgeKeeper.Chat.HandleSendMessage | src/pages/ScrumTrackers/KnowledgeKeeperChat.tsx:110-115 | blank input changes nothing; otherwise the text is appended as a user message, the box clears, and the lowered text is handed to the reply step |
| KnowledgeKeeper.Chat.HandleButtonAction | src/pages/ScrumTrackers/KnowledgeKeeperChat.tsx:59-60 | the action is echoed as a user message with its first hyphen turned into a space |
| KnowledgeKeeper.Chat.ActionReplyFires | src/pages/ScrumTrackers/KnowledgeKeeperChat.tsx:62-107 | the delayed reply appends `ActionResponses(action)` |
| KnowledgeKeeper.Chat.SendReplyFires | src/pages/ScrumTrackers/KnowledgeKeeperChat.tsx:117-134 | the delayed reply appends the route's messages and returns the button action it triggers, if any |
| KnowledgeKeeper.BlockerQuestionTranscript | src/pages/ScrumTrackers/KnowledgeKeeperChat.tsx:117-119 | a question mentioning "block" ends with the echo "show blockers" and the two blocker messages |
| DeliveryTracker.WithItem | src/pages/ADMTrackers/AgileDeliveryTracker.tsx:422-442 | ticking a checklist box sets exactly that item |
| DeliveryTracker.AutoPopup | src/pages/ADMTrackers/AgileDeliveryTracker.tsx:63-87 | deadline missed iff its guard holds; otherwise all-complete, readiness, mid-sprint or behind iff that guard holds (they are exclusive); no popup iff none holds |
| DeliveryTracker.DismissedNeverPicked | src/pages/ADMTrackers/AgileDeliveryTracker.tsx:55-87 | a dismissed popup is never chosen again; nor is all-complete while a release is in progress |
| DeliveryTracker.QuietStates | src/pages/ADMTrackers/AgileDeliveryTracker.tsx:67-77 | at 100% on the deadline, and at 80-99% with more than three days left, no popup is chosen |
| DeliveryTracker.Settle | src/pages/ADMTrackers/AgileDeliveryTracker.tsx:63-87 | the settled popup is a fixed point of the effect; an inactive sprint keeps the popup; an empty or no-sprint slot gets the automatic choice; any other popup stays |
| DeliveryTracker.EffectPass | src/pages/ADMTrackers/AgileDeliveryTracker.tsx:51-87 | one run of the popup effects: an active sprint clears the no-sprint popup, and with no popup shown picks `AutoPopup`; otherwise the popup stays |
| DeliveryTracker.RearmClearsOwnBand | src/pages/ADMTrackers/AgileDeliveryTracker.tsx:653-681 | +10% and -10% clear exactly the dismissal flag of the band they land in and never the deadline flag |
| DeliveryTracker.RearmOnIncrease | src/pages/ADMTrackers/AgileDeliveryTracker.tsx:653-664 | "+ 10% Progress" clears the mid-sprint flag at 50-79, the readiness flag at 80-99, the all-complete flag at 100 |
| DeliveryTracker.RearmOnDecrease | src/pages/ADMTrackers/AgileDeliveryTracker.tsx:670-681 | "- 10% Progress" clears the behind-velocity flag below 50, the mid-sprint flag at 50-79, the readiness flag at 80-99 |
| DeliveryTracker.DismissFlagOf | src/pages/ADMTrackers/AgileDeliveryTracker.tsx:219-371 | each closing button sets its popup's dismissal flag, the velocity report counting as behind-velocity and the readiness result as the readiness check; the other popups set none |
| DeliveryTracker.ClosedPopupStaysClosed | src/pages/ADMTrackers/AgileDeliveryTracker.tsx:219-523 | after a dismissible popup is closed, the effect never picks it again |
| DeliveryTracker.EscalationCloseReopensDeadline | src/pages/ADMTrackers/AgileDeliveryTracker.tsx:565 | closing the escalation report on a missed deadline brings the deadline popup straight back |
| DeliveryTracker.ProgressColor | src/pages/ADMTrackers/AgileDeliveryTracker.tsx:89-95 | rose iff the deadline passed under 100%; else amber below 50, primary 50-79, emerald 80 and up (or at 100) |
| DeliveryTracker.ReadinessOf | src/pages/ADMTrackers/AgileDeliveryTracker.tsx:97-120 | on track iff velocity at least 100 and no blockers; at risk iff velocity below 100 and at most two blockers; critical otherwise |
| DeliveryTracker.ReadinessNotMonotoneInVelocity | src/pages/ADMTrackers/AgileDeliveryTracker.tsx:97-120 | with one or two blockers, velocity 99 is "at risk" but 100 is "critical" |
| DeliveryTracker.Tracker.constructor | src/pages/ADMTrackers/AgileDeliveryTracker.tsx:16-44 | the seed sprint (35%, 5 days 4 hours, velocity 95, one blocker) opens with the behind-velocity popup |
| DeliveryTracker.Tracker.RunEffects | src/pages/ADMTrackers/AgileDeliveryTracker.tsx:51-87 | a sprint that just ended shows the no-sprint popup; otherwise the popup settles |
| DeliveryTracker.Tracker.IncreaseProgress | src/pages/ADMTrackers/AgileDeliveryTracker.tsx:653-664 | completion rises by 10 capped at 100, flags re-arm, the popup settles, and each band's popup appears from an empty slot |
| DeliveryTracker.Tracker.DecreaseProgress | src/pages/ADMTrackers/AgileDeliveryTracker.tsx:670-681 | completion drops by 10 floored at 0, flags re-arm, the popup settles; below 50 the behind popup appears from an empty slot |
| DeliveryTracker.Tracker.SetProgressComplete | src/pages/ADMTrackers/AgileDeliveryTracker.tsx:689-691 | completion is 100 and all-complete re-arms; before the deadline and with no release under way it appears |
| DeliveryTracker.Tracker.MinusDay | src/pages/ADMTrackers/AgileDeliveryTracker.tsx:730-735 | one day fewer (floored at 0); readiness re-arms in the 80-99% band at three days or fewer |
| DeliveryTracker.Tracker.SetTwoDays | src/pages/ADMTrackers/AgileDeliveryTracker.tsx:744-749 | two days and zero hours left; at 80-99% the readiness check appears from an empty slot |
| DeliveryTracker.Tracker.ReachDeadline | src/pages/ADMTrackers/AgileDeliveryTracker.tsx:758-761 | zero days and hours left; under 100% the deadline popup appears from an empty slot |
| DeliveryTracker.Tracker.SetVelocity | src/pages/ADMTrackers/AgileDeliveryTracker.tsx:904 | the velocity input sets the velocity |
| DeliveryTracker.Tracker.SetBlockers | src/pages/ADMTrackers/AgileDeliveryTracker.tsx:920 | the blockers input sets the blocker count |
| DeliveryTracker.Tracker.StartNewSprint | src/pages/ADMTrackers/AgileDeliveryTracker.tsx:122-137 | the seed sprint values return with no dismissals and the behind popup; the release flag and checklist are kept |
| DeliveryTracker.Tracker.CancelNoSprint | src/pages/ADMTrackers/AgileDeliveryTracker.tsx:189-196 | "Cancel" ends the sprint and closes the popup |
| DeliveryTracker.Tracker.FollowUp | src/pages/ADMTrackers/AgileDeliveryTracker.tsx:139-147 | behind leads to the velocity report; all-complete to the checklist with the release started; readiness to its result with the report; deadline to the escalation report |
| DeliveryTracker.Tracker.ClosePopup | src/pages/ADMTrackers/AgileDeliveryTracker.tsx:219-371 | closing sets the popup's dismissal flag and lets the popup settle; a closed dismissible popup does not come back; fireworks stop after the success popup; closing the readiness check (its only way out is "Ignore") always raises the alert icon; on the readiness result "Notify Technical Writer" raises it and the plain "Close" does not |
| DeliveryTracker.Tracker.SetChecklistItem | src/pages/ADMTrackers/AgileDeliveryTracker.tsx:422-442 | the checklist becomes `WithItem` of the old one |
| DeliveryTracker.Tracker.CompleteRelease | src/pages/ADMTrackers/AgileDeliveryTracker.tsx:149-155 | nothing happens unless all three items are ticked; then fireworks start, a success popup is scheduled and the popup settles |
| DeliveryTracker.Tracker.ReleaseSuccessTimerFires | src/pages/ADMTrackers/AgileDeliveryTracker.tsx:149-155 | the scheduled success popup appears |
| DeliveryTracker.ReleaseBlocksLaterAllComplete | src/pages/ADMTrackers/AgileDeliveryTracker.tsx:122-137 | once a release is in progress, all-complete is never chosen, even in a later sprint |

## Left out

- Rendering is not modelled: JSX layout, CSS classes other than the tone choices modelled above, icons, animations, scrolling, toasts and SVG geometry.
- Message timestamps are not modelled. The bot's reply texts are tags (`Reply`), since only their order and count matter to the logic. The text summarising the last sprint is one tag (`SprintRecall`).
- Risk descriptions, metrics, insights, suggested actions and icons are display-only and are not kept. The `default` branches of the severity style maps are unreachable with a closed enumeration.
- The sentiment score is exact in tenths. The pages compare binary floating-point numbers, so a drop written as exactly 1.5 may differ from JavaScript's result by rounding.
- KnowledgeKeeper.ToLower: lowers ASCII letters only; JavaScript's full Unicode `toLowerCase` is not modelled.
- Supabase sign-in, sign-up, role lookup and the auth listener are parameters (their outcomes). Toasts and console logging are left out.
- Timers are explicit later-step methods. Their delays, and any interleaving of two pending timers beyond their count, are not modelled.
- The route-guard hook and the logout handler that the ADM pages import come from other files. They are not part of this model.
- The static text and chart panels of the pages are not modelled.
- The heatmap's other overlay toggles are presentational and not modelled: "Modify Plan", "View in Heatmap", the impact chain, the report (including the chatbot's "Yes, generate report") and the insights panel.
- DeliveryTracker.ProgressColor: the grey `bg-muted-foreground` fallback is not modelled, because it is unreachable: the three tests before it (below 50, 50 to 79, 80 and up) cover every number.
- DeliveryTracker.Tracker.SetVelocity, DeliveryTracker.Tracker.SetBlockers: the inputs are taken as integers, while the page reads them with `Number(e.target.value)` and so can hold fractions or negatives; with the thresholds at 0, 2 and 100 no outcome is lost.
- The delivery page's overlay also blocks clicks on the controls behind it. The model lets the controls run at any time, which allows more sequences than the page does.
- The contents of the readiness result and of the escalation report are display-only. The model keeps only the report's three flags.
- TeamCapacity.CapacityTracker.ChooseReplacement: the toast naming the chosen member is left out; the choice only closes the popup.
