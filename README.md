# Predictive-maintenance dashboard: a verified model of its data logic

The dashboard is a React application over mock data. It ranks failure
predictions, filters and sorts equipment, buckets health scores, and schedules
maintenance. It also simulates a live telemetry feed: health scores drift, a
sensor window slides, and an alert list scrolls. This project models that data
logic in Dafny and proves what the screens promise:
- the health, risk and criticality thresholds agree everywhere;
- the filter pipelines keep exactly the right records;
- the sorts are stable permutations in the stated order: items the comparator ranks alike keep their list order;
- the windows and feeds stay bounded;
- the day arithmetic is ceiling and floor division on integer milliseconds.

Where a tick changes state, the model uses classes whose methods are the ticks:
- the equipment store, the sensor stream and the alert feed of the data hook;
- the landing page's demo.

Where the pages sort an array in place, the model sorts an `array` in place.
Everything else is functions on values.

Conventions:
- A health score is a `real` in [0, 1]; the landing page's cards use 0 to 100.
- A timestamp is `int` milliseconds since the epoch.
- The clock (`now`), every `Math.random()` draw and the sine variation of the
  trend chart are parameters.
- A JavaScript comparator `cmp` is modelled as the predicate "`cmp(a, b) <= 0`"
  ("a not after b").
- `Array.prototype.sort` is stable, so every sort is specified by one stable
  insertion sort (`Seqs.InsertionSort`).

Modules, one per source file:
- `Types`: `src/types/equipment.ts`.
- `Formatters`: `src/utils/formatters.ts`.
- `EquipmentData`: `src/hooks/useEquipmentData.ts`.
- `Dashboard`: `src/pages/Dashboard.tsx`.
- `EquipmentPage`: `src/pages/Equipment.tsx`.
- `AlertsPage`: `src/pages/Alerts.tsx`.
- `PredictiveAlerts`: `src/components/dashboard/PredictiveAlerts.tsx`.
- `FailureProbabilityChart`: `src/components/analytics/FailureProbabilityChart.tsx`.
- `HealthTrendChart`: `src/components/analytics/HealthTrendChart.tsx`.
- `MaintenanceSchedule`: `src/components/dashboard/MaintenanceSchedule.tsx`.
- `MaintenancePage`: `src/pages/Maintenance.tsx`.
- `RealTimeMonitor`: `src/components/dashboard/RealTimeMonitor.tsx`.
- `LandingDemo`: `src/pages/Index.tsx`.
- `EquipmentCard`: `src/components/EquipmentCard.tsx`.
- `EquipmentHealthCard`: `src/components/dashboard/EquipmentHealthCard.tsx`.
- `EquipmentDetail`: `src/pages/EquipmentDetail.tsx`.
- `Analytics`: `src/pages/Analytics.tsx`.

Shared modules:
- `HealthStyles` holds the class names the pages derive from a health score,
  with the thresholds written once.
- `Seqs` holds JavaScript's `filter`, `find`, `slice` and stable `sort`.
- `Strings` holds lower-casing, `includes`, `split`/`join` and decimal
  rendering.
- `Optional` holds the `Option` type.

## Model

| member | source | states |
|---|---|---|
| Types.AllStatuses | src/types/equipment.ts:91-97 | there are exactly five equipment statuses |
| Types.EquipmentStatusClosed | src/types/equipment.ts:91-97 | every status value is one of the five |
| Types.AllFailureModes | src/types/equipment.ts:99-107 | there are exactly seven failure modes, `unknown` among them |
| Types.FailureModeClosed | src/types/equipment.ts:99-107 | every failure mode is one of the seven |
| Types.AllPredictionStatuses | src/types/equipment.ts:109-114 | there are exactly four prediction statuses |
| Types.PredictionStatusClosed | src/types/equipment.ts:109-114 | every prediction status is one of the four |
| Types.AllMaintenanceTypes | src/types/equipment.ts:116-121 | there are exactly four maintenance types |
| Types.MaintenanceTypeClosed | src/types/equipment.ts:116-121 | every maintenance type is one of the four |
| Types.AllWorkOrderStatuses | src/types/equipment.ts:123-128 | there are exactly four work-order statuses |
| Types.WorkOrderStatusClosed | src/types/equipment.ts:123-128 | every work-order status is one of the four |
| Types.AllUpdateKinds | src/types/equipment.ts:73-78 | a real-time update has one of exactly four kinds |
| Types.UpdateKindClosed | src/types/equipment.ts:73-78 | every update kind is one of the four |
| Types.ParseStatus | src/types/equipment.ts:91-97 | a string names a status exactly when it is that status's value, so the values are distinct |
| Types.ParseEquipmentType | src/types/equipment.ts:81-89 | a string names an equipment type exactly when it is that type's value |
| Formatters.HealthCategoryOf | src/utils/formatters.ts:42-46 | Critical below 0.6, Warning on [0.6, 0.8), Healthy from 0.8: the three buckets partition the scores, and each boundary goes up |
| Formatters.HealthCategoryMonotone | src/utils/formatters.ts:42-46 | a higher score never lands in a worse bucket |
| Formatters.GetHealthLabel | src/utils/formatters.ts:42-46 | the label is Healthy, Warning or Critical exactly when the score is in that bucket |
| Formatters.GetHealthColor | src/utils/formatters.ts:36-40 | success, warning and destructive exactly when the label is Healthy, Warning and Critical |
| Formatters.GetStatusColor | src/utils/formatters.ts:48-63 | success, warning, primary, destructive and muted exactly for operational, degraded, maintenance, failed and idle; the fallback is never reached |
| Formatters.StatusColorsDistinct | src/utils/formatters.ts:48-63 | the five statuses get five different colours |
| Formatters.GetDaysUntil | src/utils/formatters.ts:65-69 | the result is the ceiling of the distance in days: `(d-1)·day < target-now <= d·day` |
| Formatters.DaysUntilWholeDays | src/utils/formatters.ts:65-69 | a target exactly k days away gives k |
| Formatters.DaysUntilWithinOneDay | src/utils/formatters.ts:65-69 | any target in (now, now + 1 day] gives 1 |
| Formatters.DaysUntilMonotone | src/utils/formatters.ts:65-69 | a later target never gives fewer days |
| Formatters.DaysUntilPast | src/utils/formatters.ts:65-69 | a past target gives zero or less, without failing |
| Formatters.RelativeTimeOf | src/utils/formatters.ts:71-82 | Just now exactly under one minute; otherwise whole minutes below an hour, whole hours below a day, else whole days, each the floor of the elapsed time |
| Formatters.FutureIsJustNow | src/utils/formatters.ts:73-78 | a future date reads "Just now" |
| Formatters.GetRelativeTime | src/utils/formatters.ts:71-82 | "Just now" exactly under one minute; otherwise the elapsed milliseconds divided once by a minute, an hour or a day, followed by "m ago", "h ago" or "d ago" |
| Formatters.RenderInjective | src/utils/formatters.ts:78-81 | two different buckets or counts never render to the same text |
| EquipmentData.HealthStep | src/hooks/useEquipmentData.ts:25 | before clamping, a nudge moves a score by `(r - 0.52)·0.02`, in [-0.0104, 0.0096) |
| EquipmentData.ClampHealth | src/hooks/useEquipmentData.ts:25 | the clamp lands in [0.1, 1], leaves values in range alone and sends the rest to the nearer end |
| EquipmentData.NudgeHealth | src/hooks/useEquipmentData.ts:25 | a nudged score is in [0.1, 1], equals the unclamped value when that is in range, and moves an in-range score by at most 0.0104 |
| EquipmentData.NudgeAll | src/hooks/useEquipmentData.ts:22-27 | same length and order; each item differs from its original only in its nudged health score; every score ends in [0.1, 1] |
| EquipmentData.EquipmentStore.constructor | src/hooks/useEquipmentData.ts:7-8 | the state starts as the mock array itself, loading |
| EquipmentData.EquipmentStore.FinishInitialLoad | src/hooks/useEquipmentData.ts:11-17 | the initial load ends without touching the equipment |
| EquipmentData.EquipmentStore.HealthTick | src/hooks/useEquipmentData.ts:20-30 | a fresh array holding the nudged list replaces the state; every score is in [0.1, 1] |
| EquipmentData.EquipmentStore.RefreshData | src/hooks/useEquipmentData.ts:32-33 | a refresh starts loading and keeps the equipment |
| EquipmentData.EquipmentStore.CompleteRefresh | src/hooks/useEquipmentData.ts:34-37 | the refresh restores the original mock array and stops loading |
| EquipmentData.NewReading | src/hooks/useEquipmentData.ts:57-69 | each field lies in its generator range; anomalous exactly when the draw exceeds 0.9; the id is "sr-" and the decimal clock reading |
| EquipmentData.SlideWindow | src/hooks/useEquipmentData.ts:70 | length `min(n+1, 50)`; the new reading last; the survivors a suffix of the old window, in order |
| EquipmentData.SlideWindowKeepsAll | src/hooks/useEquipmentData.ts:70 | below 50 readings nothing is evicted |
| EquipmentData.SlideWindowStaysFull | src/hooks/useEquipmentData.ts:70 | a full window stays at exactly 50 after any number of ticks |
| EquipmentData.SlideBounded | src/hooks/useEquipmentData.ts:70 | after any run of ticks the window holds at most 50, ending with the latest reading |
| EquipmentData.SensorStream.constructor | src/hooks/useEquipmentData.ts:44-50 | the stream starts with the given history, streaming |
| EquipmentData.SensorStream.ChangeEquipment | src/hooks/useEquipmentData.ts:45-50 | a new equipment id replaces the buffer by that id's history and keeps the streaming flag; later ticks carry the new id |
| EquipmentData.SensorStream.SetStreaming | src/hooks/useEquipmentData.ts:45 | switching streaming keeps the readings and the id |
| EquipmentData.SensorStream.Tick | src/hooks/useEquipmentData.ts:52-75 | while streaming a tick slides in a new reading stamped with the current id; paused, nothing is appended |
| EquipmentData.AlertTemplates | src/hooks/useEquipmentData.ts:84-88 | the feed draws from three canned updates |
| EquipmentData.PickUpdate | src/hooks/useEquipmentData.ts:91-94 | the emitted update is one of the three templates, stamped with the clock |
| EquipmentData.PushUpdate | src/hooks/useEquipmentData.ts:92-95 | the new update first, then the previous first nine in order; length `min(n+1, 10)` |
| EquipmentData.AlertFeed.constructor | src/hooks/useEquipmentData.ts:81 | the feed starts empty |
| EquipmentData.AlertFeed.Tick | src/hooks/useEquipmentData.ts:90-96 | one tick pushes one picked update; the list never exceeds 10 |
| HealthStyles.TextClass | src/pages/Dashboard.tsx:53 | the Average Health colour is success, warning or destructive exactly by health bucket; the detail page (src/pages/EquipmentDetail.tsx:51) and both health-card figures (src/components/dashboard/EquipmentHealthCard.tsx:98 and 130) use the same function |
| HealthStyles.BgClass | src/pages/Equipment.tsx:101-105 | `getHealthClass` fills the bar by the same buckets as the page's counts; `getHealthColorClass` (src/components/dashboard/EquipmentHealthCard.tsx:19-23) and the detail page's bar (src/pages/EquipmentDetail.tsx:52) are the same function |
| HealthStyles.BorderClass | src/components/dashboard/EquipmentHealthCard.tsx:25-29 | `getHealthBorderClass` picks the border by bucket |
| HealthStyles.TintClass | src/components/dashboard/EquipmentHealthCard.tsx:77-82 | the compact card's icon box is tinted by bucket |
| HealthStyles.StylesAgree | src/components/dashboard/EquipmentHealthCard.tsx:19-29 | every style family gives a score the same colour, the colour of its label |
| Dashboard.ActiveAlertsCard | src/pages/Dashboard.tsx:55-61 | the card's value is the critical count in decimal and its subtext the warning count followed by " warnings" |
| Dashboard.CriticalBanner | src/pages/Dashboard.tsx:192-199 | the banner is shown, with the critical count, exactly when that count is positive |
| Dashboard.GridOrder | src/pages/Dashboard.tsx:155-156 | the grid is ordered by non-decreasing health and is a permutation of the equipment |
| Dashboard.SortEquipmentGrid | src/pages/Dashboard.tsx:155-156 | the state array is sorted in place, and so is the mock array whenever it is the same array |
| Dashboard.FirstRenderReordersMock | src/pages/Dashboard.tsx:155-156 | a mock list of a healthy unit then a critical one comes back swapped after the first render's sort |
| Dashboard.SortedGrid | src/pages/Dashboard.tsx:155-158 | the grid on a copy: sorted by health, a permutation of the state, and no array written |
| Dashboard.TrendChartIds | src/pages/Dashboard.tsx:167-169 | the trend chart plots the ids of the first three grid entries |
| EquipmentPage.MatchesSearch | src/pages/Equipment.tsx:44-51 | an empty query keeps every item; otherwise an item is kept exactly when the lower-cased query occurs at some position of its lower-cased name, equipment code or factory id |
| EquipmentPage.MatchesStatus | src/pages/Equipment.tsx:54-56 | "all" keeps every item; any other value keeps exactly the items whose status has that name, and nothing when no status has it |
| EquipmentPage.MatchesType | src/pages/Equipment.tsx:59-61 | "all" keeps every item; any other value keeps exactly the items whose type has that name, and nothing when no type has it |
| EquipmentPage.MatchesHealth | src/pages/Equipment.tsx:64-72 | the critical, warning and healthy values keep exactly the scores labelled so; any other value keeps every item |
| EquipmentPage.OrderLe | src/pages/Equipment.tsx:75-89 | each key and order gives a total preorder, so the sort is well defined |
| EquipmentPage.FilteredEquipment | src/pages/Equipment.tsx:40-92 | the list holds exactly the equipment every filter accepts, nothing added or duplicated, ordered by the chosen key ascending or reversed |
| EquipmentPage.FilteredEquipmentStable | src/pages/Equipment.tsx:75-89 | items that tie on the chosen key keep their list order |
| EquipmentPage.ApplySearchAndStatus | src/pages/Equipment.tsx:41-56 | the search and status blocks, each skipped when unset, keep exactly the items both tests accept |
| EquipmentPage.ApplyType | src/pages/Equipment.tsx:59-61 | the type block, skipped for "all", keeps exactly the items the type test accepts |
| EquipmentPage.NoFilterKeepsEverything | src/pages/Equipment.tsx:40-92 | with an empty query and every filter at "all" the result is a permutation of the equipment |
| EquipmentPage.ComputeFilteredEquipment | src/pages/Equipment.tsx:40-92 | the filter-by-filter reassignment and the in-place sort compute the filtered, sorted list |
| EquipmentPage.ApplyHealthFilter | src/pages/Equipment.tsx:64-72 | the health block keeps exactly what the health select accepts, and everything for any other value |
| EquipmentPage.HealthBucketsPartition | src/pages/Equipment.tsx:94-99 | the three health buckets count every item once |
| EquipmentPage.StatsOf | src/pages/Equipment.tsx:94-99 | total is the list length, each bucket count is the number with that label, and they add up to total |
| AlertsPage.ActiveAlerts | src/pages/Alerts.tsx:20 | exactly the active predictions |
| AlertsPage.AlertStatsOf | src/pages/Alerts.tsx:20-23 | active counts the active predictions; high risk, acknowledged and pending count those of the active predictions that satisfy each test; acknowledged plus pending equals active and high risk is at most active |
| AlertsPage.AlertPartitions | src/pages/Alerts.tsx:21-23 | acknowledged and pending are disjoint and together are the active alerts; high risk is exactly the active ones at 0.7 or more |
| AlertsPage.SortActiveAlerts | src/pages/Alerts.tsx:102-103 | the active array is sorted in place by descending probability |
| AlertsPage.RenderedAlerts | src/pages/Alerts.tsx:100-104 | the rendered list is the ranking, non-increasing in probability and a permutation of the active alerts |
| AlertsPage.AlertBadge | src/pages/Alerts.tsx:133 | the badge is destructive exactly at high risk (0.8) |
| PredictiveAlerts.ByProbabilityDescTotalPreorder | src/components/dashboard/PredictiveAlerts.tsx:30 | the ranking comparator is a total preorder |
| PredictiveAlerts.ActiveByRisk | src/components/dashboard/PredictiveAlerts.tsx:28-30 | the ranking is a permutation of the active predictions, non-increasing in probability |
| PredictiveAlerts.ActiveByRiskStable | src/components/dashboard/PredictiveAlerts.tsx:28-30 | active predictions of equal probability keep their list order |
| PredictiveAlerts.TopActive | src/components/dashboard/PredictiveAlerts.tsx:27-32 | only active predictions, non-increasing, a prefix of the ranking, of length `min(maxAlerts, active)` |
| PredictiveAlerts.TopActiveAll | src/components/dashboard/PredictiveAlerts.tsx:31 | a cut no smaller than the active count keeps the whole ranking |
| PredictiveAlerts.SortedPredictions | src/components/dashboard/PredictiveAlerts.tsx:27-32 | the memoised list is the top of the ranking, and the shared prediction array is not reordered |
| PredictiveAlerts.EquipmentName | src/components/dashboard/PredictiveAlerts.tsx:34-37 | the first matching equipment's name, or the id when none matches or the name is empty; the alerts page's lookup (src/pages/Alerts.tsx:25) is the same function |
| PredictiveAlerts.RiskOf | src/components/dashboard/PredictiveAlerts.tsx:39-43 | high from 0.8, elevated on [0.6, 0.8), low below |
| PredictiveAlerts.GetPriorityColor | src/components/dashboard/PredictiveAlerts.tsx:39-43 | destructive, default or secondary exactly by risk level |
| PredictiveAlerts.GetPriorityBg | src/components/dashboard/PredictiveAlerts.tsx:45-49 | the card style agrees with the badge colour |
| FailureProbabilityChart.ShortName | src/components/analytics/FailureProbabilityChart.tsx:29 | the short name is a prefix of the name, the whole name with at most two words, and empty only for an empty name |
| FailureProbabilityChart.RowOf | src/components/analytics/FailureProbabilityChart.tsx:28-33 | percentages are fractions times 100; the full name is the lookup; the label is the id or a non-empty short name of a matching equipment |
| FailureProbabilityChart.RowLabelFallback | src/components/analytics/FailureProbabilityChart.tsx:29 | the label is the id exactly when the lookup fails or finds an empty name |
| FailureProbabilityChart.ChartData | src/components/analytics/FailureProbabilityChart.tsx:21-35 | one row per entry of the top-`limit` ranking, in order |
| FailureProbabilityChart.ChartDataOrder | src/components/analytics/FailureProbabilityChart.tsx:24 | the bars run from the highest probability down |
| FailureProbabilityChart.GetBarColor | src/components/analytics/FailureProbabilityChart.tsx:37-41 | on the percent scale the colours follow the same risk levels at 80 and 60 |
| FailureProbabilityChart.BarColorOfRow | src/components/analytics/FailureProbabilityChart.tsx:30-41 | a bar is destructive exactly when its prediction is high risk |
| HealthTrendChart.PointCount | src/components/analytics/HealthTrendChart.tsx:36 | 12, 24, 7 or 30 points, never none |
| HealthTrendChart.Interval | src/components/analytics/HealthTrendChart.tsx:38-41 | the spacing is positive, and the point count times the spacing is the range's announced length: one hour, a day, a week or thirty days |
| HealthTrendChart.RangeSpans | src/components/analytics/HealthTrendChart.tsx:36-41 | the chart reaches back 55 minutes, 23 hours, 6 days or 29 days |
| HealthTrendChart.BuildChartData | src/components/analytics/HealthTrendChart.tsx:43-63 | the nested loops build exactly the specified points, as many as the range has |
| HealthTrendChart.SeriesAt | src/components/analytics/HealthTrendChart.tsx:52-59 | the `forEach` over the ids computes exactly the point's series map |
| HealthTrendChart.TimesAscendToNow | src/components/analytics/HealthTrendChart.tsx:44 | timestamps are evenly spaced, strictly increasing, and the last is now |
| HealthTrendChart.SeriesValue | src/components/analytics/HealthTrendChart.tsx:54-58 | a value lies in [0.1, 1], and is the drifted score itself whenever that lies in [0.1, 1] |
| HealthTrendChart.SeriesValues | src/components/analytics/HealthTrendChart.tsx:52-60 | every plotted value of a point lies in [0.1, 1] |
| HealthTrendChart.SeriesKeys | src/components/analytics/HealthTrendChart.tsx:52-60 | a point has a series exactly for the names of equipment found by the ids; ids with no match add none |
| HealthTrendChart.SameSeriesAtEveryPoint | src/components/analytics/HealthTrendChart.tsx:52-60 | every point carries the same series |
| HealthTrendChart.GetTrend | src/components/analytics/HealthTrendChart.tsx:70-78 | stable under two points; up or down exactly when last minus first passes ±0.02, a missing value read as 0 |
| HealthTrendChart.MissingSeriesIsStable | src/components/analytics/HealthTrendChart.tsx:72-74 | a name with no series is stable |
| HealthTrendChart.DriftTrend | src/components/analytics/HealthTrendChart.tsx:58 | the `(points - i)·0.002` term alone makes the trend down for 1h, 24h and 30d but stable for 7d |
| MaintenanceSchedule.UpcomingMaintenance | src/components/dashboard/MaintenanceSchedule.tsx:19-32 | at most five, each due within the window, ascending by date, a prefix of the sorted window |
| MaintenanceSchedule.RecentRecords | src/components/dashboard/MaintenanceSchedule.tsx:34-36 | at most three in-progress or scheduled records, the first ones in list order |
| MaintenanceSchedule.ItemCount | src/components/dashboard/MaintenanceSchedule.tsx:71 | the header count is the sum of both lists, at most eight |
| MaintenanceSchedule.DaysUntil | src/components/dashboard/MaintenanceSchedule.tsx:116-118 | the inline day count is `getDaysUntil` |
| MaintenanceSchedule.UpcomingDaysInRange | src/components/dashboard/MaintenanceSchedule.tsx:116-118 | with the memo's clock a listed item is 0 to `daysAhead` days away; a later render clock never raises the count |
| MaintenanceSchedule.DaysBadge | src/components/dashboard/MaintenanceSchedule.tsx:135 | destructive up to 2 days, default up to 5, secondary beyond |
| MaintenanceSchedule.GetTypeColor | src/components/dashboard/MaintenanceSchedule.tsx:38-49 | primary, success, warning and destructive tints exactly for predictive, preventive, corrective and emergency work |
| MaintenanceSchedule.TypeColorsDistinct | src/components/dashboard/MaintenanceSchedule.tsx:38-49 | the four maintenance types get four different styles, the same four as the maintenance page's (src/pages/Maintenance.tsx:14-21) |
| MaintenanceSchedule.GetOrderStatusColor | src/components/dashboard/MaintenanceSchedule.tsx:51-62 | secondary for scheduled and the fallback, default for in progress, outline for completed |
| MaintenancePage.TotalCost | src/pages/Maintenance.tsx:36 | zero for no records; otherwise the sum of the other records' costs plus the last one's, as the left fold from zero adds them |
| MaintenancePage.TotalCostSplit | src/pages/Maintenance.tsx:36 | the sum of costs splits over any filter and its complement |
| MaintenancePage.StatusCountsPartition | src/pages/Maintenance.tsx:33-35 | the four status counts add up to the number of records |
| MaintenancePage.StatsOf | src/pages/Maintenance.tsx:32-37 | scheduled, in progress and completed count the records with that status; the total cost is the sum over all records; the three counts plus the cancelled count are the number of records, and the total cost is the non-cancelled cost plus the cancelled cost |
| MaintenancePage.GetStatusBadge | src/pages/Maintenance.tsx:23-30 | the badge text names exactly its status; cancelled alone is destructive and completed alone outlined |
| MaintenancePage.StatusBadgesDistinct | src/pages/Maintenance.tsx:23-30 | the four statuses get four different badge texts and variants |
| RealTimeMonitor.Threshold | src/components/dashboard/RealTimeMonitor.tsx:39-44 | every threshold is positive |
| RealTimeMonitor.GetCurrentValue | src/components/dashboard/RealTimeMonitor.tsx:47-58 | 0 with no readings, else the metric of the newest reading, power reading the power consumption |
| RealTimeMonitor.IsAboveThreshold | src/components/dashboard/RealTimeMonitor.tsx:60 | flagged exactly when a newest reading exceeds the threshold strictly; a value at the threshold is not flagged |
| RealTimeMonitor.ThresholdsReachable | src/components/dashboard/RealTimeMonitor.tsx:39-44 | every threshold lies strictly inside the generator's range for that metric |
| RealTimeMonitor.ChartData | src/components/dashboard/RealTimeMonitor.tsx:62-69 | one point per reading of the last thirty, in order, with the metric and anomaly flag copied |
| RealTimeMonitor.ChartEndsAtCurrentValue | src/components/dashboard/RealTimeMonitor.tsx:47-69 | the chart's last point is the value shown as current |
| RealTimeMonitor.CompactTiles | src/components/dashboard/RealTimeMonitor.tsx:85-91 | one tile per metric in tab order, each with the current value and flagged by the same strict test |
| RealTimeMonitor.AnomalyCount | src/components/dashboard/RealTimeMonitor.tsx:212-216 | the count is the number of anomalous readings in the buffer, at most its length; the banner shows exactly when one exists |
| RealTimeMonitor.ChartAnomaliesAtMostBanner | src/components/dashboard/RealTimeMonitor.tsx:62-69 | the chart never marks more anomalies than the banner counts |
| LandingDemo.IndexAfter | src/pages/Index.tsx:95-98 | after k ticks the rotation index is k mod 5 |
| LandingDemo.NudgeDemoHealth | src/pages/Index.tsx:111 | a nudged health is in [10, 100] and moves an in-range health by at most 2.5 |
| LandingDemo.NudgeCards | src/pages/Index.tsx:108-112 | same count and order, only the health changes, every health in [10, 100] |
| LandingDemo.Demo.constructor | src/pages/Index.tsx:88-90 | the demo starts playing, with an empty banner and the five mock cards |
| LandingDemo.Demo.TogglePlay | src/pages/Index.tsx:93-95 | turning play back on restarts the rotation at the first alert |
| LandingDemo.Demo.AlertTick | src/pages/Index.tsx:92-102 | tick k of a playback shows `alerts[(k-1) mod 5]`; paused, nothing changes |
| LandingDemo.Demo.HealthTick | src/pages/Index.tsx:104-117 | while playing every card is nudged; paused, nothing changes |
| LandingDemo.Demo.SimulateAlert | src/pages/Index.tsx:119-126 | the banner shows one of the three emergency messages, the one the draw selects |
| LandingDemo.MockHealthInRange | src/pages/Index.tsx:33-39 | the mock cards start within [10, 100] |
| LandingDemo.SimulatedAlertThirds | src/pages/Index.tsx:125 | each emergency message is picked by a third of the draws |
| EquipmentCard.GetHealthColor | src/components/EquipmentCard.tsx:20-24 | on the percent scale, the bar colour follows the health buckets at 80 and 60 |
| EquipmentCard.GetIconColor | src/components/EquipmentCard.tsx:52-56 | the icon colour agrees with the bar colour |
| EquipmentCard.GetStatusBadge | src/components/EquipmentCard.tsx:26-50 | Critical exactly for "critical", Warning exactly for "warning", Healthy for anything else |
| EquipmentCard.BadgeIndependentOfHealth | src/components/EquipmentCard.tsx:26-56 | Press #3 at 92 with status "critical" shows a Critical badge in the success colour |
| EquipmentCard.RoundedPercent | src/components/EquipmentCard.tsx:84 | `Math.round` gives the nearest integer, halves up |
| EquipmentCard.RoundedPercentInRange | src/components/EquipmentCard.tsx:84 | a health in [10, 100] shows as a percentage in [10, 100] |
| EquipmentHealthCard.GetStatusIcon | src/components/dashboard/EquipmentHealthCard.tsx:31-44 | every status has an icon, tinted with that status's colour |
| EquipmentHealthCard.StatusIconsDistinct | src/components/dashboard/EquipmentHealthCard.tsx:31-44 | different statuses get different icons |
| EquipmentHealthCard.GetStatusBadge | src/components/dashboard/EquipmentHealthCard.tsx:46-69 | the badge text is the health label |
| EquipmentHealthCard.StatusBadgeIgnoresStatus | src/components/dashboard/EquipmentHealthCard.tsx:46-69 | the badge does not depend on the status |
| EquipmentHealthCard.FailedCanReadHealthy | src/components/dashboard/EquipmentHealthCard.tsx:46-69 | a failed machine at 0.9 shows Healthy |
| EquipmentDetail.DetailOf | src/pages/EquipmentDetail.tsx:33-48 | not found exactly when no equipment has the id; otherwise the first match, with exactly the predictions and records of that id in list order |
| EquipmentDetail.CriticalityLabel | src/pages/EquipmentDetail.tsx:116 | High from 0.8, Medium on [0.5, 0.8), Low below |
| EquipmentDetail.HighRiskCount | src/pages/EquipmentDetail.tsx:136 | the predictions at 0.7 or more, never more than listed |
| EquipmentDetail.PredictionIconColor | src/pages/EquipmentDetail.tsx:190-193 | the icon is destructive exactly when the badge is |
| EquipmentDetail.HighRiskNotAlwaysDestructive | src/pages/EquipmentDetail.tsx:136-202 | a 0.75 prediction counts as high risk yet is styled as a warning |
| Analytics.FirstOccurrencesMeaning | src/pages/Analytics.tsx:80-88 | the key order lists each type once, and exactly the types present |
| Analytics.CountTypes | src/pages/Analytics.tsx:80-83 | the reduce loop builds exactly the count object and the key order of the whole list |
| Analytics.CountsMeaning | src/pages/Analytics.tsx:80-83 | the reduce's object has a key exactly for each type present, and each entry is the number of that type |
| Analytics.EquipmentByType | src/pages/Analytics.tsx:80-88 | the keys are exactly the types present, each count is the number of that type, and the entries come in first-occurrence order |
| Analytics.CountsSumToTotal | src/pages/Analytics.tsx:80-83 | the per-type counts add up to the number of equipment |
| Analytics.TypeData | src/pages/Analytics.tsx:85-88 | one slice per type present, named by the type, valued by its count |
| Analytics.TypeDataTotal | src/pages/Analytics.tsx:85-88 | the slice values add up to the number of equipment |
| Analytics.HealthDistribution | src/pages/Analytics.tsx:45-49 | three slices, Healthy, Warning and Critical, valued from the summary and coloured as `getHealthColor` colours each label |

## Left out

- The summary `calculateDashboardStats` is not part of this model; neither are `generateSensorReadings` and the mock arrays. The summary's result, the history and the mock lists are inputs.
- `formatDate`, `formatCurrency`, `formatPercentage` and `formatNumber` are not modelled: their output is locale and floating-point formatting done by the runtime.
- The trend chart's axis label, the monitor's time text and the `toFixed(1)` figures are formatted text and are left out for the same reason.
- Scores, costs and sensor values are exact reals. IEEE rounding, and the case where `a - b` rounds to zero in a comparator, are not represented.
- `EquipmentPage.OrderLe`: the name sort uses `localeCompare`. The model uses code-point order on strings, a total preorder like the locale order, but not the same order for accented or mixed-case names.
- `Strings.ToLower`: only ASCII letters are lower-cased; `toLowerCase` on other characters is not modelled.
- Timers, effect cleanup and React re-rendering are not modelled. Each interval firing is one method call, and the cadence (2 s, 3 s, 8 s) is not represented.
- The dashboard's simulated connection flag is left out: it is a random coin flip with no logic.
- JSX, icons, routing and navigation are left out. So are the alerts page's search box (its query is stored but never read) and its tab contents.
- The remaining inline badges are not modelled: the detail page's acknowledged badge and work-order badge.
- These pages and components hold no data logic and are left out: the settings page, the layout, the feature card, the stat card, the floating orb and the alert banner.
- `HealthTrendChart.SeriesValues`: series are keyed by equipment name in the same object as `time` and `label`. An equipment named "time" or "label" would overwrite those fields; the model keeps the series in a separate map.
- `EquipmentData.EquipmentStore.HealthTick`: the `setEquipment` updater is modelled as acting on the current state at the tick. React's batching of queued updaters is not modelled.

## Findings

| source | as written | input that shows it | evidently intended | confidence | as-written member | corrected member |
|---|---|---|---|---|---|---|
| src/pages/Dashboard.tsx:155-156 | `equipment.sort(...)` sorts the hook's state array in place. Until the first health tick, and again after every refresh, that array is the module-level `mockEquipment`, so the shared mock list is reordered. Every other page reading it then sees health order, including the analytics type order and the trend chart's default ids. | a mock list [unit at 0.9, unit at 0.3] becomes [unit at 0.3, unit at 0.9] on the dashboard's first render | render the grid from a sorted copy (`[...equipment].sort(...)`), leaving state and mock data in list order | medium, not executed | Dashboard.SortEquipmentGrid, Dashboard.FirstRenderReordersMock | Dashboard.SortedGrid |
